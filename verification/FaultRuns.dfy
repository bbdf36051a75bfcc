/** Two runs in which a fault goes wrong: a master that nothing named, and two configs with one profile. */
module FaultRuns {
  import opened SyncStates
  import opened Options
  import opened Engine
  import opened EventTrace
  import opened Channels
  import opened Holdovers
  import opened HoldoverEnds
  import opened StatusClocks
  import opened Samples

  /** An ordinary clock with one port, before its first port line. */
  predicate Ready(n: Node, c: ConfigName) {
    && ConfigOf(n, c).ptype == Plain && ConfigOf(n, c).profile != "" && c !in n.stats && n.offsetSource != Ts2phc
    && ConfigOf(n, c).ports == [PortConfig("ens1f0", 1, Listening)]
  }

  const BECOMES_SLAVE := PortLog(1, Slave, false)
  const FAULTS := PortLog(1, Faulty, true)

  /** What a step on one config leaves of the others. */
  ghost predicate Unmoved(n: Node, m: Node, c: ConfigName) {
    && (forall d :: d != c ==> ConfigOf(m, d) == ConfigOf(n, d) && (d in m.stats <==> d in n.stats))
    && ConfigOf(m, c).profile == ConfigOf(n, c).profile && ConfigOf(m, c).ptype == ConfigOf(n, c).ptype
  }

  /** The port is a slave, and the master has stats without an alias. */
  predicate Serving(n: Node, c: ConfigName) {
    && ConfigOf(n, c).ptype == Plain && ConfigOf(n, c).profile != ""
    && ConfigOf(n, c).ports == [PortConfig("ens1f0", 1, Slave)]
    && Has(n, c, Master) && At(n, c, Master).state == Unset && At(n, c, Master).process != Ts2phc
  }

  lemma SlaveLine(n: Node, c: ConfigName)
    requires Ready(n, c)
    ensures
      var m := Step(n, Line(c, BECOMES_SLAVE));
      Serving(m, c) && Unmoved(n, m, c) && m.holdovers == n.holdovers
  {
    hide At, Notice, PortIndex;
    var known := n.(stats := n.stats[c := map[]]);
    var noticed := Notice(known, c, Slave);
    NoticeSetsUp(known, c);
    SlavePort(known, c);
    assert Step(n, Line(c, BECOMES_SLAVE)) == SetRole(noticed, c, 0, Slave) by {
      hide PortLine, SetRole;
      DispatchesPort(known, c, BECOMES_SLAVE);
      assert Step(n, Line(c, BECOMES_SLAVE)) == PortLine(known, c, 1, Slave, false);
    }
    SameStats(noticed, SetRole(noticed, c, 0, Slave));
  }

  lemma SlavePort(n: Node, c: ConfigName)
    requires ConfigOf(n, c).ports == [PortConfig("ens1f0", 1, Listening)]
    ensures
      var noticed := Notice(n, c, Slave);
      noticed.configs == n.configs && PortLine(n, c, 1, Slave, false) == SetRole(noticed, c, 0, Slave)
  {
    hide Notice, SetRole, Fault, PortIndex;
    FirstPort(ConfigOf(n, c).ports);
    NoticeFrame(n, c, Slave);
  }

  lemma FirstPort(ports: seq<PortConfig>)
    requires ports != [] && ports[0].id == 1
    ensures PortIndex(ports, 1) == 0
  {
  }

  lemma NoticeSetsUp(n: Node, c: ConfigName)
    requires c in n.stats && !Has(n, c, Master)
    ensures
      var m := Notice(n, c, Slave);
      && m == n.(stats := m.stats) && (forall d :: d in m.stats <==> d in n.stats)
      && Has(m, c, Master) && At(m, c, Master).state == Unset && At(m, c, Master).process == n.offsetSource
  {
  }

  lemma FaultLine(n: Node, c: ConfigName)
    requires Serving(n, c)
    ensures
      var m := Step(n, Line(c, FAULTS));
      && At(m, c, Master).state == Holdover && Unmoved(n, m, c)
      && m.offsetSource == At(n, c, Master).process
  {
    hide At, Fault, PortIndex;
    var led := n.(offsetSource := At(n, c, Master).process);
    assert n.stats[c := StatsOf(n.stats, c)] == n.stats;
    FirstPort(ConfigOf(n, c).ports);
    SameStats(n, led);
    var r := SetRole(led, c, 0, Faulty);
    SameStats(led, r);
    assert Step(n, Line(c, FAULTS)) == Fault(r, c, Faulty, true);
    FaultHolds(r, c);
  }

  lemma FaultHolds(n: Node, c: ConfigName)
    requires ConfigOf(n, c).ptype != Tbc && Has(n, c, Master)
    requires At(n, c, Master).state == Unset && At(n, c, Master).process == n.offsetSource
    ensures
      var m := Fault(n, c, Faulty, true);
      && At(m, c, Master).state == Holdover && m.configs == n.configs && m.offsetSource == n.offsetSource
      && forall d :: d in m.stats <==> d in n.stats
  {
    hide NodeState, PtpThreshold;
    var st := At(n, c, Master);
    var m := Announce(SetStat(n, c, Master, st.(role := Faulty)), c, Master, Holdover, st.lastOffset, PtpState, true);
    assert forall d :: d in m.stats <==> d in n.stats;
    ThresholdFrame(m, ConfigOf(m, c).profile, true);
    SameStats(m, StartHoldover(m, c));
  }

  // ----- The runs

  const A := "ptp4l.0.config"
  const B := "ptp4l.1.config"
  const ORDINARY := Config("ordinary", Plain, [PortConfig("ens1f0", 1, Listening)], false)

  /** Two configs with one profile, and the default threshold for it. */
  function Start(): (n: Node) {
    Node(map[], map[A := ORDINARY, B := ORDINARY], {}, map[], _ => "ens1fx", map["ordinary" := Threshold(5, 100, 0, 0)],
         _ => "ordinary", 0, {}, 1, [], NoProcess, Unset, Unset, [])
  }

  lemma StartIsReady()
    ensures Init(Start()) && OwnEntries(Start()) && A != B && Ready(Start(), A) && Ready(Start(), B)
    ensures ConfigOf(Start(), A).profile == ConfigOf(Start(), B).profile == "ordinary"
  {
    assert A[6] != B[6];
    forall c ensures Keyed(Start(), c) || ConfigOf(Start(), c).profile == "" {
    }
  }

  lemma TwoLines(r: Run, i: nat, c: ConfigName)
    requires IsRun(r) && i + 1 < |r.inputs| && Ready(r.states[i], c)
    requires r.inputs[i] == Line(c, BECOMES_SLAVE) && r.inputs[i + 1] == Line(c, FAULTS)
    ensures Faults(r, i + 1, c) && r.states[i + 2].offsetSource != Ts2phc
    ensures forall d :: d != c && Ready(r.states[i], d) ==> Ready(r.states[i + 2], d)
    ensures forall d :: d != c ==> ConfigOf(r.states[i + 2], d) == ConfigOf(r.states[i], d)
    ensures r.states[i + 1].holdovers == r.states[i].holdovers
    ensures ConfigOf(r.states[i + 2], c).profile == ConfigOf(r.states[i], c).profile
  {
    hide Init, Step, At, Has;
    assert Follows(r, i) && Follows(r, i + 1);
    SlaveLine(r.states[i], c);
    FaultLine(r.states[i + 1], c);
    WasUnset(r.states[i + 1], c);
    StillReady(r.states[i], r.states[i + 1], r.states[i + 2], c);
  }

  lemma WasUnset(n: Node, c: ConfigName)
    requires Serving(n, c)
    ensures At(n, c, Master).state != Holdover && At(n, c, Master).process != Ts2phc
  {
  }

  lemma StillReady(n: Node, m: Node, l: Node, c: ConfigName)
    requires Unmoved(n, m, c) && Unmoved(m, l, c) && l.offsetSource != Ts2phc
    ensures forall d :: d != c && Ready(n, d) ==> Ready(l, d)
    ensures forall d :: d != c ==> ConfigOf(l, d) == ConfigOf(n, d)
    ensures ConfigOf(l, c).profile == ConfigOf(n, c).profile
  {
  }

  /** Both configs fault: a started program can get there, and then the first has no timer left. */
  lemma TwoFaultsOnOneProfile() returns (r: Run)
    ensures IsRun(r) && OwnEntries(r.states[0]) && Faults(r, 1, A) && Faults(r, 3, B) && A != B
    ensures ConfigOf(r.states[2], A).profile == ConfigOf(r.states[4], B).profile == "ordinary"
    ensures HoldoverFires(r.states[4], 0) == r.states[4] && At(r.states[4], A, Master).state == Holdover
  {
    StartIsReady();
    NoTimersYet();
    hide IsRun, Start, Ready, Faults, OwnEntries, Init, ConfigOf, At, MayEnd, Adds;
    r := EveryInputRuns(Start(), [Line(A, BECOMES_SLAVE), Line(A, FAULTS), Line(B, BECOMES_SLAVE), Line(B, FAULTS)]);
    RunHasStates(r, 3);
    TwoLines(r, 0, A);
    TwoLines(r, 2, B);
    InHoldover(r, 1, A);
    OthersEndNothing(r.states[2], B, A);
    OthersEndNothing(r.states[3], B, A);
    HoldoverStays(r, 2, 4, A);
    FaultElsewhereCancels(r, 1, 3, A, B);
  }

  lemma OthersEndNothing(n: Node, c: ConfigName, d: ConfigName)
    requires c != d
    ensures !MayEnd(n, Line(c, BECOMES_SLAVE), d) && !MayEnd(n, Line(c, FAULTS), d)
  {
  }

  /** A master that no offset and no summary has named: its timer runs, and it stays in holdover, though
      nothing cancelled the timer. */
  lemma NamelessHoldover() returns (r: Run)
    ensures IsRun(r) && OwnEntries(r.states[0]) && |r.inputs| == 4 && Faults(r, 1, A)
    ensures r.inputs[2] == HoldoverFire(0) && r.inputs[3] == HoldoverRun(0)
    ensures !Cancelled(r.states[2], r.states[4], "ordinary")
    ensures At(r.states[4], A, Master).state == Holdover && Alias(r.states[4], A) == ""
    ensures |r.states[4].holdovers| == 1 && r.states[4].holdovers[0].status == Over
  {
    StartIsReady();
    NoTimersYet();
    hide IsRun, Start, Ready, Faults, OwnEntries, Init, Cancelled, At, Fresh, ConfigOf, LastName, Adds, MayEnd;
    r := EveryInputRuns(Start(), [Line(A, BECOMES_SLAVE), Line(A, FAULTS), HoldoverFire(0), HoldoverRun(0)]);
    RunHasStates(r, 3);
    TwoLines(r, 0, A);
    FaultStartsTimer(r, 1, A);
    FreshTimer(r.states[1], r.states[2], A);
    OneFreshTimer(r.states[1], r.states[2], A);
    InHoldover(r, 1, A);
    FireEndsNothing(r.states[2], 0, A);
    HoldoverStays(r, 2, 3, A);
    TimerFires(r, 2, 0);
    ExpiredTimerEnds(r, 3, 0);
    NobodyNamed(r);
    AliasIsLastName(r, 3, A);
    AliasIsLastName(r, 4, A);
    FaultEndsByTimer(r, 1, 2, 3, A);
    OpenUnlessCancelled(r, 2, 4, 0);
    NothingClosed(r);
  }

  lemma NoTimersYet()
    ensures Start().holdovers == []
  {
  }

  lemma OneFreshTimer(n: Node, m: Node, c: ConfigName)
    requires Fresh(n, m, c)
    ensures |m.holdovers| == |n.holdovers| + 1
  {
  }

  lemma InHoldover(r: Run, i: nat, c: ConfigName)
    requires IsRun(r) && Faults(r, i, c)
    ensures At(r.states[i + 1], c, Master).state == Holdover
  {
  }

  lemma FireEndsNothing(n: Node, t: nat, c: ConfigName)
    ensures !MayEnd(n, HoldoverFire(t), c)
  {
  }

  lemma NobodyNamed(r: Run)
    requires IsRun(r) && r.inputs == [Line(A, BECOMES_SLAVE), Line(A, FAULTS), HoldoverFire(0), HoldoverRun(0)]
    ensures LastName(r, 3, A) == LastName(r, 4, A) == ""
  {
    hide Init, Step, Accepts;
    assert LastName(r, 0, A) == LastName(r, 1, A) == LastName(r, 2, A) == "";
  }

  lemma RunsClose(n: Node, t: nat)
    ensures HoldoverRuns(n, t).closed == n.closed
  {
    if t < |n.holdovers| {
      RunsKeepOwners(n, t);
    }
  }

  lemma NothingClosed(r: Run)
    requires IsRun(r) && r.inputs == [Line(A, BECOMES_SLAVE), Line(A, FAULTS), HoldoverFire(0), HoldoverRun(0)]
    ensures r.states[4].closed == r.states[2].closed
  {
    assert Follows(r, 2) && Follows(r, 3);
    hide Init, HoldoverRuns;
    RunsClose(r.states[3], 0);
  }
}
