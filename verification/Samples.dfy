/** What single reports for CLOCK_REALTIME do and when a second one repeats the first; and how a line of a run is
    handled or refused. */
module Samples {
  import opened SyncStates
  import opened Int64s
  import opened Options
  import opened OsClock
  import opened Engine
  import opened EventTrace
  import Steps

  /** The events of a trace, in order. */
  function Events(t: Trace): (r: Trace) {
    if t == [] then []
    else
      var before, e := Events(t[..|t| - 1]), t[|t| - 1];
      if e.Published? then before + [e] else before
  }

  lemma EventsSnoc(t: Trace, e: Entry)
    ensures Events(t + [e]) == if e.Published? then Events(t) + [e] else Events(t)
  {
    assert (t + [e])[..|t|] == t;
  }

  /** Is the offset in range of the threshold that the next lookup of the config finds? */
  predicate Verdict(n: Node, c: ConfigName, offset: Int64) {
    IsOffsetInRange(offset, PtpThreshold(n, ConfigOf(n, c).profile, false).max)
  }

  lemma VerdictOfOwn(n: Node, c: ConfigName, offset: Int64)
    requires OwnThreshold(n, c)
    ensures Verdict(n, c, offset) == IsOffsetInRange(offset, MaxOffset(n, c))
  {
  }

  /** A report that leaves the state as it is publishes nothing. */
  lemma NoNews(n: Node, c: ConfigName, offset: Int64, reported: SyncState)
    requires NextState(At(n, c, ClockRealtime).state, reported, Verdict(n, c, offset)) == At(n, c, ClockRealtime).state
    ensures
      var m := Gen(n, c, ClockRealtime, offset, reported, OsClockState);
      && At(m, c, ClockRealtime).state == At(n, c, ClockRealtime).state
      && Events(m.trace) == Events(n.trace) && m.lastOverall == n.lastOverall && m.closed == n.closed
  {
    hide NodeState, At, PtpThreshold, IsOffsetInRange, Record;
    if reported != Unset {
      var st := At(n, c, ClockRealtime);
      var t := PtpThreshold(n, ConfigOf(n, c).profile, false);
      ThresholdFrame(n, ConfigOf(n, c).profile, false);
      SameStats(n, t.node);
      EventsSnoc(n.trace, Stored(c, ClockRealtime, st.state, st.state));
    }
  }

  /** A second call for the same sample repeats the first exactly when the report is none of a lock,
      or both lookups judge its offset alike, which lookups of the profile's own entry do. */
  lemma SecondCallRepeats(n: Node, c: ConfigName, offset: Int64, reported: SyncState)
    ensures
      var one := Gen(n, c, ClockRealtime, offset, reported, OsClockState);
      var two := Gen(one, c, ClockRealtime, offset, reported, OsClockState);
      var same := reported != Locked || Verdict(n, c, offset) == Verdict(one, c, offset);
      && (At(two, c, ClockRealtime).state == At(one, c, ClockRealtime).state <==> same)
      && (same ==>
            && At(two, c, ClockRealtime).lastOffset == At(one, c, ClockRealtime).lastOffset
            && Events(two.trace) == Events(one.trace)
            && two.lastOverall == one.lastOverall && two.closed == one.closed)
  {
    hide Gen, At, PtpThreshold, IsOffsetInRange;
    var one := Gen(n, c, ClockRealtime, offset, reported, OsClockState);
    if reported != Locked || Verdict(n, c, offset) == Verdict(one, c, offset) {
      NoNews(one, c, offset, reported);
    }
  }

  /** Same state, last offset, events, cached node state and channels. */
  ghost predicate SameOutcome(n: Node, m: Node, c: ConfigName) {
    && At(m, c, ClockRealtime).state == At(n, c, ClockRealtime).state
    && At(m, c, ClockRealtime).lastOffset == At(n, c, ClockRealtime).lastOffset
    && Events(m.trace) == Events(n.trace) && m.lastOverall == n.lastOverall && m.closed == n.closed
  }

  /** A sample that is reported twice over, under its own threshold entry, comes out as the first
      call left it; only the statistics count it again. */
  lemma SampleIsOneCall(n: Node, c: ConfigName, offset: Int64, servo: SyncState)
    requires OwnThreshold(n, c) && servo != Unset
    requires (Has(n, c, Master) && At(n, c, Master).role == Slave) || n.offsetSource == Ts2phc
    ensures
      SameOutcome(Gen(n, c, ClockRealtime, offset, OverallState(servo, E1State(n, c)), OsClockState),
                  RealtimeSample(n, c, offset, servo), c)
  {
    hide Gen, At, Has, SetStat, E1State, PtpThreshold, IsOffsetInRange, OverallState, Verdict;
    var reported := OverallState(servo, E1State(n, c));
    var once := Gen(n, c, ClockRealtime, offset, reported, OsClockState);
    var alias := if Has(once, c, Master) then At(once, c, Master).alias else "ptp-ha-enabled";
    var st := At(once, c, ClockRealtime).(alias := alias);
    CallAgain(n, c, st, offset, reported);
  }

  lemma CallAgain(n: Node, c: ConfigName, st: Stat, offset: Int64, reported: SyncState)
    requires OwnThreshold(n, c)
    requires
      var was := At(Gen(n, c, ClockRealtime, offset, reported, OsClockState), c, ClockRealtime);
      st.state == was.state && st.lastOffset == was.lastOffset
    ensures
      var once := Gen(n, c, ClockRealtime, offset, reported, OsClockState);
      SameOutcome(once, Gen(SetStat(once, c, ClockRealtime, st), c, ClockRealtime, offset, reported, OsClockState), c)
  {
    hide Gen, At, SetStat, PtpThreshold, IsOffsetInRange;
    var once := Gen(n, c, ClockRealtime, offset, reported, OsClockState);
    var named := SetStat(once, c, ClockRealtime, st);
    VerdictOfOwn(n, c, offset);
    VerdictOfOwn(named, c, offset);
    NoNews(named, c, offset, reported);
  }

  /** Without an entry of its own a profile is judged by whichever entry the map yields, so the
      two calls for one sample can lock CLOCK_REALTIME and let it fall again. */
  lemma BorrowedEntriesFlap(n: Node, c: ConfigName, p: Profile, q: Profile)
    requires ConfigOf(n, c).profile !in n.thresholds && p in n.thresholds && q in n.thresholds
    requires n.thresholds[p].max == 100 && n.thresholds[q].max == 10
    requires n.order(n.lookups) == p && n.order(n.lookups + 1) == q
    requires At(n, c, ClockRealtime).state == FreeRun
    ensures
      var one := Gen(n, c, ClockRealtime, 50, Locked, OsClockState);
      var two := Gen(one, c, ClockRealtime, 50, Locked, OsClockState);
      && At(one, c, ClockRealtime).state == Locked
      && At(two, c, ClockRealtime).state == FreeRun
  {
    hide Gen, At;
  }

  /** chronyd's lock report speaks for CLOCK_REALTIME alone. But if that was in holdover, it
      closes the channel of the profile's entry, and with it the holdover timer of the master,
      which stays in holdover with no timer to end it. */
  lemma ChronydStopsMasterTimer(n: Node, c: ConfigName, i: nat)
    requires ConfigOf(n, c).profile in n.thresholds && n.thresholds[ConfigOf(n, c).profile].max > 0
    requires i < |n.holdovers| && n.holdovers[i].status == Parked && n.holdovers[i].chan !in n.closed
    requires n.holdovers[i].chan == n.thresholds[ConfigOf(n, c).profile].close
    ensures
      var m := ChronydLine(n, c, Some(true));
      && At(m, c, ClockRealtime).state == Locked
      && At(m, c, Master) == At(n, c, Master)
      && (HoldoverFires(m, i) == m <==> At(n, c, ClockRealtime).state == Holdover)
  {
    hide Gen, SetStat, CheckSource;
    var checked := CheckSource(n, c, ClockRealtime, Chronyd);
    var owned := SetStat(checked, c, ClockRealtime, At(checked, c, ClockRealtime).(process := Chronyd));
    var t := PtpThreshold(owned, ConfigOf(owned, c).profile, false);
    assert IsOffsetInRange(0, t.max);
    var m := ChronydLine(n, c, Some(true));
    assert m.holdovers[i].chan !in m.closed ==> HoldoverFires(m, i).holdovers[i].status == Expiring;
  }

  // ----- Lines of a run

  lemma RunHasStates(r: Run, i: nat)
    requires IsRun(r) && i < |r.inputs|
    ensures i + 1 < |r.states|
  {
  }

  /** A line of a run that is not refused: the node in which it is handled, and what comes of it. */
  lemma LineStep(r: Run, i: nat, c: ConfigName, log: LogLine) returns (led: Node)
    requires IsRun(r) && i < |r.inputs| && r.inputs[i] == Line(c, log)
    requires !log.ProcessStatus? && Accepts(ConfigOf(r.states[i], c), log)
    ensures i + 1 < |r.states| && r.states[i + 1] == Dispatch(led, c, log)
    ensures
      var n := r.states[i];
      var source := if Has(n, c, Master) then At(n, c, Master).process else n.offsetSource;
      led == n.(stats := led.stats, offsetSource := source)
    ensures forall d, k :: At(led, d, k) == At(r.states[i], d, k) && (Has(led, d, k) <==> Has(r.states[i], d, k))
  {
    assert Follows(r, i);
    hide Init, Dispatch, Accepts, At, Has;
    var n := r.states[i];
    var m := n.(stats := n.stats[c := StatsOf(n.stats, c)]);
    SameEntries(n, c);
    led := if Has(m, c, Master) then m.(offsetSource := At(m, c, Master).process) else m;
    SameStats(m, led);
  }

  /** The lines of these configs are handled. */
  predicate Serves(n: Node, c: ConfigName) {
    var cfg := ConfigOf(n, c);
    cfg.profile != "" && (cfg.ports != [] || cfg.ha)
  }

  /** Those of others are refused, but for process status and SyncE lines, and chronyd's lines of a config
      with a profile; a refused line changes nothing but that the config has a place for stats. */
  lemma RefusedLine(r: Run, i: nat, c: ConfigName, log: LogLine)
    requires IsRun(r) && i < |r.inputs| && r.inputs[i] == Line(c, log)
    requires !Serves(r.states[i], c) && !log.ProcessStatus? && !log.SynceLog?
    requires log.ChronydStatus? ==> ConfigOf(r.states[i], c).profile == ""
    ensures
      var n := r.states[i];
      i + 1 < |r.states| && r.states[i + 1] == if c in n.stats then n else n.(stats := n.stats[c := map[]])
  {
    assert Follows(r, i);
    hide Init, Dispatch;
    var n := r.states[i];
    assert c in n.stats ==> n.stats[c := n.stats[c]] == n.stats;
  }

  lemma ServesAccepts(n: Node, c: ConfigName, log: LogLine)
    ensures Serves(n, c) ==> Accepts(ConfigOf(n, c), log)
  {
  }

  lemma DispatchesOffset(n: Node, c: ConfigName, log: LogLine)
    requires log.OffsetLog?
    ensures Dispatch(n, c, log) == OffsetSample(n, c, log.source, log.sample)
  {
    hide OffsetSample;
  }
}
