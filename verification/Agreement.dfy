/** The cached state of the node against its recomputation. PublishEvent compares what it
    recomputes with lastOverallSyncState; for a node of ordinary and boundary clocks the two
    agree from the first event on, save after the one fall that publishes nothing. */
module Agreement {
  import opened SyncStates
  import opened Int64s
  import opened OsClock
  import opened Engine
  import opened EventTrace
  import Statistics

  /** The master falls from holdover to freerun. */
  predicate Fall(e: Entry) {
    e.Stored? && e.key == Master && e.was == Holdover && e.now == FreeRun
  }

  /** An event was published, and no fall came after the last one. */
  predicate Settled(t: Trace) {
    t != [] && (t[|t| - 1].Published? || (!Fall(t[|t| - 1]) && Settled(t[..|t| - 1])))
  }

  ghost function Worst(n: Node): (state: SyncState) {
    WorstOf(CountedStates(n.stats))
  }

  /** An ordinary or boundary clock without chronyd, whatever stats its interfaces have. */
  ghost predicate Ordinary(n: Node) {
    forall c, k :: OrdinaryClock(n, c, k)
  }

  predicate OrdinaryClock(n: Node, c: ConfigName, k: IFace) {
    && (Has(n, c, k) ==> k != GmClock && k != TbcClock)
    && At(n, c, ClockRealtime).process != Chronyd
    && ConfigOf(n, c).ptype == Plain
  }

  /** No line of chronyd, of a GM or T-BC, and no offset of ts2phc. */
  predicate OrdinaryInput(input: Input) {
    input.Line? ==>
      && !input.log.GmStatus? && !input.log.TbcStatus? && !input.log.ChronydStatus?
      && (input.log.OffsetLog? ==> input.log.source != Ts2phc && input.log.source != Chronyd)
  }

  ghost predicate Agreed(n: Node) {
    Ordinary(n) && (Settled(n.trace) ==> n.lastOverall == Worst(n) && n.lastOverall != Unset)
  }

  // ----- What the worst state depends on

  predicate Main(k: IFace) {
    k == ClockRealtime || k == Master
  }

  lemma OrdinaryCounts(n: Node, s: SyncState)
    requires Ordinary(n) && s != Unset
    ensures s in CountedStates(n.stats) <==> exists c, k :: Main(k) && At(n, c, k).state == s
  {
    OrdinaryHasNoChronyd(n);
    if c, k :| Main(k) && At(n, c, k).state == s {
      OrdinaryMainClock(n, c);
      assert OrdinaryClock(n, c, k);
      assert Counted(n.stats[c].Keys, false, k, n.stats[c][k]);
    }
    if s in CountedStates(n.stats) {
      var c, k :| c in n.stats && k in n.stats[c] && n.stats[c][k].state == s
                  && Counted(n.stats[c].Keys, false, k, n.stats[c][k]);
      OrdinaryMainClock(n, c);
      assert Main(k) && At(n, c, k).state == s;
    }
  }

  lemma OrdinaryHasNoChronyd(n: Node)
    requires Ordinary(n)
    ensures !ChronydActive(n.stats)
  {
    forall c | c in n.stats ensures !ChronydReports(n.stats[c]) {
      assert OrdinaryClock(n, c, ClockRealtime);
    }
  }

  lemma OrdinaryMainClock(n: Node, c: ConfigName)
    requires Ordinary(n) && c in n.stats
    ensures MainClock(n.stats[c].Keys) == Master
  {
    assert OrdinaryClock(n, c, GmClock) && OrdinaryClock(n, c, TbcClock);
  }

  lemma SameWorst(n: Node, m: Node)
    requires Ordinary(n) && Ordinary(m)
    requires forall c, k :: Main(k) ==> At(m, c, k).state == At(n, c, k).state
    ensures Worst(m) == Worst(n)
  {
    hide At, CountedStates, Ordinary;
    forall s | s != Unset ensures s in CountedStates(n.stats) <==> s in CountedStates(m.stats) {
      OrdinaryCounts(n, s);
      OrdinaryCounts(m, s);
      if c, k :| Main(k) && At(n, c, k).state == s {
        assert Main(k) && At(m, c, k).state == s;
      }
      if c, k :| Main(k) && At(m, c, k).state == s {
        assert Main(k) && At(n, c, k).state == s;
      }
    }
  }

  /** The stored state of a clock is no worse than the worst. */
  lemma WorstBounds(n: Node, c: ConfigName, k: IFace)
    requires Ordinary(n) && Main(k)
    ensures Rank(At(n, c, k).state) <= Rank(Worst(n))
  {
    hide At, CountedStates, Ordinary;
    if At(n, c, k).state != Unset {
      OrdinaryCounts(n, At(n, c, k).state);
    }
  }

  // ----- Steps that store no other state

  ghost predicate Steady(n: Node, m: Node) {
    && m.trace == n.trace && m.lastOverall == n.lastOverall
    && forall c, k :: SteadyClock(n, m, c, k)
  }

  predicate SteadyClock(n: Node, m: Node, c: ConfigName, k: IFace) {
    && (Main(k) ==> At(m, c, k).state == At(n, c, k).state)
    && (At(m, c, k).process == Chronyd ==> At(n, c, k).process == Chronyd || k != ClockRealtime)
    && (Has(m, c, k) ==> Has(n, c, k) || (k != GmClock && k != TbcClock))
    && (ConfigOf(m, c).ptype == ConfigOf(n, c).ptype)
  }

  lemma SteadyAgrees(n: Node, m: Node)
    requires Agreed(n) && Steady(n, m)
    ensures Agreed(m)
  {
    hide At, Has, CountedStates, Settled;
    forall c, k ensures OrdinaryClock(m, c, k) {
      assert OrdinaryClock(n, c, k) && SteadyClock(n, m, c, k) && SteadyClock(n, m, c, ClockRealtime);
    }
    forall c, k | Main(k) ensures At(m, c, k).state == At(n, c, k).state {
      assert SteadyClock(n, m, c, k);
    }
    SameWorst(n, m);
  }

  lemma SetAgrees(n: Node, c: ConfigName, k: IFace, st: Stat)
    requires Agreed(n) && k != GmClock && k != TbcClock
    requires st.state == At(n, c, k).state
    requires k == ClockRealtime && st.process == Chronyd ==> At(n, c, k).process == Chronyd
    ensures Agreed(SetStat(n, c, k, st))
  {
    hide SetStat, At, Has, Agreed;
    SteadyAgrees(n, SetStat(n, c, k, st));
  }

  lemma CheckAgrees(n: Node, c: ConfigName, k: IFace, process: Process)
    requires Agreed(n) && k != GmClock && k != TbcClock && (k == ClockRealtime ==> process != Chronyd)
    ensures Agreed(CheckSource(n, c, k, process))
  {
    hide CheckSource, Has, Agreed, SetStat;
    SteadyAgrees(n, CheckSource(n, c, k, process));
  }

  lemma EnsureAgrees(n: Node, c: ConfigName)
    requires Agreed(n)
    ensures Agreed(n.(stats := n.stats[c := StatsOf(n.stats, c)]))
  {
    hide Agreed;
    SteadyAgrees(n, n.(stats := n.stats[c := StatsOf(n.stats, c)]));
  }

  /** An entry that is neither an event nor a store. */
  lemma NoteAgrees(n: Node, e: Entry)
    requires Agreed(n) && (e.Expired? || e.Silenced?)
    ensures Agreed(n.(trace := n.trace + [e]))
  {
    hide At, CountedStates;
    var m := n.(trace := n.trace + [e]);
    assert m.trace[..|n.trace|] == n.trace;
    SameStats(n, m);
    forall c, k ensures OrdinaryClock(m, c, k) {
      assert OrdinaryClock(n, c, k);
    }
  }

  // ----- Stores and events

  lemma OsCallAgrees(n: Node, c: ConfigName, op: Op)
    requires Agreed(n)
    ensures Agreed(OnOsClock(n, c, op))
  {
    hide SetStat, At, Agreed, Apply;
    SetAgrees(n, c, ClockRealtime, At(n, c, ClockRealtime).(os := Apply(At(n, c, ClockRealtime).os, op)));
  }

  /** A state that is published, or stays as it was, or a master's fall. */
  lemma AnnounceAgrees(n: Node, c: ConfigName, k: IFace, state: SyncState, offset: Int64, kind: EventKind,
                       publish: bool)
    requires Agreed(n) && (k == ClockRealtime || k == Master) && state != Unset && kind != SyncStatus
    requires publish || state == At(n, c, k).state || (k == Master && At(n, c, k).state == Holdover && state == FreeRun)
    ensures Agreed(Announce(n, c, k, state, offset, kind, publish))
  {
    hide Announce, At, Has, CountedStates;
    var was := At(n, c, k).state;
    var m := Announce(n, c, k, state, offset, kind, publish);
    forall d, j ensures OrdinaryClock(m, d, j) {
      assert OrdinaryClock(n, d, j) && OrdinaryClock(n, d, ClockRealtime);
    }
    if publish {
      WorstBounds(m, c, k);
    } else {
      assert m.trace[..|n.trace|] == n.trace;
      if state == was {
        SameWorst(n, m);
      }
    }
  }

  lemma GenAgrees(n: Node, c: ConfigName, k: IFace, offset: Int64, reported: SyncState, kind: EventKind)
    requires Agreed(n)
    requires (k == ClockRealtime && kind == OsClockState) || (k == Master && kind == PtpState)
    ensures Agreed(Gen(n, c, k, offset, reported, kind))
  {
    hide Agreed, At, Has, PtpThreshold, IsOffsetInRange, Record, Announce, Recovered, KeepsOffset, AddsValue;
    if reported != Unset {
      var last := At(n, c, k).state;
      var t := PtpThreshold(n, ConfigOf(n, c).profile, false);
      var inRange := IsOffsetInRange(offset, t.max);
      var next := NextState(last, reported, inRange);
      var m := Recovered(t, last, next);
      RecoveredAgrees(n, c, last, next);
      if !(reported == Locked && next == last) {
        AnnounceAgrees(m, c, k, next, offset, kind, IsNews(last, next, kind));
      }
      var told := Tell(m, c, k, next, offset, reported, kind);
      RecordAgrees(told, c, k, offset, AddsValue(last, reported, inRange, kind));
    }
  }

  lemma RecoveredAgrees(n: Node, c: ConfigName, last: SyncState, next: SyncState)
    requires Agreed(n)
    ensures
      var m := Recovered(PtpThreshold(n, ConfigOf(n, c).profile, false), last, next);
      Agreed(m) && forall d, j :: At(m, d, j) == At(n, d, j)
  {
    hide Agreed, At, PtpThreshold;
    ThresholdFrame(n, ConfigOf(n, c).profile, false);
    var m := Recovered(PtpThreshold(n, ConfigOf(n, c).profile, false), last, next);
    SameStats(n, m);
    SteadyAgrees(n, m);
  }

  lemma RecordAgrees(n: Node, c: ConfigName, k: IFace, offset: Int64, add: bool)
    requires Agreed(n) && (k == ClockRealtime || k == Master)
    ensures Agreed(Record(n, c, k, offset, add))
  {
    hide Agreed, At, Has, Record;
    SteadyAgrees(n, Record(n, c, k, offset, add));
  }

  // ----- Lines

  lemma SettleAgrees(n: Node, c: ConfigName, op: Op)
    requires Agreed(n)
    ensures Agreed(Settle(n, c, op))
  {
    hide Agreed, OnOsClock, Gen, At, Activates;
    OsCallAgrees(n, c, op);
    GenAgrees(OnOsClock(n, c, op), c, ClockRealtime, FREE_RUN_OFFSET, FreeRun, OsClockState);
  }

  lemma SelectionAgrees(n: Node, c: ConfigName, l: Phc2sysLine)
    requires Agreed(n)
    ensures Agreed(Selection(n, c, l))
  {
    hide Agreed, OnOsClock, CheckSource, Settle, SelectedClock, At;
    var m := CheckSource(n, c, ClockRealtime, Phc2sys);
    CheckAgrees(n, c, ClockRealtime, Phc2sys);
    OsCallAgrees(m, c, Begin);
    OsCallAgrees(m, c, Abort);
    OsCallAgrees(m, c, ReArm);
    OsCallAgrees(m, c, SinkClock);
    OsCallAgrees(m, c, SourceClock);
    SettleAgrees(m, c, Finalise);
  }

  lemma RealtimeAgrees(n: Node, c: ConfigName, offset: Int64, servo: SyncState)
    requires Agreed(n)
    ensures Agreed(RealtimeSample(n, c, offset, servo))
  {
    hide Agreed, Gen, SetStat, At, Has, E1State, OverallState;
    var reported := OverallState(servo, E1State(n, c));
    GenAgrees(n, c, ClockRealtime, offset, reported, OsClockState);
    var twice := (Has(n, c, Master) && At(n, c, Master).role == Slave) || n.offsetSource == Ts2phc;
    var m := if twice then Gen(n, c, ClockRealtime, offset, reported, OsClockState) else n;
    var alias := if Has(m, c, Master) then At(m, c, Master).alias else "ptp-ha-enabled";
    var st := At(m, c, ClockRealtime).(alias := alias);
    SetAgrees(m, c, ClockRealtime, st);
    GenAgrees(SetStat(m, c, ClockRealtime, st), c, ClockRealtime, offset, reported, OsClockState);
  }

  lemma MasterAgrees(n: Node, c: ConfigName, process: Process, offset: Int64, servo: SyncState)
    requires Agreed(n)
    ensures Agreed(MasterSample(n, c, process, offset, servo))
  {
    hide Agreed, Gen, SetStat, At, Announce, SlaveName;
    var slave := if process == Ts2phc then "master" else SlaveName(ConfigOf(n, c).ports);
    PlainConfig(n, c);
    if slave != "" {
      var st := At(n, c, Master).(alias := n.aliases(Port(slave)));
      SetAgrees(n, c, Master, st);
      var named := SetStat(n, c, Master, st);
      GenAgrees(named, c, Master, offset, servo, PtpState);
      var m := Gen(named, c, Master, offset, servo, PtpState);
      SetAgrees(m, c, Master, At(m, c, Master).(acc := Statistics.Add64(At(m, c, Master).acc, offset)));
    }
  }

  lemma PlainConfig(n: Node, c: ConfigName)
    requires Agreed(n)
    ensures ConfigOf(n, c).ptype == Plain
  {
    assert OrdinaryClock(n, c, Master);
  }

  lemma OffsetAgrees(n: Node, c: ConfigName, process: Process, s: Sample)
    requires Agreed(n) && process != Ts2phc && process != Chronyd
    ensures Agreed(OffsetSample(n, c, process, s))
  {
    hide Agreed, SetStat, CheckSource, OnOsClock, At, Has, RealtimeSample, MasterSample, InterfaceSample;
    var checked := CheckSource(n, c, ClockRealtime, Phc2sys);
    var cleared := if process == Phc2sys && s.iface == ClockRealtime
                   then OnOsClock(checked, c, ClearOnRealtimeOffset) else n;
    CheckAgrees(n, c, ClockRealtime, Phc2sys);
    OsCallAgrees(checked, c, ClearOnRealtimeOffset);
    if s.iface == Master || s.iface == ClockRealtime {
      var known := CheckSource(cleared, c, s.iface, process);
      var st := At(known, c, s.iface).(process := process);
      CheckAgrees(cleared, c, s.iface, process);
      SetAgrees(known, c, s.iface, st);
      var servo := Servo(n, process, s.state);
      RealtimeAgrees(SetStat(known, c, s.iface, st), c, s.offset, servo);
      MasterAgrees(SetStat(known, c, s.iface, st), c, process, s.offset, servo);
    }
  }

  lemma ProcessDownAgrees(n: Node, c: ConfigName, process: Process)
    requires Agreed(n)
    ensures Agreed(ProcessDown(n, c, process))
  {
    hide Agreed, Gen, At, Has, Silence, OptsOf;
    PlainConfig(n, c);
    SilenceAgrees(n, c);
    GenAgrees(n, c, Master, FREE_RUN_OFFSET, FreeRun, PtpState);
    var e1 := if n.offsetSource == process && At(n, c, Master).alias != ""
              then Gen(n, c, Master, FREE_RUN_OFFSET, FreeRun, PtpState) else n;
    GenAgrees(e1, c, ClockRealtime, FREE_RUN_OFFSET, FreeRun, OsClockState);
  }

  lemma SilenceAgrees(n: Node, c: ConfigName)
    requires Agreed(n)
    ensures Agreed(Silence(n, c))
  {
    var m := Silence(n, c);
    var noted := n.(trace := m.trace);
    NoteAgrees(n, m.trace[|n.trace|]);
    forall d, k ensures SteadyClock(noted, m, d, k) {
      assert OrdinaryClock(n, d, k);
    }
    hide Agreed;
    SteadyAgrees(noted, m);
  }

  lemma DeviceAgrees(n: Node, c: ConfigName, iface: string, readable: bool)
    requires Agreed(n)
    ensures Agreed(DeviceLine(n, c, iface, readable))
  {
    hide Agreed, At, SetStat, CheckSource;
    var m := CheckSource(n, c, Port(iface), Ts2phc);
    CheckAgrees(n, c, Port(iface), Ts2phc);
    SetAgrees(m, c, Port(iface), At(m, c, Port(iface)).(alias := n.aliases(Port(iface))));
  }

  lemma ClassAgrees(n: Node, c: ConfigName)
    requires Agreed(n)
    ensures Agreed(ClassLine(n, c))
  {
    if c in n.stats {
      OrdinaryMainClock(n, c);
    }
    hide Agreed;
    CheckAgrees(n, c, Master, Ptp4l);
  }

  lemma SummaryAgrees(n: Node, c: ConfigName, source: Process, clock: Summary)
    requires Agreed(n)
    ensures Agreed(SummaryLine(n, c, source, clock))
  {
    hide Agreed, At, Has, SetStat, SlaveName;
    SetAgrees(n, c, Master, At(n, c, Master).(alias := n.aliases(Port(SlaveName(ConfigOf(n, c).ports)))));
    SetAgrees(n, c, Master, At(n, c, Master).(alias := n.aliases(Port(""))));
  }

  lemma FaultAgrees(n: Node, c: ConfigName, role: Role, fault: bool)
    requires Agreed(n)
    ensures Agreed(Fault(n, c, role, fault))
  {
    hide Agreed, At, Has, SetStat, Announce, StartHoldover;
    PlainConfig(n, c);
    var st := At(n, c, Master);
    if Has(n, c, Master) && fault && st.state != Holdover {
      SetAgrees(n, c, Master, st.(role := Faulty));
      var f := SetStat(n, c, Master, st.(role := Faulty));
      AnnounceAgrees(f, c, Master, Holdover, st.lastOffset, PtpState, true);
      StartHoldoverAgrees(Announce(f, c, Master, Holdover, st.lastOffset, PtpState, true), c);
    }
  }

  lemma StartHoldoverAgrees(n: Node, c: ConfigName)
    requires Agreed(n)
    ensures Agreed(StartHoldover(n, c))
  {
    hide Agreed, PtpThreshold;
    ThresholdFrame(n, ConfigOf(n, c).profile, true);
    SteadyAgrees(n, StartHoldover(n, c));
  }

  lemma PortAgrees(n: Node, c: ConfigName, id: nat, role: Role, fault: bool)
    requires Agreed(n)
    ensures Agreed(PortLine(n, c, id, role, fault))
  {
    hide Agreed, At, Has, Fault, SetRole, Notice, PortIndex;
    var i := PortIndex(ConfigOf(n, c).ports, id);
    if id != 0 && role != UnknownRole && i >= 0 {
      var last := ConfigOf(n, c).ports[i].role;
      NoticeAgrees(n, c, role);
      var m := if role == Slave || n.offsetSource == Ts2phc then Notice(n, c, role) else n;
      if last == role || id <= |ConfigOf(n, c).ports| {
        if last != role {
          SetRoleAgrees(m, c, id - 1, role);
        }
        FaultAgrees(if last != role then SetRole(m, c, id - 1, role) else m, c, role, fault);
      }
    }
  }

  lemma NoticeAgrees(n: Node, c: ConfigName, role: Role)
    requires Agreed(n)
    ensures Agreed(Notice(n, c, role)) && ConfigOf(Notice(n, c, role), c) == ConfigOf(n, c)
  {
    hide Agreed, At, SetStat, CheckSource;
    var first := CheckSource(n, c, ClockRealtime, Phc2sys);
    var s := CheckSource(first, c, Master, n.offsetSource);
    CheckAgrees(n, c, ClockRealtime, Phc2sys);
    CheckAgrees(first, c, Master, n.offsetSource);
    SetAgrees(s, c, Master, At(s, c, Master).(role := role));
  }

  lemma SetRoleAgrees(n: Node, c: ConfigName, i: nat, role: Role)
    requires Agreed(n) && i < |ConfigOf(n, c).ports|
    ensures Agreed(SetRole(n, c, i, role))
  {
    hide Agreed, At;
    SameStats(n, SetRole(n, c, i, role));
    SteadyAgrees(n, SetRole(n, c, i, role));
  }

  // ----- A step, and a run

  lemma HoldoverAgrees(n: Node, i: nat)
    requires Agreed(n)
    ensures Agreed(HoldoverFires(n, i)) && Agreed(HoldoverRuns(n, i))
  {
    hide Agreed, Announce;
    if i < |n.holdovers| {
      SteadyAgrees(n, HoldoverFires(n, i));
      var c := n.holdovers[i].config;
      var over := SetHoldover(n, i, Over);
      SteadyAgrees(n, over);
      EnsureAgrees(over, c);
      var m := over.(stats := n.stats[c := StatsOf(n.stats, c)]);
      NoteAgrees(m, Expired(c));
      var noted := m.(trace := m.trace + [Expired(c)]);
      AnnounceAgrees(noted, c, Master, FreeRun, At(m, c, Master).lastOffset, PtpState, true);
    }
  }

  lemma DispatchAgrees(n: Node, c: ConfigName, log: LogLine)
    requires Agreed(n) && OrdinaryInput(Line(c, log))
    ensures Agreed(Dispatch(n, c, log))
  {
    hide Agreed, ProcessDown, Selection, OffsetSample, PortLine, DeviceLine, ClassLine, SummaryLine, CheckSource;
    match log
    case ProcessStatus(process, up) => ProcessDownAgrees(n, c, process);
    case Phc2sysLog(line) =>
      SelectionAgrees(n, c, line);
      if line.sample.Some? {
        OffsetAgrees(Selection(n, c, line), c, Phc2sys, line.sample.value);
      }
    case OffsetLog(source, sample) => OffsetAgrees(n, c, source, sample);
    case PortLog(id, role, fault) => PortAgrees(n, c, id, role, fault);
    case DeviceLog(iface, readable) => DeviceAgrees(n, c, iface, readable);
    case SynceLog(device) => CheckAgrees(n, c, Port(device), Other("synce4l"));
    case ClassLog => ClassAgrees(n, c);
    case SummaryLog(source, clock) => SummaryAgrees(n, c, source, clock);
  }

  lemma StepAgrees(n: Node, input: Input)
    requires Agreed(n) && OrdinaryInput(input)
    ensures Agreed(Step(n, input))
  {
    hide Agreed, Dispatch, At, Has, Settle, OnOsClock, HoldoverRuns, HoldoverFires;
    match input
    case Line(c, log) =>
      var m := n.(stats := n.stats[c := StatsOf(n.stats, c)]);
      EnsureAgrees(n, c);
      DispatchAgrees(m, c, log);
      var led := m.(offsetSource := At(m, c, Master).process);
      SameStats(m, led);
      SteadyAgrees(m, led);
      DispatchAgrees(led, c, log);
    case HoldoverFire(i) => HoldoverAgrees(n, i);
    case HoldoverRun(i) => HoldoverAgrees(n, i);
    case SettleFire(c, t) => OsCallAgrees(n, c, Fire(t));
    case SettleRun(c, t) => SettleAgrees(n, c, Callback(t));
  }

  ghost predicate OrdinaryRun(r: Run) {
    && IsRun(r)
    && (forall c :: ConfigOf(r.states[0], c).ptype == Plain)
    && forall i :: 0 <= i < |r.inputs| ==> OrdinaryInput(r.inputs[i])
  }

  lemma {:induction false} RunAgrees(r: Run)
    requires OrdinaryRun(r)
    ensures Agreed(End(r))
    decreases |r.inputs|
  {
    if r.inputs != [] {
      hide Step, Agreed, Init;
      OneStepLess(r);
      RunAgrees(WithoutLast(r));
      StepAgrees(End(WithoutLast(r)), r.inputs[|r.inputs| - 1]);
    }
  }

  /** From the first event on, and save between a fall and the next event, the cached state is
      what GetNodeSyncState recomputes, which is the worst of the stored states. */
  lemma CacheAgrees(r: Run)
    requires OrdinaryRun(r) && Settled(End(r).trace)
    ensures End(r).lastOverall == WorstOf(CountedStates(End(r).stats)) == NodeState(End(r).stats, Locked)
  {
    hide Ordinary, CountedStates, Init, OrdinaryRun;
    RunAgrees(r);
  }

  /** The exception is one: a fall leaves the cache behind exactly when it did not say freerun. */
  lemma FallLeavesCacheBehind(n: Node, c: ConfigName, offset: Int64)
    requires Agreed(n) && At(n, c, Master).state == Holdover
    ensures
      var m := Gen(n, c, Master, offset, FreeRun, PtpState);
      && Worst(m) == FreeRun
      && (m.lastOverall == Worst(m) <==> n.lastOverall == FreeRun)
  {
    hide At, Has, PtpThreshold, IsOffsetInRange, CountedStates, Agreed, Ordinary;
    var m := Gen(n, c, Master, offset, FreeRun, PtpState);
    GenAgrees(n, c, Master, offset, FreeRun, PtpState);
    OrdinaryAgain(m);
    WorstBounds(m, c, Master);
    ThresholdFrame(n, ConfigOf(n, c).profile, false);
    SameStats(n, PtpThreshold(n, ConfigOf(n, c).profile, false).node);
  }

  lemma OrdinaryAgain(n: Node)
    requires Agreed(n)
    ensures Ordinary(n)
  {
  }
}
