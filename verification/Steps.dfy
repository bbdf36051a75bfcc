/** Every step of the engine keeps the invariant. */
module Steps {
  import opened SyncStates
  import opened Int64s
  import opened Options
  import opened OsClock
  import opened Engine
  import opened EventTrace
  import opened Channels
  import opened Invariant
  import Statistics

  // ----- Single writes

  lemma SetKeeps(n: Node, c: ConfigName, k: IFace, st: Stat, env: Env)
    requires Inv(n, env)
    requires st.state == At(n, c, k).state && st.os == At(n, c, k).os
    requires st.lastOffset == At(n, c, k).lastOffset || k == GmClock || k == TbcClock
    ensures Inv(SetStat(n, c, k, st), env)
  {
    hide SetStat, At, Has, Inv;
    QuietKeeps(n, SetStat(n, c, k, st), env);
  }

  lemma CheckKeeps(n: Node, c: ConfigName, k: IFace, process: Process, env: Env)
    requires Inv(n, env)
    ensures Inv(CheckSource(n, c, k, process), env)
  {
    hide CheckSource, SetStat, Inv;
    QuietKeeps(n, CheckSource(n, c, k, process), env);
  }

  lemma EnsureKeeps(n: Node, c: ConfigName, env: Env)
    requires Inv(n, env)
    ensures Inv(n.(stats := n.stats[c := StatsOf(n.stats, c)]), env)
  {
    hide Inv;
    QuietKeeps(n, n.(stats := n.stats[c := StatsOf(n.stats, c)]), env);
  }

  /** Entries about no clock of ours may be added to the trace. */
  lemma NoteKeeps(n: Node, e: Entry, env: Env)
    requires Inv(n, env) && (e.Expired? || e.Died?)
    ensures Core(n.(trace := n.trace + [e]), env)
  {
    hide At, Rooted, ClockOk, StreamsOk, Replay, ChanInv, RangeInv, WatchInv;
    var m := n.(trace := n.trace + [e]);
    NothingStored(n, m, env.watch);
    SameStats(n, m);
    AddRooted(n, e);
    Snoc(n.trace, e, "", Master, env.initial);
    forall c ensures ClockInv(m, c) && OsClockInv(m, c, env.foreign) {
      assert ClockInv(n, c) && OsClockInv(n, c, env.foreign);
      IdleKeepsClockOk(n.trace, e, c, At(n, c, ClockRealtime).state, At(n, c, Master).state);
      OtherKeepsStreams(n.trace, e, c, ConfigOf(n, c).ptype == Tbc);
    }
    ChannelsKept(n, m);
    RangeKept(n, m);
  }

  lemma AddRooted(n: Node, e: Entry)
    requires Rooted(n) && (e.Expired? || e.Died?)
    ensures Rooted(n.(trace := n.trace + [e]))
  {
    hide At, Anchored, LastStored;
    AnchorSnoc(n.trace, e);
    SameStats(n, n.(trace := n.trace + [e]));
  }

  /** What leaves the channels alone and stores no state keeps the watch. */
  lemma NothingStored(n: Node, m: Node, watch: Watch)
    requires WatchInv(n, watch) && SameChannels(n, m) && n.trace <= m.trace
    requires forall c :: SameConfig(n, m, c)
    requires forall i :: |n.trace| <= i < |m.trace| ==> !m.trace[i].Stored?
    ensures WatchInv(m, watch)
  {
    hide WatchInv, SameConfig, Since, Closing;
    if watch.Watch? {
      NothingCloses(n, m, watch.entry);
    }
    WatchKept(n, m, watch);
  }

  // ----- The discipline machine

  /** A call on the machine of a config; `exempt` when it may leave it undisciplined. */
  lemma OsCallKeeps(n: Node, c: ConfigName, op: Op, env: Env)
    requires Inv(n, env)
    requires op.Finalise? || op.Callback? ==> c in env.foreign
    ensures Inv(OnOsClock(n, c, op), env)
  {
    var m := OnOsClock(n, c, op);
    hide SetStat, At, Has, TraceInv, ChanInv, RangeInv, WatchInv, Judged, OsClockInv;
    SameTrace(n, m, env.initial);
    NothingStored(n, m, env.watch);
    ChannelsKept(n, m);
    RangeKept(n, m);
    forall d ensures OsClockInv(m, d, env.foreign) {
      assert OsClockInv(n, d, env.foreign);
      OsCallClock(n, c, op, d, env.foreign);
    }
  }

  lemma OsCallClock(n: Node, c: ConfigName, op: Op, d: ConfigName, foreign: set<ConfigName>)
    requires OsClockInv(n, d, foreign)
    requires op.Finalise? || op.Callback? ==> c in foreign
    ensures OsClockInv(OnOsClock(n, c, op), d, foreign)
  {
    hide SetStat, At, Has, Replay, Effect;
    var os := At(n, c, ClockRealtime).os;
    ReplaySnoc(os.log, op);
    OnlyFinaliseActivates(os, op);
  }

  lemma ReplaySnoc(ops: seq<Op>, op: Op)
    ensures Replay(ops + [op]) == Apply(Replay(ops), op)
    ensures Replay(ops).log == ops
  {
    ReplayOk(ops);
    assert (ops + [op])[..|ops|] == ops;
  }

  lemma OnlyFinaliseActivates(d: Discipline, op: Op)
    ensures !op.Finalise? && !op.Callback? && Apply(d, op).phase == Undisciplined ==> d.phase == Undisciplined
  {
  }

  lemma MoreForeign(n: Node, env: Env, c: ConfigName)
    requires Inv(n, env)
    ensures Inv(n, env.(foreign := env.foreign + {c}))
  {
    forall d ensures OsClockInv(n, d, env.foreign + {c}) {
      assert OsClockInv(n, d, env.foreign);
    }
  }

  lemma NotForeignAfterAll(n: Node, env: Env, c: ConfigName)
    requires Inv(n, env.(foreign := env.foreign + {c}))
    requires
      || At(n, c, ClockRealtime).os.phase != Undisciplined
      || At(n, c, ClockRealtime).state == FreeRun
      || c in env.foreign || ChronydOwns(n, c)
    ensures Inv(n, env)
  {
    forall d ensures OsClockInv(n, d, env.foreign) {
      assert OsClockInv(n, d, env.foreign + {c});
    }
  }

  /** Finalise or a settle callback with the FREERUN it may report. */
  lemma SettleKeeps(n: Node, c: ConfigName, op: Op, env: Env)
    requires Inv(n, env) && Has(n, c, ClockRealtime)
    requires op.Finalise? || op.Callback?
    ensures Inv(Settle(n, c, op), env)
  {
    hide Inv, SetStat, At, Effect, Gen;
    var wide := env.(foreign := env.foreign + {c});
    var os := At(n, c, ClockRealtime).os;
    var m := OnOsClock(n, c, op);
    MoreForeign(n, env, c);
    OsCallKeeps(n, c, op, wide);
    if Activates(os, op) {
      if Has(m, c, ClockRealtime) && !ChronydOwns(m, c) {
        GenKeeps(m, c, ClockRealtime, FREE_RUN_OFFSET, FreeRun, OsClockState, wide);
      }
    } else {
      UndisciplinedBefore(n, c, op, env);
    }
    NotForeignAfterAll(Settle(n, c, op), env, c);
  }

  lemma UndisciplinedBefore(n: Node, c: ConfigName, op: Op, env: Env)
    requires Inv(n, env) && !Activates(At(n, c, ClockRealtime).os, op)
    requires op.Finalise? || op.Callback?
    ensures
      var st := At(OnOsClock(n, c, op), c, ClockRealtime);
      st.os.phase != Undisciplined || st.state == FreeRun || c in env.foreign || ChronydOwns(n, c)
  {
    hide SetStat, At, TraceInv, ChanInv, RangeInv;
    assert OsClockInv(n, c, env.foreign);
  }

  lemma SelectionKeeps(n: Node, c: ConfigName, l: Phc2sysLine, env: Env)
    requires Inv(n, env)
    ensures Inv(Selection(n, c, l), env)
  {
    hide Inv, OnOsClock, CheckSource, Settle, SelectedClock;
    var m := CheckSource(n, c, ClockRealtime, Phc2sys);
    CheckKeeps(n, c, ClockRealtime, Phc2sys, env);
    OsCallKeeps(m, c, Begin, env);
    OsCallKeeps(m, c, Abort, env);
    OsCallKeeps(m, c, ReArm, env);
    OsCallKeeps(m, c, SinkClock, env);
    OsCallKeeps(m, c, SourceClock, env);
    SettleKeeps(m, c, Finalise, env);
  }

  lemma SelectionFrame(n: Node, c: ConfigName, l: Phc2sysLine)
    ensures
      var m := Selection(n, c, l);
      m.configs == n.configs && m.thresholds == n.thresholds && m.aliases == n.aliases
  {
    hide SetStat, At, Has, Apply, SelectedClock, Gen;
  }

  // ----- Offset samples

  lemma RealtimeKeeps(n: Node, c: ConfigName, offset: Int64, servo: SyncState, env: Env)
    requires Inv(n, env) && Watched(n, c, env)
    requires At(n, c, ClockRealtime).os.phase != Undisciplined || c in env.foreign || ChronydOwns(n, c)
    ensures Inv(RealtimeSample(n, c, offset, servo), env)
  {
    hide Inv, Gen, SetStat, At, Has, E1State, OverallState;
    var reported := OverallState(servo, E1State(n, c));
    GenKeeps(n, c, ClockRealtime, offset, reported, OsClockState, env);
    var twice := (Has(n, c, Master) && At(n, c, Master).role == Slave) || n.offsetSource == Ts2phc;
    var m := if twice then Gen(n, c, ClockRealtime, offset, reported, OsClockState) else n;
    var alias := if Has(m, c, Master) then At(m, c, Master).alias else "ptp-ha-enabled";
    var st := At(m, c, ClockRealtime).(alias := alias);
    SetKeeps(m, c, ClockRealtime, st, env);
    GenKeeps(SetStat(m, c, ClockRealtime, st), c, ClockRealtime, offset, reported, OsClockState, env);
  }

  lemma MasterKeeps(n: Node, c: ConfigName, process: Process, offset: Int64, servo: SyncState, env: Env)
    requires Inv(n, env) && Watched(n, c, env) && servo != Unset
    ensures Inv(MasterSample(n, c, process, offset, servo), env)
  {
    hide Inv, MasterState, SetStat, At, SlaveName;
    var slave := if process == Ts2phc then "master" else SlaveName(ConfigOf(n, c).ports);
    if slave != "" {
      var st := At(n, c, Master).(alias := n.aliases(Port(slave)));
      SetKeeps(n, c, Master, st, env);
      var named := SetStat(n, c, Master, st);
      MasterStateKeeps(named, c, offset, servo, env);
      var m := MasterState(named, c, offset, servo);
      SetKeeps(m, c, Master, At(m, c, Master).(acc := Statistics.Add64(At(m, c, Master).acc, offset)), env);
    }
  }

  lemma MasterStateKeeps(n: Node, c: ConfigName, offset: Int64, servo: SyncState, env: Env)
    requires Inv(n, env) && Watched(n, c, env) && servo != Unset
    ensures Inv(MasterState(n, c, offset, servo), env)
  {
    hide Inv, Gen, At, Announce;
    if ConfigOf(n, c).ptype != Tbc {
      GenKeeps(n, c, Master, offset, servo, PtpState, env);
    } else {
      AnnounceKeeps(n, c, Master, servo, offset, PtpState, false, env);
    }
  }

  lemma InterfaceKeeps(n: Node, c: ConfigName, k: IFace, offset: Int64, servo: SyncState, env: Env)
    requires Inv(n, env) && Watched(n, c, env) && servo != Unset && k.Port?
    ensures Inv(InterfaceSample(n, c, k, offset, servo), env)
  {
    hide Inv, Gen, SetStat, At, TbcInterface;
    var st := At(n, c, k).(alias := n.aliases(k));
    SetKeeps(n, c, k, st, env);
    var named := SetStat(n, c, k, st);
    if ConfigOf(n, c).ptype != Tbc {
      GenKeeps(named, c, k, offset, servo, PtpState, env);
    } else {
      TbcInterfaceKeeps(named, c, k, offset, servo, env);
    }
  }

  lemma TbcInterfaceKeeps(n: Node, c: ConfigName, k: IFace, offset: Int64, servo: SyncState, env: Env)
    requires Inv(n, env) && servo != Unset && k.Port? && ConfigOf(n, c).ptype == Tbc
    ensures Inv(TbcInterface(n, c, k, offset, servo), env)
  {
    hide Inv, At, IsOffsetInRange, PtpThreshold, OwnThreshold, MaxOffset, Announce, Record;
    var t := PtpThreshold(n, ConfigOf(n, c).profile, false);
    var state := if servo != Holdover && !IsOffsetInRange(offset, t.max) then FreeRun else servo;
    LookupKeeps(n, c, env);
    StoreInRange(t.node, c, k, state, offset, env);
  }

  /** A lookup changes nothing and finds the bound in force, where there is one. */
  lemma LookupKeeps(n: Node, c: ConfigName, env: Env)
    requires Inv(n, env)
    ensures
      var t := PtpThreshold(n, ConfigOf(n, c).profile, false);
      && Inv(t.node, env) && ConfigOf(t.node, c) == ConfigOf(n, c)
      && (OwnThreshold(t.node, c) ==> t.max == MaxOffset(t.node, c))
  {
    var t := PtpThreshold(n, ConfigOf(n, c).profile, false);
    assert OwnThreshold(n, c) ==> t.max == MaxOffset(n, c);
    ThresholdFrame(n, ConfigOf(n, c).profile, false);
    SameStats(n, t.node);
    hide Inv, At, PtpThreshold;
    QuietKeeps(n, t.node, env);
  }

  /** A state of an interface stored with its offset, which is in range if the state is locked. */
  lemma StoreInRange(n: Node, c: ConfigName, k: IFace, state: SyncState, offset: Int64, env: Env)
    requires Inv(n, env) && state != Unset && k.Port? && ConfigOf(n, c).ptype == Tbc
    requires state == Locked && OwnThreshold(n, c) ==> IsOffsetInRange(offset, MaxOffset(n, c))
    ensures Inv(Record(Announce(n, c, k, state, offset, PtpState, false), c, k, offset, true), env)
  {
    hide Announce, Record, At, TraceInv, ChanInv, Replay, IsOffsetInRange, OwnThreshold, MaxOffset, WatchInv;
    var told := Announce(n, c, k, state, offset, PtpState, false);
    var m := Record(told, c, k, offset, true);
    AnnounceWatch(n, c, k, state, offset, PtpState, false, env.watch);
    NothingStored(told, m, env.watch);
    AnnounceTrace(n, c, k, state, offset, PtpState, false, env.initial);
    SameTrace(told, m, env.initial);
    ChannelsKept(n, m);
    forall d ensures OsClockInv(m, d, env.foreign) {
      assert OsClockInv(n, d, env.foreign);
    }
    forall d, j ensures Ranged(m, d, j) {
      assert Ranged(n, d, j);
      SameThresholds(n, m, d);
    }
  }

  lemma SameThresholds(n: Node, m: Node, c: ConfigName)
    requires m.thresholds == n.thresholds && SameConfig(n, m, c)
    ensures OwnThreshold(m, c) == OwnThreshold(n, c) && MaxOffset(m, c) == MaxOffset(n, c)
  {
  }

  lemma OffsetKeeps(n: Node, c: ConfigName, process: Process, s: Sample, env: Env)
    requires Inv(n, env) && Watched(n, c, env)
    requires s.iface == ClockRealtime && process != Phc2sys ==> c in env.foreign
    ensures Inv(OffsetSample(n, c, process, s), env)
  {
    hide Inv, SetStat, CheckSource, OnOsClock, At, RealtimeSample, MasterSample, InterfaceSample;
    var checked := CheckSource(n, c, ClockRealtime, Phc2sys);
    var cleared := if process == Phc2sys && s.iface == ClockRealtime
                   then OnOsClock(checked, c, ClearOnRealtimeOffset) else n;
    CheckKeeps(n, c, ClockRealtime, Phc2sys, env);
    OsCallKeeps(checked, c, ClearOnRealtimeOffset, env);
    ClearedIsIdle(checked, c);
    if process == Ts2phc || s.iface == Master || s.iface == ClockRealtime {
      var led := Lead(cleared, c, process);
      LeadKeeps(cleared, c, process, env);
      var known := CheckSource(led, c, s.iface, process);
      CheckKeeps(led, c, s.iface, process, env);
      SetKeeps(known, c, s.iface, At(known, c, s.iface).(process := process), env);
      var m := SetStat(known, c, s.iface, At(known, c, s.iface).(process := process));
      var servo := Servo(n, process, s.state);
      match s.iface
      case ClockRealtime => RealtimeKeeps(m, c, s.offset, servo, env);
      case Master => MasterKeeps(m, c, process, s.offset, servo, env);
      case _ => InterfaceKeeps(m, c, s.iface, s.offset, servo, env);
    }
  }

  lemma ClearedIsIdle(n: Node, c: ConfigName)
    ensures
      var m := OnOsClock(n, c, ClearOnRealtimeOffset);
      m == n.(stats := m.stats) && At(m, c, ClockRealtime).os.phase == Idle
  {
    hide SetStat, At;
  }

  lemma LeadKeeps(n: Node, c: ConfigName, process: Process, env: Env)
    requires Inv(n, env)
    ensures Inv(Lead(n, c, process), env)
    ensures
      var m := Lead(n, c, process);
      m == n.(stats := m.stats) && At(m, c, ClockRealtime) == At(n, c, ClockRealtime)
  {
    hide Inv, SetStat, CheckSource, At;
    var m := CheckSource(n, c, Master, Ts2phc);
    CheckKeeps(n, c, Master, Ts2phc, env);
    SetKeeps(m, c, Master, At(m, c, Master).(process := Ts2phc), env);
  }

  // ----- Status lines

  lemma ProcessDownKeeps(n: Node, c: ConfigName, process: Process, env: Env)
    requires Inv(n, env)
    ensures Inv(ProcessDown(n, c, process), env)
  {
    hide Inv, At, Has, Silence, TbcDown, MasterDown, RealtimeDown;
    SilenceKeeps(n, c, env);
    TbcDownKeeps(n, c, process, env);
    var m := TbcDown(n, c, process);
    RealtimeDownKeeps(m, c, env);
    MasterDownKeeps(m, c, env);
    RealtimeDownKeeps(MasterDown(m, c), c, env);
  }

  lemma MasterDownKeeps(n: Node, c: ConfigName, env: Env)
    requires Inv(n, env)
    ensures Inv(MasterDown(n, c), env)
  {
    hide Inv, Gen, At;
    GenKeeps(n, c, Master, FREE_RUN_OFFSET, FreeRun, PtpState, env);
  }

  lemma RealtimeDownKeeps(n: Node, c: ConfigName, env: Env)
    requires Inv(n, env)
    ensures Inv(RealtimeDown(n, c), env)
  {
    hide Inv, Gen, At, OptsOf;
    GenKeeps(n, c, ClockRealtime, FREE_RUN_OFFSET, FreeRun, OsClockState, env);
  }

  lemma TbcDownKeeps(n: Node, c: ConfigName, process: Process, env: Env)
    requires Inv(n, env)
    ensures Inv(TbcDown(n, c, process), env)
  {
    hide Inv, Gen, At;
    TbcFallKeeps(n, c, env);
  }

  /** The death of ptp4l noted, and the T-BC clock in freerun, which is told unless it was in holdover. */
  lemma TbcFallKeeps(n: Node, c: ConfigName, env: Env)
    requires Inv(n, env)
    ensures Inv(Gen(n.(trace := n.trace + [Died(c)]), c, TbcClock, FREE_RUN_OFFSET, FreeRun, PtpState), env)
  {
    hide Gen, At, Has, Announce, Record, Inv, Core, PtpThreshold, MayAnnounce, EndsDied;
    var known := PtpThreshold(n, ConfigOf(n, c).profile, false).node;
    var last := At(n, c, TbcClock).state;
    LookupKeeps(n, c, env);
    FallIsTold(n, c);
    var m, news := Dying(n, c), last == Locked || last == Unset;
    NoteKeeps(known, Died(c), env);
    DiedMayBeAnnounced(n, c);
    AnnounceCore(m, c, TbcClock, FreeRun, FREE_RUN_OFFSET, PtpState, news, env);
    var told := Announce(m, c, TbcClock, FreeRun, FREE_RUN_OFFSET, PtpState, news);
    QuietKeeps(told, Record(told, c, TbcClock, FREE_RUN_OFFSET, true), env);
  }

  /** After the lookup, with the death noted. */
  function Dying(n: Node, c: ConfigName): (m: Node) {
    var known := PtpThreshold(n, ConfigOf(n, c).profile, false).node;
    known.(trace := known.trace + [Died(c)])
  }

  lemma DiedMayBeAnnounced(n: Node, c: ConfigName)
    ensures
      var last := At(n, c, TbcClock).state;
      MayAnnounce(Dying(n, c), c, TbcClock, FreeRun, PtpState, last == Locked || last == Unset)
  {
    hide At, PtpThreshold;
    ThresholdFrame(n, ConfigOf(n, c).profile, false);
    SameStats(n, Dying(n, c));
  }

  /** GenPTPEvent for that. */
  lemma FallIsTold(n: Node, c: ConfigName)
    ensures
      var m, last := Dying(n, c), At(n, c, TbcClock).state;
      var told := Announce(m, c, TbcClock, FreeRun, FREE_RUN_OFFSET, PtpState, last == Locked || last == Unset);
      Gen(n.(trace := n.trace + [Died(c)]), c, TbcClock, FREE_RUN_OFFSET, FreeRun, PtpState)
      == if last == Holdover then told else Record(told, c, TbcClock, FREE_RUN_OFFSET, true)
  {
    hide At, Has, Announce, Record, IsOffsetInRange;
    var noted := n.(trace := n.trace + [Died(c)]);
    SameStats(n, noted);
    SameStats(noted, Dying(n, c));
    assert PtpThreshold(noted, ConfigOf(n, c).profile, false).node == Dying(n, c);
  }

  lemma SilenceKeeps(n: Node, c: ConfigName, env: Env)
    requires Inv(n, env)
    ensures Inv(Silence(n, c), env)
  {
    var m := Silence(n, c);
    SilenceFrame(n, c);
    hide Silence, At, TraceInv, Replay, ChanInv, RangeInv, WatchInv;
    SilenceTrace(n, c, env.initial);
    NothingStored(n, m, env.watch);
    ChannelsKept(n, m);
    RangeKept(n, m);
    forall d ensures OsClockInv(m, d, env.foreign) {
      assert OsClockInv(n, d, env.foreign);
    }
  }

  lemma SilenceTrace(n: Node, c: ConfigName, initial: SyncState)
    requires TraceInv(n, initial)
    ensures TraceInv(Silence(n, c), initial)
  {
    var m := Silence(n, c);
    var e := m.trace[|n.trace|];
    SilenceFrame(n, c);
    hide Silence, At, ClockOk, StreamsOk, Anchored, LastStored;
    AnchorSnoc(n.trace, e);
    Snoc(n.trace, e, "", Master, initial);
    forall d ensures ClockInv(m, d) {
      assert ClockInv(n, d);
      IdleKeepsClockOk(n.trace, e, d, At(n, d, ClockRealtime).state, At(n, d, Master).state);
      OtherKeepsStreams(n.trace, e, d, ConfigOf(n, d).ptype == Tbc);
    }
  }

  lemma SilenceFrame(n: Node, c: ConfigName)
    ensures
      var m, keys := Silence(n, c), StatsOf(n.stats, c).Keys - {ClockRealtime, Master};
      && m == n.(stats := m.stats, trace := n.trace + [Silenced(c, keys)])
      && (forall d, k :: k == ClockRealtime || k == Master ==> At(m, d, k) == At(n, d, k))
      && (forall d, k :: At(m, d, k).state == if d == c && k in keys then FreeRun else At(n, d, k).state)
      && (forall d, k :: At(m, d, k).state == Locked ==> At(m, d, k) == At(n, d, k))
      && (forall d, k :: Has(m, d, k) <==> Has(n, d, k))
  {
  }

  lemma ClockStatusKeeps(n: Node, c: ConfigName, k: IFace, iface: string, state: SyncState, offset: Int64, env: Env)
    requires Inv(n, env) && (k == GmClock || k == TbcClock)
    ensures Inv(ClockStatus(n, c, k, iface, state, offset), env)
  {
    hide Inv, At, Has, SetStat, CheckSource, Record, Announce;
    var m := CheckSource(n, c, k, Ts2phc);
    CheckKeeps(n, c, k, Ts2phc, env);
    SetKeeps(m, c, k, At(m, c, k).(alias := n.aliases(Port(iface))), env);
    var named := SetStat(m, c, k, At(m, c, k).(alias := n.aliases(Port(iface))));
    if k != GmClock || Has(named, c, Port(iface)) {
      var noted := Record(named, c, k, offset, false);
      QuietKeeps(named, noted, env);
      if state != Unset && state != At(noted, c, k).state {
        ChangeMayBeAnnounced(noted, c, k, state, env);
        AnnounceKeeps(noted, c, k, state, offset, PtpState, true, env);
        GmStateKeeps(Announce(noted, c, k, state, offset, PtpState, true), state, env);
      }
    }
  }

  lemma ChangeMayBeAnnounced(n: Node, c: ConfigName, k: IFace, state: SyncState, env: Env)
    requires Inv(n, env) && (k == GmClock || k == TbcClock) && state != Unset && state != At(n, c, k).state
    ensures MayAnnounce(n, c, k, state, PtpState, true)
  {
    hide At, Core;
  }

  lemma GmStateKeeps(n: Node, state: SyncState, env: Env)
    requires Inv(n, env)
    ensures Inv(n.(gmState := state), env)
  {
    hide Inv, At;
    SameStats(n, n.(gmState := state));
    QuietKeeps(n, n.(gmState := state), env);
  }

  lemma ChronydKeeps(n: Node, c: ConfigName, selected: Option<bool>, env: Env)
    requires Inv(n, env) && Watched(n, c, env) && c in env.foreign
    ensures Inv(ChronydLine(n, c, selected), env)
  {
    hide Inv, At, SetStat, CheckSource, Gen;
    var m := CheckSource(n, c, ClockRealtime, Chronyd);
    CheckKeeps(n, c, ClockRealtime, Chronyd, env);
    SetKeeps(m, c, ClockRealtime, At(m, c, ClockRealtime).(process := Chronyd), env);
    if selected.Some? {
      var owned := SetStat(m, c, ClockRealtime, At(m, c, ClockRealtime).(process := Chronyd));
      GenKeeps(owned, c, ClockRealtime, 0, if selected.value then Locked else FreeRun, OsClockState, env);
    }
  }

  // ----- Lines that set up stats

  lemma DeviceKeeps(n: Node, c: ConfigName, iface: string, readable: bool, env: Env)
    requires Inv(n, env)
    ensures Inv(DeviceLine(n, c, iface, readable), env)
  {
    hide Inv, At, SetStat, CheckSource;
    var m := CheckSource(n, c, Port(iface), Ts2phc);
    CheckKeeps(n, c, Port(iface), Ts2phc, env);
    SetKeeps(m, c, Port(iface), At(m, c, Port(iface)).(alias := n.aliases(Port(iface))), env);
  }

  lemma SummaryKeeps(n: Node, c: ConfigName, source: Process, clock: Summary, env: Env)
    requires Inv(n, env)
    ensures Inv(SummaryLine(n, c, source, clock), env)
  {
    hide Inv, At, Has, SetStat, SlaveName;
    SetKeeps(n, c, Master, At(n, c, Master).(alias := n.aliases(Port(SlaveName(ConfigOf(n, c).ports)))), env);
    SetKeeps(n, c, Master, At(n, c, Master).(alias := n.aliases(Port(""))), env);
  }

  // ----- Ports and holdover timers

  lemma StartHoldoverKeeps(n: Node, c: ConfigName, env: Env)
    requires Inv(n, env)
    ensures Inv(StartHoldover(n, c), env)
  {
    var m := StartHoldover(n, c);
    SameStats(n, m);
    ThresholdMaxKept(n, c);
    hide TraceInv, At, ChanInv, Replay, OwnThreshold, MaxOffset, WatchInv;
    StartWatch(n, c, env.watch);
    SameTrace(n, m, env.initial);
    StartHoldoverChannels(n, c);
    forall d ensures OsClockInv(m, d, env.foreign) {
      assert OsClockInv(n, d, env.foreign);
    }
    forall d, k ensures Ranged(m, d, k) {
      assert Ranged(n, d, k);
    }
  }

  lemma StartWatch(n: Node, c: ConfigName, watch: Watch)
    requires WatchInv(n, watch) && ChanInv(n)
    ensures WatchInv(StartHoldover(n, c), watch)
  {
    hide WatchInv, StartHoldover, Since, TimerInv;
    if watch.Watch? {
      StartSince(n, c, watch.entry);
    }
    WatchKept(n, StartHoldover(n, c), watch);
  }

  lemma ThresholdMaxKept(n: Node, c: ConfigName)
    ensures
      var m := StartHoldover(n, c);
      && m == n.(lookups := m.lookups, nextChan := m.nextChan, closed := m.closed, thresholds := m.thresholds,
                 holdovers := m.holdovers)
      && forall d :: OwnThreshold(n, d) == OwnThreshold(m, d) && MaxOffset(n, d) == MaxOffset(m, d)
  {
  }

  lemma StartHoldoverChannels(n: Node, c: ConfigName)
    requires ChanInv(n)
    ensures ChanInv(StartHoldover(n, c))
  {
    var m := StartHoldover(n, c);
    var t := PtpThreshold(n, ConfigOf(n, c).profile, true);
    hide PtpThreshold, ConfigOf;
    ResetFrame(n, ConfigOf(n, c).profile);
    forall i | 0 <= i < |m.holdovers| ensures TimerInv(m, i) {
      assert i < |n.holdovers| ==> TimerInv(n, i);
    }
    forall i, j | 0 <= i < j < |m.holdovers| && SameEntry(m.holdovers[i], m.holdovers[j])
      ensures m.holdovers[i].chan in m.closed
    {
      assert TimerInv(n, i);
    }
  }

  /** A reset closes the old channel of the entry found and puts a new one in its place. */
  lemma ResetFrame(n: Node, profile: Profile)
    ensures
      var t := PtpThreshold(n, profile, true);
      && t.node.holdovers == n.holdovers && t.chan == n.nextChan && t.node.nextChan == n.nextChan + 1
      && (t.entry.None? ==> t.node.thresholds == n.thresholds && t.node.closed == n.closed)
      && (t.entry.Some? ==>
            && t.entry.value in n.thresholds
            && t.node.closed == n.closed + {n.thresholds[t.entry.value].close}
            && t.node.thresholds == n.thresholds[t.entry.value := n.thresholds[t.entry.value].(close := t.chan)])
  {
  }

  lemma StatusKeeps(n: Node, i: nat, status: Waiting, env: Env)
    requires Inv(n, env) && i < |n.holdovers|
    ensures Inv(SetHoldover(n, i, status), env)
  {
    var m := SetHoldover(n, i, status);
    SameStats(n, m);
    hide TraceInv, At, Replay, OwnThreshold, MaxOffset, WatchInv;
    StatusWatch(n, i, status, env.watch);
    SameTrace(n, m, env.initial);
    forall j | 0 <= j < |m.holdovers| ensures TimerInv(m, j) {
      assert TimerInv(n, j);
    }
    RangeKept(n, m);
    forall d ensures OsClockInv(m, d, env.foreign) {
      assert OsClockInv(n, d, env.foreign);
    }
  }

  lemma StatusWatch(n: Node, i: nat, status: Waiting, watch: Watch)
    requires WatchInv(n, watch) && i < |n.holdovers|
    ensures WatchInv(SetHoldover(n, i, status), watch)
  {
    hide WatchInv, SetHoldover, Since;
    if watch.Watch? {
      StatusSince(n, i, status, watch.entry);
    }
    WatchKept(n, SetHoldover(n, i, status), watch);
  }

  lemma HoldoverRunKeeps(n: Node, i: nat, env: Env)
    requires Inv(n, env)
    ensures Inv(HoldoverRuns(n, i), env)
  {
    hide Inv, Core, At, Announce, SetHoldover;
    if i < |n.holdovers| && n.holdovers[i].status == Expiring {
      var c := n.holdovers[i].config;
      var over := SetHoldover(n, i, Over);
      StatusKeeps(n, i, Over, env);
      SetHoldoverFrame(n, i, Over);
      EnsureKeeps(over, c, env);
      var m := over.(stats := n.stats[c := StatsOf(n.stats, c)]);
      var st := At(m, c, Master);
      if st.state == Holdover && st.alias != "" {
        NoteKeeps(m, Expired(c), env);
        var noted := m.(trace := m.trace + [Expired(c)]);
        SameStats(m, noted);
        AnnounceCore(noted, c, Master, FreeRun, st.lastOffset, PtpState, true, env);
      }
    }
  }

  lemma SetRoleKeeps(n: Node, c: ConfigName, i: nat, role: Role, env: Env)
    requires Inv(n, env) && i < |ConfigOf(n, c).ports|
    ensures Inv(SetRole(n, c, i, role), env)
    ensures forall d, k :: At(SetRole(n, c, i, role), d, k) == At(n, d, k)
    ensures forall d :: SameConfig(n, SetRole(n, c, i, role), d)
  {
    hide Inv, At;
    SameStats(n, SetRole(n, c, i, role));
    QuietKeeps(n, SetRole(n, c, i, role), env);
  }

  lemma NoticeKeeps(n: Node, c: ConfigName, role: Role, env: Env)
    requires Inv(n, env)
    ensures Inv(Notice(n, c, role), env)
  {
    hide Inv, At, SetStat, CheckSource;
    var first := CheckSource(n, c, ClockRealtime, Phc2sys);
    CheckKeeps(n, c, ClockRealtime, Phc2sys, env);
    CheckKeeps(first, c, Master, n.offsetSource, env);
    var s := CheckSource(first, c, Master, n.offsetSource);
    SetKeeps(s, c, Master, At(s, c, Master).(role := role), env);
  }

  lemma FaultKeeps(n: Node, c: ConfigName, role: Role, fault: bool, env: Env)
    requires Inv(n, env)
    ensures Inv(Fault(n, c, role, fault), env)
  {
    hide Inv, At, Has, SetStat, Announce, StartHoldover;
    if Has(n, c, Master) {
      var st := At(n, c, Master);
      if ConfigOf(n, c).ptype == Tbc {
        AnnounceKeeps(n, c, Master, FreeRun, 0, PtpState, false, env);
      } else if fault && st.state != Holdover {
        SetKeeps(n, c, Master, st.(role := Faulty), env);
        var f := SetStat(n, c, Master, st.(role := Faulty));
        AnnounceKeeps(f, c, Master, Holdover, st.lastOffset, PtpState, true, env);
        StartHoldoverKeeps(Announce(f, c, Master, Holdover, st.lastOffset, PtpState, true), c, env);
      }
    }
  }

  lemma PortKeeps(n: Node, c: ConfigName, id: nat, role: Role, fault: bool, env: Env)
    requires Inv(n, env)
    ensures Inv(PortLine(n, c, id, role, fault), env)
  {
    hide Inv, At, Has, Fault, SetRole, Notice, PortIndex;
    var i := PortIndex(ConfigOf(n, c).ports, id);
    if id != 0 && role != UnknownRole && i >= 0 {
      var last := ConfigOf(n, c).ports[i].role;
      NoticeKeeps(n, c, role, env);
      var m := if role == Slave || n.offsetSource == Ts2phc then Notice(n, c, role) else n;
      NoticeFrame(n, c, role);
      if last == role || id <= |ConfigOf(n, c).ports| {
        if last != role {
          SetRoleKeeps(m, c, id - 1, role, env);
        }
        FaultKeeps(if last != role then SetRole(m, c, id - 1, role) else m, c, role, fault, env);
      }
    }
  }

  // ----- A step, and a run

  /** Where another process reports the clock of the operating system, the config is foreign. */
  predicate Admitted(input: Input, foreign: set<ConfigName>) {
    input.Line? ==>
      && (input.log.ChronydStatus? ==> input.config in foreign)
      && (input.log.OffsetLog? && input.log.source != Phc2sys && input.log.sample.iface == ClockRealtime
          ==> input.config in foreign)
  }

  lemma DispatchKeeps(n: Node, c: ConfigName, log: LogLine, env: Env)
    requires Inv(n, env) && Admitted(Line(c, log), env.foreign)
    requires log.ProcessStatus? || log.SynceLog? || Watched(n, c, env)
    ensures Inv(Dispatch(n, c, log), env)
  {
    hide Inv, ProcessDown, ClockStatus, ChronydLine, Selection, OffsetSample, PortLine, DeviceLine, SummaryLine,
      CheckSource;
    match log
    case ProcessStatus(process, up) => ProcessDownKeeps(n, c, process, env);
    case GmStatus(iface, state, offset) => ClockStatusKeeps(n, c, GmClock, iface, state, offset, env);
    case TbcStatus(iface, state, offset) => ClockStatusKeeps(n, c, TbcClock, iface, state, offset, env);
    case ChronydStatus(selected) => ChronydKeeps(n, c, selected, env);
    case Phc2sysLog(line) =>
      SelectionKeeps(n, c, line, env);
      SelectionFrame(n, c, line);
      if line.sample.Some? {
        OffsetKeeps(Selection(n, c, line), c, Phc2sys, line.sample.value, env);
      }
    case OffsetLog(source, sample) => OffsetKeeps(n, c, source, sample, env);
    case PortLog(id, role, fault) => PortKeeps(n, c, id, role, fault, env);
    case DeviceLog(iface, readable) => DeviceKeeps(n, c, iface, readable, env);
    case SynceLog(device) => CheckKeeps(n, c, Port(device), Other("synce4l"), env);
    case ClassLog => CheckKeeps(n, c, MainClock(StatsOf(n.stats, c).Keys), Ptp4l, env);
    case SummaryLog(source, clock) => SummaryKeeps(n, c, source, clock, env);
  }

  /** validLogToProcess refuses the lines of configs without a profile. */
  lemma AcceptedIsWatched(n: Node, c: ConfigName, log: LogLine, env: Env)
    requires Inv(n, env)
    ensures Accepts(ConfigOf(n, c), log) ==> log.SynceLog? || Watched(n, c, env)
  {
    hide TraceInv, ChanInv, RangeInv, OsInv, Since;
    assert env.watch.Watch? ==> Keyed(n, c) || ConfigOf(n, c).profile == "";
  }

  lemma StepKeeps(n: Node, input: Input, env: Env)
    requires Inv(n, env) && Admitted(input, env.foreign)
    ensures Inv(Step(n, input), env)
  {
    hide Inv, Dispatch, At, Has, Settle, OnOsClock, HoldoverRuns, SetHoldover;
    match input
    case Line(c, log) =>
      var m := n.(stats := n.stats[c := StatsOf(n.stats, c)]);
      EnsureKeeps(n, c, env);
      AcceptedIsWatched(m, c, log, env);
      if log.ProcessStatus? || Accepts(ConfigOf(m, c), log) {
        DispatchKeeps(m, c, log, env);
        var led := m.(offsetSource := At(m, c, Master).process);
        SameStats(m, led);
        QuietKeeps(m, led, env);
        DispatchKeeps(led, c, log, env);
      }
    case HoldoverFire(i) =>
      if i < |n.holdovers| {
        StatusKeeps(n, i, Expiring, env);
      }
    case HoldoverRun(i) => HoldoverRunKeeps(n, i, env);
    case SettleFire(c, t) => OsCallKeeps(n, c, Fire(t), env);
    case SettleRun(c, t) =>
      if CallbackWaits(n, c, t) {
        SettleKeeps(n, c, Callback(t), env);
      }
  }

  /** Every run keeps the invariant, with any lines and timers interleaved. */
  lemma {:induction false} RunKeeps(r: Run, foreign: set<ConfigName>)
    requires IsRun(r) && forall i :: 0 <= i < |r.inputs| ==> Admitted(r.inputs[i], foreign)
    ensures Inv(End(r), Env(r.states[0].lastOverall, foreign, Nothing))
    decreases |r.inputs|
  {
    hide Inv, Step, Init;
    if r.inputs == [] {
      InitInv(r.states[0], foreign);
    } else {
      OneStepLess(r);
      RunKeeps(WithoutLast(r), foreign);
      StepKeeps(End(WithoutLast(r)), r.inputs[|r.inputs| - 1], Env(r.states[0].lastOverall, foreign, Nothing));
    }
  }
}
