/** Which inputs touch CLOCK_REALTIME, the master, the grandmaster and the T-BC clock of a config. All
    others leave its state, its alias and its discipline machine as they are and add no entry about it to
    the trace. */
module Elsewhere {
  import opened SyncStates
  import opened Int64s
  import opened Options
  import opened OsClock
  import opened Engine
  import opened EventTrace
  import Statistics

  /** The clocks that this is about. */
  predicate Main(k: IFace) {
    k == ClockRealtime || k == Master || k == GmClock || k == TbcClock
  }

  predicate Touches(n: Node, input: Input, d: ConfigName, k: IFace) {
    match input
    case Line(c, log) => c == d && TouchedBy(n, log, k)
    case HoldoverRun(i) => k == Master && i < |n.holdovers| && n.holdovers[i].config == d
    case SettleFire(c, _) => c == d && k == ClockRealtime
    case SettleRun(c, _) => c == d && k == ClockRealtime
    case _ => false
  }

  /** A dead ts2phc silences all clocks but the master and CLOCK_REALTIME; any other dead process may let
      CLOCK_REALTIME fall, the T-BC clock of its ptp4l, and the master if its offsets come from there. */
  predicate TouchedBy(n: Node, log: LogLine, k: IFace) {
    match log
    case ProcessStatus(process, up) =>
      !up && match k {
        case Master => process != Ts2phc && process == n.offsetSource
        case TbcClock => process == Ts2phc || process == Ptp4l
        case ClockRealtime => process != Ts2phc
        case _ => process == Ts2phc
      }
    case GmStatus(_, _, _) => k == GmClock
    case TbcStatus(_, _, _) => k == TbcClock
    case ChronydStatus(_) => k == ClockRealtime
    case Phc2sysLog(line) => k == ClockRealtime || (k == Master && line.sample.Some? && line.sample.value.iface == k)
    case OffsetLog(_, sample) => (k == ClockRealtime || k == Master) && sample.iface == k
    case PortLog(_, _, _) => k == Master
    case SummaryLog(_, _) => k == Master
    case _ => false
  }

  /** An entry that speaks of this clock. */
  predicate About(e: Entry, d: ConfigName, k: IFace) {
    match e
    case Stored(config, key, _, _) => config == d && key == k
    case Published(kind, config, key, _, _) =>
      config == d && match kind {
        case PtpState => key == k
        case OsClockState => k == ClockRealtime
        case SyncStatus => false
      }
    case Silenced(config, keys) => config == d && k in keys
    case _ => false
  }

  ghost predicate Quiet(t: Trace, u: Trace, d: ConfigName, k: IFace) {
    t <= u && forall i :: |t| <= i < |u| ==> !About(u[i], d, k)
  }

  ghost predicate Unread(n: Node, m: Node, d: ConfigName, k: IFace) {
    && Quiet(n.trace, m.trace, d, k)
    && At(m, d, k).state == At(n, d, k).state && At(m, d, k).alias == At(n, d, k).alias
    && At(m, d, k).os == At(n, d, k).os
  }

  /** Nor do the state that overrules other processes, the leading process and the holdover timers change. */
  ghost predicate Apart(n: Node, m: Node, d: ConfigName, k: IFace) {
    Unread(n, m, d, k) && SameLead(n, m) && m.holdovers == n.holdovers
  }

  ghost predicate SameLead(n: Node, m: Node) {
    m.gmState == n.gmState && m.offsetSource == n.offsetSource
  }

  /** The same, but for new timers. */
  ghost predicate ApartButTimers(n: Node, m: Node, d: ConfigName, k: IFace) {
    Unread(n, m, d, k) && SameLead(n, m) && n.holdovers <= m.holdovers
  }

  lemma ApartThen(n: Node, m: Node, l: Node, d: ConfigName, k: IFace)
    requires Apart(n, m, d, k) && Apart(m, l, d, k)
    ensures Apart(n, l, d, k)
  {
    hide Unread;
    UnreadThen(n, m, l, d, k);
  }

  lemma UnreadThen(n: Node, m: Node, l: Node, d: ConfigName, k: IFace)
    requires Unread(n, m, d, k) && Unread(m, l, d, k)
    ensures Unread(n, l, d, k)
  {
    hide At, About;
    forall i | |n.trace| <= i < |l.trace| ensures !About(l.trace[i], d, k) {
      assert i < |m.trace| ==> l.trace[i] == m.trace[i];
    }
  }

  /** What such entries leave as it was: the events of a clock and the state it was left in. */
  lemma {:induction false} QuietReads(t: Trace, u: Trace, d: ConfigName, k: IFace)
    requires Quiet(t, u, d, k)
    ensures KeyEvents(u, d, k) == KeyEvents(t, d, k) && LastStored(u, d, k) == LastStored(t, d, k)
    decreases |u|
  {
    if |u| > |t| {
      var before, e := u[..|u| - 1], u[|u| - 1];
      assert u == before + [e];
      QuietReads(t, before, d, k);
    } else {
      assert u == t;
    }
  }

  // ----- Single changes

  lemma WriteApart(n: Node, m: Node, d: ConfigName, k: IFace)
    requires m.trace == n.trace && SameLead(n, m) && m.holdovers == n.holdovers
    requires At(m, d, k).state == At(n, d, k).state && At(m, d, k).alias == At(n, d, k).alias
    requires At(m, d, k).os == At(n, d, k).os
    ensures Apart(n, m, d, k)
  {
  }

  lemma SameUnread(n: Node, m: Node, d: ConfigName, k: IFace)
    requires m.trace == n.trace && At(m, d, k) == At(n, d, k)
    ensures Unread(n, m, d, k)
  {
  }

  lemma CheckApart(n: Node, c: ConfigName, j: IFace, process: Process, d: ConfigName, k: IFace)
    ensures Apart(n, CheckSource(n, c, j, process), d, k)
  {
    hide CheckSource;
  }

  lemma SetApart(n: Node, c: ConfigName, j: IFace, st: Stat, d: ConfigName, k: IFace)
    requires c == d && j == k ==>
      st.state == At(n, c, j).state && st.alias == At(n, c, j).alias && st.os == At(n, c, j).os
    ensures Apart(n, SetStat(n, c, j, st), d, k)
  {
    hide SetStat, At;
  }

  lemma OsApart(n: Node, c: ConfigName, op: Op, d: ConfigName, k: IFace)
    requires c != d || k != ClockRealtime
    ensures Apart(n, OnOsClock(n, c, op), d, k)
  {
    hide SetStat, At, Apply;
  }

  lemma AnnounceApart(n: Node, c: ConfigName, j: IFace, state: SyncState, offset: Int64, kind: EventKind,
                      publish: bool, d: ConfigName, k: IFace)
    requires (c != d || j != k) && state != Unset && (kind == PtpState || j == ClockRealtime)
    ensures Apart(n, Announce(n, c, j, state, offset, kind, publish), d, k)
  {
    hide Announce, At, Has, NodeState;
  }

  lemma GenApart(n: Node, c: ConfigName, j: IFace, offset: Int64, reported: SyncState, kind: EventKind,
                 d: ConfigName, k: IFace)
    requires (c != d || j != k) && (kind == PtpState || j == ClockRealtime)
    ensures Apart(n, Gen(n, c, j, offset, reported, kind), d, k)
  {
    hide Announce, At, Has, PtpThreshold, IsOffsetInRange, Record, Apart, KeepsOffset, AddsValue, Tell, Recovered;
    WriteApart(n, n, d, k);
    if reported != Unset {
      var t := PtpThreshold(n, ConfigOf(n, c).profile, false);
      var last := At(n, c, j).state;
      var inRange := IsOffsetInRange(offset, t.max);
      var next := NextState(last, reported, inRange);
      var m := Recovered(t, last, next);
      RecoveredApart(n, c, last, next, d, k);
      TellApart(m, c, j, next, offset, reported, kind, d, k);
      var told := Tell(m, c, j, next, offset, reported, kind);
      ApartThen(n, m, told, d, k);
      RecordApart(told, c, j, offset, AddsValue(last, reported, inRange, kind), d, k);
      ApartThen(n, told, Record(told, c, j, offset, AddsValue(last, reported, inRange, kind)), d, k);
    }
  }

  lemma TellApart(n: Node, c: ConfigName, j: IFace, next: SyncState, offset: Int64, reported: SyncState,
                  kind: EventKind, d: ConfigName, k: IFace)
    requires (c != d || j != k) && next != Unset && (kind == PtpState || j == ClockRealtime)
    ensures Apart(n, Tell(n, c, j, next, offset, reported, kind), d, k)
  {
    hide Announce, At, Apart, IsNews;
    WriteApart(n, n, d, k);
    AnnounceApart(n, c, j, next, offset, kind, IsNews(At(n, c, j).state, next, kind), d, k);
  }

  lemma RecoveredApart(n: Node, c: ConfigName, last: SyncState, next: SyncState, d: ConfigName, k: IFace)
    ensures
      var m := Recovered(PtpThreshold(n, ConfigOf(n, c).profile, false), last, next);
      Apart(n, m, d, k) && forall e, j :: At(m, e, j) == At(n, e, j)
  {
    hide PtpThreshold, At;
    ThresholdFrame(n, ConfigOf(n, c).profile, false);
    SameStats(n, Recovered(PtpThreshold(n, ConfigOf(n, c).profile, false), last, next));
  }

  lemma RecordApart(n: Node, c: ConfigName, j: IFace, offset: Int64, add: bool, d: ConfigName, k: IFace)
    ensures Apart(n, Record(n, c, j, offset, add), d, k)
  {
    hide Record, At;
  }

  // ----- Lines of phc2sys

  lemma SettleApart(n: Node, c: ConfigName, op: Op, d: ConfigName, k: IFace)
    requires c != d || k != ClockRealtime
    ensures Apart(n, Settle(n, c, op), d, k)
  {
    hide OnOsClock, Gen, Apart, Activates;
    var m := OnOsClock(n, c, op);
    OsApart(n, c, op, d, k);
    GenApart(m, c, ClockRealtime, FREE_RUN_OFFSET, FreeRun, OsClockState, d, k);
    ApartThen(n, m, Gen(m, c, ClockRealtime, FREE_RUN_OFFSET, FreeRun, OsClockState), d, k);
  }

  lemma SelectionApart(n: Node, c: ConfigName, l: Phc2sysLine, d: ConfigName, k: IFace)
    requires c != d || k != ClockRealtime
    ensures Apart(n, Selection(n, c, l), d, k)
  {
    hide OnOsClock, CheckSource, Settle, SelectedClock, Apart;
    var m := CheckSource(n, c, ClockRealtime, Phc2sys);
    CheckApart(n, c, ClockRealtime, Phc2sys, d, k);
    SettleApart(m, c, Finalise, d, k);
    ApartThen(n, m, Settle(m, c, Finalise), d, k);
    forall op ensures Apart(n, OnOsClock(m, c, op), d, k) {
      OsApart(m, c, op, d, k);
      ApartThen(n, m, OnOsClock(m, c, op), d, k);
    }
  }

  // ----- Offsets

  lemma RealtimeApart(n: Node, c: ConfigName, offset: Int64, servo: SyncState, d: ConfigName, k: IFace)
    requires c != d || k != ClockRealtime
    ensures Apart(n, RealtimeSample(n, c, offset, servo), d, k)
  {
    hide Gen, RealtimeSample, RealtimeTold, Apart;
    var reported, m := RealtimeFirst(n, c, offset, servo);
    GenApart(n, c, ClockRealtime, offset, reported, OsClockState, d, k);
    WriteApart(n, n, d, k);
    ToldApart(m, c, offset, reported, d, k);
    ApartThen(n, m, RealtimeTold(m, c, offset, reported), d, k);
  }

  /** What is reported, and the state after the first of two reports. */
  lemma RealtimeFirst(n: Node, c: ConfigName, offset: Int64, servo: SyncState) returns (reported: SyncState, m: Node)
    ensures m == n || m == Gen(n, c, ClockRealtime, offset, reported, OsClockState)
    ensures reported == OverallState(servo, E1State(n, c))
    ensures RealtimeSample(n, c, offset, servo) == RealtimeTold(m, c, offset, reported)
  {
    hide Gen, SetStat, At, Has, E1State, OverallState;
    reported := OverallState(servo, E1State(n, c));
    var twice := (Has(n, c, Master) && At(n, c, Master).role == Slave) || n.offsetSource == Ts2phc;
    m := if twice then Gen(n, c, ClockRealtime, offset, reported, OsClockState) else n;
  }

  /** The alias and the last report of a sample. */
  ghost function RealtimeTold(m: Node, c: ConfigName, offset: Int64, reported: SyncState): (r: Node) {
    var alias := if Has(m, c, Master) then At(m, c, Master).alias else "ptp-ha-enabled";
    var named := SetStat(m, c, ClockRealtime, At(m, c, ClockRealtime).(alias := alias));
    Gen(named, c, ClockRealtime, offset, reported, OsClockState)
  }

  lemma ToldApart(m: Node, c: ConfigName, offset: Int64, reported: SyncState, d: ConfigName, k: IFace)
    requires c != d || k != ClockRealtime
    ensures Apart(m, RealtimeTold(m, c, offset, reported), d, k)
  {
    hide Gen, SetStat, At, Has, Apart;
    var alias := if Has(m, c, Master) then At(m, c, Master).alias else "ptp-ha-enabled";
    var named := SetStat(m, c, ClockRealtime, At(m, c, ClockRealtime).(alias := alias));
    SetApart(m, c, ClockRealtime, At(m, c, ClockRealtime).(alias := alias), d, k);
    GenApart(named, c, ClockRealtime, offset, reported, OsClockState, d, k);
    ApartThen(m, named, RealtimeTold(m, c, offset, reported), d, k);
  }

  lemma MasterApart(n: Node, c: ConfigName, process: Process, offset: Int64, servo: Known, d: ConfigName, k: IFace)
    requires c != d || k != Master
    ensures Apart(n, MasterSample(n, c, process, offset, servo), d, k)
  {
    hide Gen, SetStat, At, Apart, Announce, SlaveName;
    var slave := if process == Ts2phc then "master" else SlaveName(ConfigOf(n, c).ports);
    WriteApart(n, n, d, k);
    if slave != "" {
      var named := SetStat(n, c, Master, At(n, c, Master).(alias := n.aliases(Port(slave))));
      var m := MasterState(named, c, offset, servo);
      SetApart(n, c, Master, At(n, c, Master).(alias := n.aliases(Port(slave))), d, k);
      GenApart(named, c, Master, offset, servo, PtpState, d, k);
      AnnounceApart(named, c, Master, servo, offset, PtpState, false, d, k);
      SetApart(m, c, Master, At(m, c, Master).(acc := Statistics.Add64(At(m, c, Master).acc, offset)), d, k);
      ApartThen(n, named, m, d, k);
      ApartThen(n, m, MasterSample(n, c, process, offset, servo), d, k);
    }
  }

  lemma InterfaceApart(n: Node, c: ConfigName, j: IFace, offset: Int64, servo: Known, d: ConfigName, k: IFace)
    requires Main(k) && j.Port?
    ensures Apart(n, InterfaceSample(n, c, j, offset, servo), d, k)
  {
    hide Gen, SetStat, At, Apart, TbcInterface;
    var named := SetStat(n, c, j, At(n, c, j).(alias := n.aliases(j)));
    SetApart(n, c, j, At(n, c, j).(alias := n.aliases(j)), d, k);
    GenApart(named, c, j, offset, servo, PtpState, d, k);
    TbcInterfaceApart(named, c, j, offset, servo, d, k);
    ApartThen(n, named, InterfaceSample(n, c, j, offset, servo), d, k);
  }

  lemma TbcInterfaceApart(n: Node, c: ConfigName, j: IFace, offset: Int64, servo: Known, d: ConfigName, k: IFace)
    requires Main(k) && j.Port?
    ensures Apart(n, TbcInterface(n, c, j, offset, servo), d, k)
  {
    hide At, Announce, Record, PtpThreshold, IsOffsetInRange, Apart;
    var t := PtpThreshold(n, ConfigOf(n, c).profile, false);
    var state := if servo != Holdover && !IsOffsetInRange(offset, t.max) then FreeRun else servo;
    var told := Announce(t.node, c, j, state, offset, PtpState, false);
    RecoveredApart(n, c, Unset, Unset, d, k);
    AnnounceApart(t.node, c, j, state, offset, PtpState, false, d, k);
    ApartThen(n, t.node, told, d, k);
    RecordApart(told, c, j, offset, true, d, k);
    ApartThen(n, told, Record(told, c, j, offset, true), d, k);
  }

  lemma LeadApart(n: Node, c: ConfigName, process: Process, d: ConfigName, k: IFace)
    ensures Apart(n, Lead(n, c, process), d, k)
  {
    hide At, SetStat, CheckSource, Apart;
    var m := CheckSource(n, c, Master, Ts2phc);
    CheckApart(n, c, Master, Ts2phc, d, k);
    SetApart(m, c, Master, At(m, c, Master).(process := Ts2phc), d, k);
    ApartThen(n, m, SetStat(m, c, Master, At(m, c, Master).(process := Ts2phc)), d, k);
    WriteApart(n, n, d, k);
  }

  lemma OffsetApart(n: Node, c: ConfigName, process: Process, s: Sample, d: ConfigName, k: IFace)
    requires Main(k) && (c == d && (k == Master || k == ClockRealtime) ==> s.iface != k)
    ensures Apart(n, OffsetSample(n, c, process, s), d, k)
  {
    hide At, SetStat, CheckSource, OnOsClock, Apart, SampleFor, Lead, Servo;
    var checked := CheckSource(n, c, ClockRealtime, Phc2sys);
    var cleared := if process == Phc2sys && s.iface == ClockRealtime
                   then OnOsClock(checked, c, ClearOnRealtimeOffset) else n;
    WriteApart(n, n, d, k);
    if process == Phc2sys && s.iface == ClockRealtime {
      CheckApart(n, c, ClockRealtime, Phc2sys, d, k);
      OsApart(checked, c, ClearOnRealtimeOffset, d, k);
      ApartThen(n, checked, OnOsClock(checked, c, ClearOnRealtimeOffset), d, k);
    }
    if process == Ts2phc || s.iface == Master || s.iface == ClockRealtime {
      var led := Lead(cleared, c, process);
      var known := CheckSource(led, c, s.iface, process);
      var m := SetStat(known, c, s.iface, At(known, c, s.iface).(process := process));
      LeadApart(cleared, c, process, d, k);
      ApartThen(n, cleared, led, d, k);
      CheckApart(led, c, s.iface, process, d, k);
      ApartThen(n, led, known, d, k);
      SetApart(known, c, s.iface, At(known, c, s.iface).(process := process), d, k);
      ApartThen(n, known, m, d, k);
      SampleApart(m, c, s.iface, process, s.offset, Servo(n, process, s.state), d, k);
      ApartThen(n, m, OffsetSample(n, c, process, s), d, k);
    }
  }

  lemma SampleApart(n: Node, c: ConfigName, j: SampledFace, process: Process, offset: Int64, servo: Known,
                    d: ConfigName, k: IFace)
    requires Main(k) && (c == d && (k == Master || k == ClockRealtime) ==> j != k)
    ensures Apart(n, SampleFor(n, c, j, process, offset, servo), d, k)
  {
    hide Apart, RealtimeSample, MasterSample, InterfaceSample;
    if j == ClockRealtime {
      RealtimeApart(n, c, offset, servo, d, k);
    } else if j == Master {
      MasterApart(n, c, process, offset, servo, d, k);
    } else {
      InterfaceApart(n, c, j, offset, servo, d, k);
    }
  }

  // ----- Status lines

  lemma DownApart(n: Node, c: ConfigName, process: Process, d: ConfigName, k: IFace)
    requires Main(k) && (c == d ==> !TouchedBy(n, ProcessStatus(process, false), k))
    ensures Apart(n, ProcessDown(n, c, process), d, k)
  {
    hide Apart, At, Has, TbcDown, MasterDown, RealtimeDown, Silence;
    if process == Ts2phc {
      SilenceApart(n, c, d, k);
    } else {
      var m := TbcDown(n, c, process);
      TbcDownApart(n, c, process, d, k);
      RealtimeDownApart(m, c, d, k);
      ApartThen(n, m, RealtimeDown(m, c), d, k);
      if n.offsetSource == process {
        var e1 := MasterDown(m, c);
        MasterDownApart(m, c, d, k);
        ApartThen(n, m, e1, d, k);
        RealtimeDownApart(e1, c, d, k);
        ApartThen(n, e1, RealtimeDown(e1, c), d, k);
      }
    }
  }

  lemma SilenceApart(n: Node, c: ConfigName, d: ConfigName, k: IFace)
    requires c != d || k == Master || k == ClockRealtime
    ensures Apart(n, Silence(n, c), d, k)
  {
  }

  lemma TbcDownApart(n: Node, c: ConfigName, process: Process, d: ConfigName, k: IFace)
    requires c != d || k != TbcClock || process != Ptp4l
    ensures Apart(n, TbcDown(n, c, process), d, k)
  {
    hide Gen, At;
    var noted := n.(trace := n.trace + [Died(c)]);
    SameStats(n, noted);
    if ConfigOf(n, c).ptype == Tbc && process == Ptp4l && At(n, c, TbcClock).alias != "" {
      GenApart(noted, c, TbcClock, FREE_RUN_OFFSET, FreeRun, PtpState, d, k);
      ApartThen(n, noted, TbcDown(n, c, process), d, k);
    }
  }

  lemma MasterDownApart(n: Node, c: ConfigName, d: ConfigName, k: IFace)
    requires c != d || k != Master
    ensures Apart(n, MasterDown(n, c), d, k)
  {
    hide Gen, At, Apart;
    GenApart(n, c, Master, FREE_RUN_OFFSET, FreeRun, PtpState, d, k);
    WriteApart(n, n, d, k);
  }

  lemma RealtimeDownApart(n: Node, c: ConfigName, d: ConfigName, k: IFace)
    requires c != d || k != ClockRealtime
    ensures Apart(n, RealtimeDown(n, c), d, k)
  {
    hide Gen, At, Apart, OptsOf;
    GenApart(n, c, ClockRealtime, FREE_RUN_OFFSET, FreeRun, OsClockState, d, k);
    WriteApart(n, n, d, k);
  }

  lemma StatusApart(n: Node, c: ConfigName, j: IFace, iface: string, state: SyncState, offset: Int64,
                    d: ConfigName, k: IFace)
    requires c != d || j != k
    ensures Unread(n, ClockStatus(n, c, j, iface, state, offset), d, k)
    ensures
      var m := ClockStatus(n, c, j, iface, state, offset);
      && m.holdovers == n.holdovers && m.offsetSource == n.offsetSource
      && (j != GmClock ==> m.gmState == n.gmState)
  {
    hide At, Has, SetStat, CheckSource, Record, Announce;
    var m := CheckSource(n, c, j, Ts2phc);
    var named := SetStat(m, c, j, At(m, c, j).(alias := n.aliases(Port(iface))));
    var noted := Record(named, c, j, offset, false);
    CheckApart(n, c, j, Ts2phc, d, k);
    if state != Unset {
      var told := Announce(noted, c, j, state, offset, PtpState, true);
      AnnounceApart(noted, c, j, state, offset, PtpState, true, d, k);
      SameStats(told, told.(gmState := state));
    }
  }

  lemma ChronydApart(n: Node, c: ConfigName, selected: Option<bool>, d: ConfigName, k: IFace)
    requires c != d || k != ClockRealtime
    ensures Apart(n, ChronydLine(n, c, selected), d, k)
  {
    hide At, SetStat, CheckSource, Gen, Apart;
    var m := CheckSource(n, c, ClockRealtime, Chronyd);
    var owned := SetStat(m, c, ClockRealtime, At(m, c, ClockRealtime).(process := Chronyd));
    CheckApart(n, c, ClockRealtime, Chronyd, d, k);
    SetApart(m, c, ClockRealtime, At(m, c, ClockRealtime).(process := Chronyd), d, k);
    ApartThen(n, m, owned, d, k);
    if selected.Some? {
      GenApart(owned, c, ClockRealtime, 0, if selected.value then Locked else FreeRun, OsClockState, d, k);
      ApartThen(n, owned, ChronydLine(n, c, selected), d, k);
    }
  }

  lemma DeviceApart(n: Node, c: ConfigName, iface: string, readable: bool, d: ConfigName, k: IFace)
    requires Main(k)
    ensures Apart(n, DeviceLine(n, c, iface, readable), d, k)
  {
    hide At, SetStat, CheckSource, Apart;
    var m := CheckSource(n, c, Port(iface), Ts2phc);
    CheckApart(n, c, Port(iface), Ts2phc, d, k);
    SetApart(m, c, Port(iface), At(m, c, Port(iface)).(alias := n.aliases(Port(iface))), d, k);
    ApartThen(n, m, SetStat(m, c, Port(iface), At(m, c, Port(iface)).(alias := n.aliases(Port(iface)))), d, k);
  }

  lemma SummaryApart(n: Node, c: ConfigName, source: Process, clock: Summary, d: ConfigName, k: IFace)
    requires c != d || k != Master
    ensures Apart(n, SummaryLine(n, c, source, clock), d, k)
  {
    hide SetStat, At, SlaveName;
  }

  // ----- Ports and holdover timers

  lemma ThenTimers(n: Node, m: Node, l: Node, d: ConfigName, k: IFace)
    requires Apart(n, m, d, k)
    ensures ApartButTimers(n, m, d, k)
    ensures ApartButTimers(m, l, d, k) ==> ApartButTimers(n, l, d, k)
  {
    hide Unread;
    if ApartButTimers(m, l, d, k) {
      UnreadThen(n, m, l, d, k);
    }
  }

  lemma PortApart(n: Node, c: ConfigName, id: nat, role: Role, fault: bool, d: ConfigName, k: IFace)
    requires c != d || k != Master
    ensures ApartButTimers(n, PortLine(n, c, id, role, fault), d, k)
  {
    hide Apart, ApartButTimers, Notice, SetRole, Fault, PortIndex, At;
    var l := PortLine(n, c, id, role, fault);
    var i := PortIndex(ConfigOf(n, c).ports, id);
    WriteApart(n, n, d, k);
    ThenTimers(n, n, l, d, k);
    if id != 0 && role != UnknownRole && i >= 0 {
      var last := ConfigOf(n, c).ports[i].role;
      var m := if role == Slave || n.offsetSource == Ts2phc then Notice(n, c, role) else n;
      NoticeApart(n, c, role, d, k);
      ThenTimers(n, m, l, d, k);
      if last == role || id <= |ConfigOf(n, c).ports| {
        NoticeFrame(n, c, role);
        var r := if last != role then SetRole(m, c, id - 1, role) else m;
        if last != role {
          RoleApart(m, c, id - 1, role, d, k);
          ApartThen(n, m, r, d, k);
        }
        FaultApart(r, c, role, fault, d, k);
        ThenTimers(n, r, l, d, k);
      }
    }
  }

  lemma NoticeApart(n: Node, c: ConfigName, role: Role, d: ConfigName, k: IFace)
    ensures Apart(n, Notice(n, c, role), d, k)
  {
    hide At, SetStat, CheckSource, Apart;
    var first := CheckSource(n, c, ClockRealtime, Phc2sys);
    var s := CheckSource(first, c, Master, n.offsetSource);
    CheckApart(n, c, ClockRealtime, Phc2sys, d, k);
    CheckApart(first, c, Master, n.offsetSource, d, k);
    ApartThen(n, first, s, d, k);
    SetApart(s, c, Master, At(s, c, Master).(role := role), d, k);
    ApartThen(n, s, Notice(n, c, role), d, k);
  }

  lemma RoleApart(n: Node, c: ConfigName, i: nat, role: Role, d: ConfigName, k: IFace)
    requires i < |ConfigOf(n, c).ports|
    ensures Apart(n, SetRole(n, c, i, role), d, k)
  {
    SameStats(n, SetRole(n, c, i, role));
  }

  lemma FaultApart(n: Node, c: ConfigName, role: Role, fault: bool, d: ConfigName, k: IFace)
    requires c != d || k != Master
    ensures ApartButTimers(n, Fault(n, c, role, fault), d, k)
  {
    hide Unread, At, Has, SetStat, Announce, StartHoldover;
    var st := At(n, c, Master);
    var f := SetStat(n, c, Master, st.(role := Faulty));
    var m := Announce(f, c, Master, Holdover, st.lastOffset, PtpState, true);
    WriteApart(n, n, d, k);
    AnnounceApart(n, c, Master, FreeRun, 0, PtpState, false, d, k);
    SetApart(n, c, Master, st.(role := Faulty), d, k);
    AnnounceApart(f, c, Master, Holdover, st.lastOffset, PtpState, true, d, k);
    ApartThen(n, f, m, d, k);
    StartApart(m, c, d, k);
    UnreadThen(n, m, StartHoldover(m, c), d, k);
  }

  lemma StartApart(n: Node, c: ConfigName, d: ConfigName, k: IFace)
    ensures ApartButTimers(n, StartHoldover(n, c), d, k)
  {
    hide PtpThreshold, At;
    ThresholdFrame(n, ConfigOf(n, c).profile, true);
    SameStats(n, StartHoldover(n, c));
  }

  /** Only this timer changes. */
  predicate OneTimer(n: Node, m: Node, i: nat) {
    |m.holdovers| == |n.holdovers| && forall j :: 0 <= j < |n.holdovers| && j != i ==> m.holdovers[j] == n.holdovers[j]
  }

  lemma RunsApart(n: Node, i: nat, d: ConfigName, k: IFace)
    requires k != Master || i >= |n.holdovers| || n.holdovers[i].config != d
    ensures
      var m := HoldoverRuns(n, i);
      Unread(n, m, d, k) && SameLead(n, m) && OneTimer(n, m, i)
  {
    hide Announce, At, Unread;
    WriteApart(n, n, d, k);
    if i < |n.holdovers| && n.holdovers[i].status == Expiring {
      var c := n.holdovers[i].config;
      var over := SetHoldover(n, i, Over);
      var m := over.(stats := n.stats[c := StatsOf(n.stats, c)]);
      TimerSet(n, i, Over, d, k);
      SameEntries(over, c);
      WriteApart(over, m, d, k);
      UnreadThen(n, over, m, d, k);
      var st := At(m, c, Master);
      if st.state == Holdover && st.alias != "" {
        var noted := m.(trace := m.trace + [Expired(c)]);
        ExpiredApart(m, c, d, k);
        UnreadThen(n, m, noted, d, k);
        AnnounceApart(noted, c, Master, FreeRun, st.lastOffset, PtpState, true, d, k);
        UnreadThen(n, noted, HoldoverRuns(n, i), d, k);
      }
    }
  }

  lemma TimerSet(n: Node, i: nat, status: Waiting, d: ConfigName, k: IFace)
    requires i < |n.holdovers|
    ensures Unread(n, SetHoldover(n, i, status), d, k)
  {
    SameStats(n, SetHoldover(n, i, status));
  }

  lemma ExpiredApart(n: Node, c: ConfigName, d: ConfigName, k: IFace)
    ensures Apart(n, n.(trace := n.trace + [Expired(c)]), d, k)
  {
    SameStats(n, n.(trace := n.trace + [Expired(c)]));
  }

  lemma FiresApart(n: Node, i: nat, d: ConfigName, k: IFace)
    ensures
      var m := HoldoverFires(n, i);
      Unread(n, m, d, k) && SameLead(n, m) && OneTimer(n, m, i)
  {
    SameStats(n, HoldoverFires(n, i));
  }

  // ----- One step

  lemma DispatchApart(n: Node, c: ConfigName, log: LogLine, d: ConfigName, k: IFace)
    requires Main(k) && (c == d ==> !TouchedBy(n, log, k))
    ensures
      var m := Dispatch(n, c, log);
      && Unread(n, m, d, k) && n.holdovers <= m.holdovers && m.offsetSource == n.offsetSource
      && (!log.GmStatus? ==> m.gmState == n.gmState)
      && (!log.PortLog? ==> m.holdovers == n.holdovers)
  {
    hide Unread, ProcessDown, ClockStatus, ChronydLine, Selection, OffsetSample, PortLine, DeviceLine, SummaryLine,
      CheckSource;
    WriteApart(n, n, d, k);
    match log
    case ProcessStatus(process, up) =>
      if !up {
        DownApart(n, c, process, d, k);
      }
    case GmStatus(iface, state, offset) => StatusApart(n, c, GmClock, iface, state, offset, d, k);
    case TbcStatus(iface, state, offset) => StatusApart(n, c, TbcClock, iface, state, offset, d, k);
    case ChronydStatus(selected) => ChronydApart(n, c, selected, d, k);
    case Phc2sysLog(line) =>
      SelectionApart(n, c, line, d, k);
      if line.sample.Some? {
        var m := Selection(n, c, line);
        OffsetApart(m, c, Phc2sys, line.sample.value, d, k);
        ApartThen(n, m, OffsetSample(m, c, Phc2sys, line.sample.value), d, k);
      }
    case OffsetLog(source, sample) => OffsetApart(n, c, source, sample, d, k);
    case PortLog(id, role, fault) => PortApart(n, c, id, role, fault, d, k);
    case DeviceLog(iface, readable) => DeviceApart(n, c, iface, readable, d, k);
    case SynceLog(device) => CheckApart(n, c, Port(device), Other("synce4l"), d, k);
    case ClassLog => CheckApart(n, c, MainClock(StatsOf(n.stats, c).Keys), Ptp4l, d, k);
    case SummaryLog(source, clock) => SummaryApart(n, c, source, clock, d, k);
  }

  predicate GmLine(input: Input) {
    input.Line? && input.log.GmStatus?
  }

  /** The line is handled, and its config has a master. */
  predicate Leads(n: Node, input: Input) {
    && input.Line? && !input.log.ProcessStatus? && Has(n, input.config, Master)
    && Accepts(ConfigOf(n, input.config), input.log)
  }

  predicate IsPortLine(input: Input) {
    input.Line? && input.log.PortLog?
  }

  /** Every other input. Of all inputs only a grandmaster's line changes the state that overrules
      other processes, only a line that is handled makes the process of its master lead, only a port line
      starts a timer, and only a timer moves itself on. */
  lemma StepApart(n: Node, input: Input, d: ConfigName, k: IFace)
    requires Main(k) && !Touches(n, input, d, k)
    ensures
      var m := Step(n, input);
      && Unread(n, m, d, k)
      && (!GmLine(input) ==> m.gmState == n.gmState)
      && m.offsetSource == (if Leads(n, input) then At(n, input.config, Master).process else n.offsetSource)
      && (input.HoldoverFire? || input.HoldoverRun? ==> OneTimer(n, m, input.timer))
      && (!input.HoldoverFire? && !input.HoldoverRun? ==> n.holdovers <= m.holdovers)
      && (!input.HoldoverFire? && !input.HoldoverRun? && !IsPortLine(input) ==> m.holdovers == n.holdovers)
  {
    hide Unread, Dispatch, At, Has, Settle, OnOsClock, HoldoverRuns, HoldoverFires, OneTimer;
    WriteApart(n, n, d, k);
    match input
    case Line(c, log) =>
      var m := n.(stats := n.stats[c := StatsOf(n.stats, c)]);
      var led := m.(offsetSource := At(m, c, Master).process);
      SameEntries(n, c);
      WriteApart(n, m, d, k);
      DispatchApart(m, c, log, d, k);
      UnreadThen(n, m, Dispatch(m, c, log), d, k);
      if !log.ProcessStatus? {
        SameStats(m, led);
        SameUnread(n, led, d, k);
        DispatchApart(led, c, log, d, k);
        UnreadThen(n, led, Dispatch(led, c, log), d, k);
      }
    case HoldoverFire(i) => FiresApart(n, i, d, k);
    case HoldoverRun(i) => RunsApart(n, i, d, k);
    case SettleFire(c, t) => OsApart(n, c, Fire(t), d, k);
    case SettleRun(c, t) => SettleApart(n, c, Callback(t), d, k);
  }
}
