/** What an event about a clock brings with it: the offset it carries, and the state of the node, by the keys of
    the stats that enter it. */
module NodeStatus {
  import opened SyncStates
  import opened Int64s
  import opened Options
  import opened OsClock
  import opened Engine
  import opened EventTrace
  import opened Aggregation
  import opened Elsewhere
  import opened Samples
  import opened StatusClocks
  import opened E1Clock
  import opened E3Clock
  import opened E3Table
  import opened Holdovers
  import opened PortLines
  import Statistics

  /** The offset that the last event about a clock carried. */
  function OffsetTold(t: Trace, c: ConfigName, k: IFace): (offset: Option<Int64>) {
    if t == [] then None
    else
      var e := t[|t| - 1];
      if e.Published? && e.kind != SyncStatus && e.config == c && e.key == k then Some(e.offset)
      else OffsetTold(t[..|t| - 1], c, k)
  }

  lemma ToldSnoc(t: Trace, e: Entry, c: ConfigName, k: IFace)
    ensures OffsetTold(t + [e], c, k)
         == if e.Published? && e.kind != SyncStatus && e.config == c && e.key == k then Some(e.offset)
            else OffsetTold(t, c, k)
  {
    assert (t + [e])[..|t|] == t;
  }

  /** An event about this clock with this state and offset is the last one about it, and the cached state of the
      node is the worst of its state and of what enters. Without an event both stay. */
  ghost predicate Tells(n: Node, m: Node, c: ConfigName, k: IFace, news: bool, state: SyncState, offset: Int64) {
    && (if news then IsNodeState(m.stats, state, m.lastOverall) else m.lastOverall == n.lastOverall)
    && OffsetTold(m.trace, c, k) == (if news then Some(offset) else OffsetTold(n.trace, c, k))
  }

  ghost predicate SameStates(n: Node, m: Node) {
    && (forall c, k :: Has(m, c, k) <==> Has(n, c, k))
    && (forall c, k :: At(m, c, k).state == At(n, c, k).state && At(m, c, k).process == At(n, c, k).process)
  }

  lemma SameNodeState(n: Node, m: Node, start: SyncState, worst: SyncState)
    requires SameStates(n, m) && IsNodeState(n.stats, start, worst)
    ensures IsNodeState(m.stats, start, worst)
  {
    SameEntering(n, m);
    hide EntersNode;
    forall c, k | c in m.stats && k in m.stats[c] && EntersNode(m.stats, c, k)
      ensures Rank(m.stats[c][k].state) <= Rank(worst)
    {
      assert Has(m, c, k) && Has(n, c, k) && At(m, c, k).state == At(n, c, k).state;
    }
    if worst != start {
      var c, k :| c in n.stats && k in n.stats[c] && EntersNode(n.stats, c, k) && n.stats[c][k].state == worst;
      assert Has(n, c, k) && Has(m, c, k) && At(m, c, k).state == At(n, c, k).state;
    }
  }

  lemma SameEntering(n: Node, m: Node)
    requires SameStates(n, m)
    ensures forall c, k :: Has(n, c, k) ==> (EntersNode(m.stats, c, k) <==> EntersNode(n.stats, c, k))
  {
    assert forall c, k :: Has(n, c, k) ==> Has(m, c, k);
    SameChronydOne(n, m);
    SameChronydOne(m, n);
    forall c, k | Has(n, c, k) ensures EntersNode(m.stats, c, k) <==> EntersNode(n.stats, c, k) {
      assert Has(m, c, GmClock) <==> Has(n, c, GmClock);
      assert Has(m, c, TbcClock) <==> Has(n, c, TbcClock);
      assert At(m, c, k).process == At(n, c, k).process;
    }
  }

  lemma SameChronydOne(n: Node, m: Node)
    requires SameStates(n, m)
    ensures SomeChronyd(n.stats) ==> SomeChronyd(m.stats)
  {
    if SomeChronyd(n.stats) {
      var d :| d in n.stats && ClockRealtime in n.stats[d]
               && n.stats[d][ClockRealtime].process == Chronyd && n.stats[d][ClockRealtime].state != Unset;
      assert Has(n, d, ClockRealtime) && Has(m, d, ClockRealtime);
      assert At(m, d, ClockRealtime).state == At(n, d, ClockRealtime).state;
      assert At(m, d, ClockRealtime).process == At(n, d, ClockRealtime).process;
    }
  }

  lemma AnnounceTells(n: Node, c: ConfigName, k: IFace, state: Known, offset: Int64, kind: EventKind, publish: bool)
    requires kind != SyncStatus
    ensures Tells(n, Announce(n, c, k, state, offset, kind, publish), c, k, publish, state, offset)
  {
    hide NodeState, IsNodeState, At, Announce, OffsetTold;
    var m := Announce(n, c, k, state, offset, kind, publish);
    var store, event := Stored(c, k, At(n, c, k).state, state), Published(kind, c, k, state, offset);
    var told := n.trace + [store] + [event];
    NodeStateByKey(m.stats, state);
    ToldSnoc(n.trace, store, c, k);
    ToldSnoc(n.trace + [store], event, c, k);
    if m.trace != n.trace + [store] && m.trace != told {
      assert m.trace == told + [m.trace[|told|]];
      ToldSnoc(told, m.trace[|told|], c, k);
    }
  }

  /** A report. */
  lemma GenTells(n: Node, c: ConfigName, k: IFace, offset: Int64, reported: Known, kind: EventKind)
    requires kind != SyncStatus && Has(n, c, k)
    ensures
      var m := Gen(n, c, k, offset, reported, kind);
      var was, now := At(n, c, k).state, At(m, c, k).state;
      Tells(n, m, c, k, now != was && !(was == Holdover && now == FreeRun && kind == PtpState), now, offset)
  {
    hide At, Has, PtpThreshold, IsOffsetInRange, Record, Recovered, IsNodeState, KeepsOffset, AddsValue, OffsetTold,
      Tell, SameStates;
    var t := PtpThreshold(n, ConfigOf(n, c).profile, false);
    var last := At(n, c, k).state;
    var next := NextState(last, reported, IsOffsetInRange(offset, t.max));
    var r := Recovered(t, last, next);
    RecoveredKeeps(n, c, last, next);
    TellTells(r, c, k, next, offset, reported, kind);
    var told := Tell(r, c, k, next, offset, reported, kind);
    var news := next != last && !(last == Holdover && next == FreeRun && kind == PtpState);
    forall add ensures Tells(r, Record(told, c, k, offset, add), c, k, news, next, offset) {
      RecordStates(told, c, k, offset, add);
      ThenTells(r, told, Record(told, c, k, offset, add), c, k, news, next, offset);
    }
  }

  lemma TellTells(n: Node, c: ConfigName, k: IFace, next: Known, offset: Int64, reported: Known, kind: EventKind)
    requires kind != SyncStatus
    ensures
      var last := At(n, c, k).state;
      Tells(n, Tell(n, c, k, next, offset, reported, kind), c, k,
            next != last && !(last == Holdover && next == FreeRun && kind == PtpState), next, offset)
  {
    hide At, Announce, IsNodeState, OffsetTold;
    AnnounceTells(n, c, k, next, offset, kind, IsNews(At(n, c, k).state, next, kind));
  }

  lemma RecoveredKeeps(n: Node, c: ConfigName, last: SyncState, next: SyncState)
    ensures
      var m := Recovered(PtpThreshold(n, ConfigOf(n, c).profile, false), last, next);
      && m.lastOverall == n.lastOverall && m.trace == n.trace
      && forall d, j :: At(m, d, j) == At(n, d, j) && (Has(m, d, j) <==> Has(n, d, j))
  {
    SameStats(n, Recovered(PtpThreshold(n, ConfigOf(n, c).profile, false), last, next));
  }

  lemma RecordStates(n: Node, c: ConfigName, k: IFace, offset: Int64, add: bool)
    requires Has(n, c, k)
    ensures
      var m := Record(n, c, k, offset, add);
      SameStates(n, m) && m.lastOverall == n.lastOverall && m.trace == n.trace
  {
    hide Record;
  }

  // ----- The lines of a run

  /** What differs only in the stats and keeps their states. */
  lemma ThenTells(n: Node, m: Node, l: Node, c: ConfigName, k: IFace, news: bool, state: SyncState, offset: Int64)
    requires Tells(n, m, c, k, news, state, offset)
    requires SameStates(m, l) && l.lastOverall == m.lastOverall
    requires OffsetTold(l.trace, c, k) == OffsetTold(m.trace, c, k)
    ensures Tells(n, l, c, k, news, state, offset)
  {
    hide SameStates, IsNodeState, OffsetTold;
    if news {
      SameNodeState(m, l, state, m.lastOverall);
    }
  }

  /** A status line of a grandmaster or a T-BC clock: if it adds an event, that carries the offset of the line, and
      the cached state of the node is then the worst of its state and of those that enter by key. */
  lemma StatusLineTells(r: Run, i: nat, c: ConfigName, log: LogLine, k: IFace)
    requires IsRun(r) && i < |r.inputs| && r.inputs[i] == Line(c, log) && IsStatus(log, k)
    ensures
      var n, m := r.states[i], r.states[i + 1];
      var news := Handled(n, c, log) && Told(log) != Unset && Told(log) != At(n, c, k).state;
      Tells(n, m, c, k, news, Told(log), OffsetSaid(log))
  {
    hide Init, Dispatch, ClockStatus, At, Has, Accepts, IsNodeState, OffsetTold;
    var n := r.states[i];
    RunHasStates(r, i);
    if Accepts(ConfigOf(n, c), log) {
      var led := LineStep(r, i, c, log);
      DispatchesStatus(led, c, log, k);
      StatusTells(led, c, k, log.iface, Told(log), OffsetSaid(log));
    } else {
      assert Follows(r, i);
    }
  }

  lemma StatusTells(n: Node, c: ConfigName, k: IFace, iface: string, state: SyncState, offset: Int64)
    requires k == GmClock || k == TbcClock
    ensures
      var m := ClockStatus(n, c, k, iface, state, offset);
      var handled := k == GmClock ==> Has(n, c, Port(iface));
      Tells(n, m, c, k, handled && state != Unset && state != At(n, c, k).state, state, offset)
  {
    hide SetStat, CheckSource, Record, Announce, IsNodeState, OffsetTold;
    var m := CheckSource(n, c, k, Ts2phc);
    var named := SetStat(m, c, k, At(m, c, k).(alias := n.aliases(Port(iface))));
    var noted := Record(named, c, k, offset, false);
    if state != Unset {
      AnnounceTells(noted, c, k, state, offset, PtpState, true);
    }
  }

  /** An offset of the master outside T-BC that moves E1. */
  lemma OffsetTells(r: Run, i: nat, c: ConfigName, source: Process, offset: Int64, state: Known, name: string)
    requires IsRun(r) && i < |r.inputs|
    requires r.inputs[i] == Line(c, OffsetLog(source, Sample(Master, offset, state)))
    requires Serves(r.states[i], c) && Speaks(r.states[i], c, source, name)
    requires ConfigOf(r.states[i], c).ptype != Tbc
    ensures
      var n, m := r.states[i], r.states[i + 1];
      var was, now := At(n, c, Master).state, At(m, c, Master).state;
      Tells(n, m, c, Master, now != was && !(was == Holdover && now == FreeRun), now, offset)
  {
    hide IsRun, Dispatch, At, Has, OffsetSample, MasterSample, Speaks, IsNodeState, OffsetTold;
    var log := OffsetLog(source, Sample(Master, offset, state));
    RunHasStates(r, i);
    var n, m := r.states[i], r.states[i + 1];
    var led := LineStep(r, i, c, log);
    DispatchesOffset(led, c, log);
    var owned := MasterLine(led, c, source, log.sample);
    NameIsSlaveName(n, c, source, name);
    MasterTells(owned, c, source, offset, Servo(led, source, state), name);
  }

  lemma MasterTells(n: Node, c: ConfigName, source: Process, offset: Int64, servo: Known, name: string)
    requires ConfigOf(n, c).ptype != Tbc && Has(n, c, Master)
    requires name != "" && name == if source == Ts2phc then "master" else SlaveName(ConfigOf(n, c).ports)
    ensures
      var m := MasterSample(n, c, source, offset, servo);
      var was, now := At(n, c, Master).state, At(m, c, Master).state;
      Tells(n, m, c, Master, now != was && !(was == Holdover && now == FreeRun), now, offset)
  {
    hide Gen, At, Has, SetStat, SlaveName, IsNodeState, OffsetTold, Statistics.Add64;
    var named := SetStat(n, c, Master, At(n, c, Master).(alias := n.aliases(Port(name))));
    var m := Gen(named, c, Master, offset, servo, PtpState);
    GenTells(named, c, Master, offset, servo, PtpState);
    var was, now := At(n, c, Master).state, At(m, c, Master).state;
    var l := MasterSample(n, c, source, offset, servo);
    ThenTells(named, m, l, c, Master, now != was && !(was == Holdover && now == FreeRun), now, offset);
  }

  /** An offset of CLOCK_REALTIME that adds an event or two. */
  lemma RealtimeTells(r: Run, i: nat, c: ConfigName, l: Phc2sysLine, offset: Int64, state: Known)
    requires IsRun(r) && i < |r.inputs| && r.inputs[i] == Line(c, Phc2sysLog(l)) && RealtimeLog(l, offset, state)
    requires Serves(r.states[i], c)
    ensures
      var n, m := r.states[i], r.states[i + 1];
      var news := E3Events(m.trace, c) != E3Events(n.trace, c);
      Tells(n, m, c, ClockRealtime, news, At(m, c, ClockRealtime).state, offset)
  {
    hide IsRun, Tells, Dispatch, At, Has, Bound, RealtimeSample, E3Events;
    var led := LineStep(r, i, c, Phc2sysLog(l));
    RunHasStates(r, i);
    var n, m := r.states[i], r.states[i + 1];
    var owned := RealtimeLine(led, c, l, offset, state);
    SampleTells(owned, c, offset, Servo(led, Phc2sys, state));
    SameTells(n, owned, m, c, ClockRealtime, E3Events(m.trace, c) != E3Events(n.trace, c),
              At(m, c, ClockRealtime).state, offset);
  }

  lemma SameTells(n: Node, before: Node, m: Node, c: ConfigName, k: IFace, news: bool, state: SyncState, offset: Int64)
    requires Tells(before, m, c, k, news, state, offset)
    requires before.lastOverall == n.lastOverall && before.trace == n.trace
    ensures Tells(n, m, c, k, news, state, offset)
  {
    hide IsNodeState, OffsetTold;
  }

  lemma SampleTells(n: Node, c: ConfigName, offset: Int64, servo: Known)
    requires Has(n, c, ClockRealtime)
    ensures
      var m := RealtimeSample(n, c, offset, servo);
      var news := E3Events(m.trace, c) != E3Events(n.trace, c);
      Tells(n, m, c, ClockRealtime, news, At(m, c, ClockRealtime).state, offset)
  {
    hide Gen, Tells, At, Has, Bound, E3Events, Within, MaxFound, MaxNext, RealtimeSample, RealtimeTold, SameStates,
      NextState, E1State, OverallState, Becomes;
    WorseIsKnown(servo, E1State(n, c));
    var reported, m := RealtimeFirst(n, c, offset, servo);
    var l := RealtimeTold(m, c, offset, reported);
    AgainTells(m, c, offset, reported);
    if m != n {
      GenBecomes(n, c, offset, reported);
      GenTells(n, c, ClockRealtime, offset, reported, OsClockState);
      ThenAgain(n, m, l, c, offset);
    } else {
      NewsIsChange(n, l, c, At(l, c, ClockRealtime).state);
    }
  }

  lemma WorseIsKnown(servo: Known, e1: SyncState)
    ensures OverallState(servo, e1) != Unset
  {
  }

  lemma NewsIsChange(n: Node, m: Node, c: ConfigName, s: SyncState)
    requires Becomes(n, m, c, s)
    ensures E3Events(m.trace, c) != E3Events(n.trace, c) <==> s != At(n, c, ClockRealtime).state
  {
  }

  /** Of two reports the last that changed the state tells. */
  lemma ThenAgain(n: Node, m: Node, l: Node, c: ConfigName, offset: Int64)
    requires
      var was, mid, now := At(n, c, ClockRealtime).state, At(m, c, ClockRealtime).state, At(l, c, ClockRealtime).state;
      && Becomes(n, m, c, mid) && Tells(n, m, c, ClockRealtime, mid != was, mid, offset)
      && Becomes(m, l, c, now) && Tells(m, l, c, ClockRealtime, now != mid, now, offset)
      && (now == mid ==> SameStates(m, l))
    ensures
      var news := E3Events(l.trace, c) != E3Events(n.trace, c);
      Tells(n, l, c, ClockRealtime, news, At(l, c, ClockRealtime).state, offset)
  {
    hide At, IsNodeState, OffsetTold, SameStates;
    var was, mid, now := At(n, c, ClockRealtime).state, At(m, c, ClockRealtime).state, At(l, c, ClockRealtime).state;
    if now == mid {
      ThenTells(n, m, l, c, ClockRealtime, mid != was, mid, offset);
    } else {
      assert |E3Events(l.trace, c)| > |E3Events(n.trace, c)|;
    }
  }

  /** The alias and the last report. */
  lemma AgainTells(m: Node, c: ConfigName, offset: Int64, reported: Known)
    requires Has(m, c, ClockRealtime)
    ensures
      var l := RealtimeTold(m, c, offset, reported);
      var was, now := At(m, c, ClockRealtime).state, At(l, c, ClockRealtime).state;
      && Tells(m, l, c, ClockRealtime, now != was, now, offset) && Becomes(m, l, c, now)
      && (now == was ==> SameStates(m, l))
  {
    hide Gen, Tells, SetStat, E3Events;
    var alias := if Has(m, c, Master) then At(m, c, Master).alias else "ptp-ha-enabled";
    var st := At(m, c, ClockRealtime).(alias := alias);
    var named, l := SetStat(m, c, ClockRealtime, st), RealtimeTold(m, c, offset, reported);
    GenBecomes(named, c, offset, reported);
    GenTells(named, c, ClockRealtime, offset, reported, OsClockState);
    SameTells(m, named, l, c, ClockRealtime, At(l, c, ClockRealtime).state != At(m, c, ClockRealtime).state,
              At(l, c, ClockRealtime).state, offset);
  }

  /** A port line that puts the master in holdover carries its last offset. */
  lemma PortLineTells(r: Run, i: nat, c: ConfigName, id: nat, role: Role, fault: bool, p: nat)
    requires IsRun(r) && i < |r.inputs| && r.inputs[i] == Line(c, PortLog(id, role, fault))
    requires Serves(r.states[i], c) && Notes(ConfigOf(r.states[i], c).ports, id, role, p)
    ensures
      var n, m := r.states[i], r.states[i + 1];
      var last, st := ConfigOf(n, c).ports[p].role, At(n, c, Master);
      var enters := ConfigOf(n, c).ptype != Tbc && LosesSlave(n, c, role, last) && fault && st.state != Holdover;
      Tells(n, m, c, Master, enters, Holdover, st.lastOffset)
  {
    hide IsRun, Dispatch, At, Has, PortLine, Notes, Noted, Fault, IsNodeState, OffsetTold, MovesRoles;
    RunHasStates(r, i);
    var n, m, log := r.states[i], r.states[i + 1], PortLog(id, role, fault);
    var led := LineStep(r, i, c, log);
    DispatchesPort(led, c, log);
    KnownPort(n, c, id, role, p);
    PortLineIs(led, c, id, role, fault, p);
    NotedMeans(led, c, id, role, p);
    FaultTells(Noted(led, c, id, role, p), c, role, fault);
  }

  lemma FaultTells(n: Node, c: ConfigName, role: Role, fault: bool)
    requires Has(n, c, Master) ==> At(n, c, Master).process == n.offsetSource
    ensures
      var m, st := Fault(n, c, role, fault), At(n, c, Master);
      var enters := ConfigOf(n, c).ptype != Tbc && Has(n, c, Master) && fault && st.state != Holdover;
      Tells(n, m, c, Master, enters, Holdover, st.lastOffset)
  {
    hide SetStat, Announce, At, Has, PtpThreshold, IsNodeState, OffsetTold;
    var st := At(n, c, Master);
    var f := SetStat(n, c, Master, st.(role := Faulty));
    var m := Announce(f, c, Master, Holdover, st.lastOffset, PtpState, true);
    AnnounceTells(n, c, Master, FreeRun, 0, PtpState, false);
    AnnounceTells(f, c, Master, Holdover, st.lastOffset, PtpState, true);
    ThresholdFrame(m, ConfigOf(m, c).profile, true);
  }

  /** So does the event of a timer that ends a holdover. */
  lemma TimerTells(r: Run, k: nat, t: nat)
    requires IsRun(r) && k < |r.inputs| && r.inputs[k] == HoldoverRun(t) && t < |r.states[k].holdovers|
    ensures
      var n, m, h := r.states[k], r.states[k + 1], r.states[k].holdovers[t];
      var st := At(n, h.config, Master);
      var ends := h.status == Expiring && st.state == Holdover && st.alias != "";
      Tells(n, m, h.config, Master, ends, FreeRun, st.lastOffset)
  {
    assert Follows(r, k);
    hide Init, At, Announce, IsNodeState, OffsetTold;
    var n, h := r.states[k], r.states[k].holdovers[t];
    if h.status == Expiring {
      var c := h.config;
      var over := SetHoldover(n, t, Over);
      var m := over.(stats := over.stats[c := StatsOf(over.stats, c)]);
      SameStats(n, over);
      SameEntries(over, c);
      var noted := m.(trace := m.trace + [Expired(c)]);
      SameStats(m, noted);
      ToldSnoc(m.trace, Expired(c), c, Master);
      AnnounceTells(noted, c, Master, FreeRun, At(m, c, Master).lastOffset, PtpState, true);
    }
  }
}
