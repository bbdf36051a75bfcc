/** How E1 of an ordinary clock, the state of its master, moves with the offsets of the master and with
    the death of the process they come from; and how the interfaces of ts2phc move with theirs. */
module E1Clock {
  import opened SyncStates
  import opened Int64s
  import opened Options
  import opened Engine
  import opened EventTrace
  import opened Elsewhere
  import opened Samples
  import opened StatusClocks
  import Statistics

  /** A report for a clock is told exactly if it changes the state, but for a fall out of a holdover. */
  lemma GenAdds(n: Node, c: ConfigName, k: IFace, offset: Int64, reported: Known)
    ensures
      var m := Gen(n, c, k, offset, reported, PtpState);
      var was, now := At(n, c, k).state, At(m, c, k).state;
      Adds(n, m, c, k, if now == was || (was == Holdover && now == FreeRun) then [] else [now])
  {
    hide Announce, At, Has, NodeState, PtpThreshold, IsOffsetInRange, Record, KeepsOffset, AddsValue, KeyEvents;
    var t := PtpThreshold(n, ConfigOf(n, c).profile, false);
    var last := At(n, c, k).state;
    var next := NextState(last, reported, IsOffsetInRange(offset, t.max));
    var r := Recovered(t, last, next);
    ThresholdFrame(n, ConfigOf(n, c).profile, false);
    SameStats(n, r);
    AnnounceAdds(r, c, k, next, offset, IsNews(last, next, PtpState));
  }

  // ----- The process that leads

  /** The line is handled: its config has a profile and a port or HA, but for a line of chronyd, which needs no
      port, and one of SyncE, which needs nothing. Process status is handled apart. */
  predicate IsHandled(n: Node, input: Input) {
    && input.Line? && !input.log.ProcessStatus?
    && var cfg := ConfigOf(n, input.config);
       || input.log.SynceLog?
       || (cfg.profile != "" && (cfg.ports != [] || cfg.ha || input.log.ChronydStatus?))
  }

  /** In every run the process that leads the node is that of the master whose config had a line handled last:
      nothing else changes it. */
  lemma LeaderMoves(r: Run, i: nat)
    requires IsRun(r) && i < |r.inputs|
    ensures
      var n, input := r.states[i], r.inputs[i];
      r.states[i + 1].offsetSource
      == if IsHandled(n, input) && Has(n, input.config, Master) then At(n, input.config, Master).process
         else n.offsetSource
  {
    assert Follows(r, i);
    hide Init, Step, At, Has, Unread, OneTimer;
    var input := r.inputs[i];
    var d := if input.Line? then input.config + "'" else "";
    assert input.Line? ==> |d| != |input.config|;
    StepApart(r.states[i], input, d, GmClock);
  }

  // ----- The death of the process

  /** In every run the line that a process died makes the master of its config FREERUN if and only if it
      is another process than ts2phc, the offsets of the node come from it and the master has an alias. An
      event says so exactly if the master was locked or unset: out of a holdover it falls silently. Otherwise
      nothing about the master changes; nor does it about that of another config. */
  lemma DeathMovesE1(r: Run, i: nat, c: ConfigName, process: Process, d: ConfigName)
    requires IsRun(r) && i < |r.inputs| && r.inputs[i] == Line(c, ProcessStatus(process, false))
    ensures
      var n, m := r.states[i], r.states[i + 1];
      var was := At(n, d, Master).state;
      var falls := d == c && process != Ts2phc && process == n.offsetSource && At(n, c, Master).alias != "";
      && At(m, d, Master).state == (if falls then FreeRun else was)
      && Adds(n, m, d, Master, if falls && was in {Locked, Unset} then [FreeRun] else [])
  {
    assert Follows(r, i);
    hide Init, ProcessDown, At, Has, Adds, Unread;
    var n, input := r.states[i], r.inputs[i];
    var m := n.(stats := n.stats[c := StatsOf(n.stats, c)]);
    SameEntries(n, c);
    if d == c && process != Ts2phc && process == n.offsetSource {
      OffsetProcessDies(m, c, process);
      SameStart(n, m, r.states[i + 1], c, Master);
    } else {
      StepApart(n, input, d, Master);
      UnreadAdds(n, r.states[i + 1], d, Master);
      SameState(n, r.states[i + 1], d, Master);
    }
  }

  lemma OffsetProcessDies(n: Node, c: ConfigName, process: Process)
    requires process != Ts2phc && process == n.offsetSource
    ensures
      var m, was := ProcessDown(n, c, process), At(n, c, Master).state;
      var falls := At(n, c, Master).alias != "";
      && At(m, c, Master).state == (if falls then FreeRun else was)
      && Adds(n, m, c, Master, if falls && was in {Locked, Unset} then [FreeRun] else [])
  {
    hide At, Has, Adds, TbcDown, MasterDown, RealtimeDown, Unread;
    var m := TbcDown(n, c, process);
    TbcDownApart(n, c, process, c, Master);
    UnreadAdds(n, m, c, Master);
    SameState(n, m, c, Master);
    AliasKept(n, m, c);
    HasIfNamed(m, c);
    if Has(m, c, Master) {
      var e1 := MasterDown(m, c);
      MasterDownAdds(m, c);
      RealtimeDownApart(e1, c, c, Master);
      var states := if At(m, c, Master).alias != "" && At(m, c, Master).state in {Locked, Unset} then [FreeRun] else [];
      AddedThen(n, m, e1, c, Master);
      AddedLater(n, e1, RealtimeDown(e1, c), c, Master, states);
      SameState(e1, RealtimeDown(e1, c), c, Master);
    }
  }

  lemma AliasKept(n: Node, m: Node, c: ConfigName)
    requires Unread(n, m, c, Master)
    ensures At(m, c, Master).alias == At(n, c, Master).alias
  {
  }

  lemma HasIfNamed(n: Node, c: ConfigName)
    ensures At(n, c, Master).alias != "" ==> Has(n, c, Master)
  {
  }

  lemma MasterDownAdds(n: Node, c: ConfigName)
    ensures
      var m, was := MasterDown(n, c), At(n, c, Master).state;
      var falls := At(n, c, Master).alias != "";
      && At(m, c, Master).state == (if falls then FreeRun else was)
      && Adds(n, m, c, Master, if falls && was in {Locked, Unset} then [FreeRun] else [])
  {
    hide Gen, At, KeyEvents;
    GenAdds(n, c, Master, FREE_RUN_OFFSET, FreeRun);
  }

  // ----- The port that speaks for the master

  /** The first port in role SLAVE gives the name; there is none without such a port. */
  lemma {:induction false} SlaveNameIsFirst(ports: seq<PortConfig>, p: nat)
    requires FirstSlave(ports, p)
    ensures SlaveName(ports) == ports[p].name
  {
    if p > 0 {
      assert ports[0].role != Slave;
      SlaveNameIsFirst(ports[1..], p - 1);
    }
  }

  lemma {:induction false} NoSlaveNoName(ports: seq<PortConfig>)
    requires NoSlave(ports)
    ensures SlaveName(ports) == ""
  {
    if ports != [] {
      assert ports[0].role != Slave;
      NoSlaveNoName(ports[1..]);
    }
  }

  // ----- The offsets of a master

  /** The bound that a threshold lookup finds: that of the profile's own entry, else of the entry that the map
      yields, else the default. */
  function MaxFound(n: Node, c: ConfigName): (max: Int64) {
    var profile, other := ConfigOf(n, c).profile, n.order(n.lookups);
    if profile in n.thresholds then n.thresholds[profile].max
    else if other in n.thresholds then n.thresholds[other].max
    else 100
  }

  /** isOffsetInRange, spelt out: the smallest int64 is its own negation. */
  predicate Within(offset: Int64, max: Int64) {
    if offset == MIN64 then max != MIN64 else -(max as int) < offset < max
  }

  /** The name that an offset of the master gives it. */
  ghost predicate Speaks(n: Node, c: ConfigName, source: Process, name: string) {
    var ports := ConfigOf(n, c).ports;
    name != "" && if source == Ts2phc then name == "master"
                  else exists p: nat :: FirstSlave(ports, p) && ports[p].name == name
  }

  /** No port speaks for the master. */
  ghost predicate Nameless(n: Node, c: ConfigName, source: Process) {
    var ports := ConfigOf(n, c).ports;
    source != Ts2phc && (NoSlave(ports) || exists p: nat :: FirstSlave(ports, p) && ports[p].name == "")
  }

  /** The process that leads: that of the master, where it has stats. */
  function Leader(n: Node, c: ConfigName): (process: Process) {
    if Has(n, c, Master) then At(n, c, Master).process else n.offsetSource
  }

  /** The state that the line says, overruled while ts2phc leads and the grandmaster is in freerun. */
  function Believed(n: Node, c: ConfigName, source: Process, state: Known): (servo: Known) {
    if source != Ts2phc && Leader(n, c) == Ts2phc && n.gmState == FreeRun then FreeRun else state
  }

  /** A report of an offset for a clock other than CLOCK_REALTIME. A lock needs the offset in range, else a
      holdover goes on and anything else falls; the other states are taken as they are. An event says so if the
      state is another one, but for a fall out of a holdover. */
  ghost predicate MovesClock(n: Node, m: Node, c: ConfigName, k: IFace, servo: Known, offset: Int64) {
    var was, now := At(n, c, k), At(m, c, k);
    var out := !Within(offset, MaxFound(n, c));
    && now.state == (if servo != Locked then servo
                     else if !out then Locked
                     else if was.state == Holdover then Holdover else FreeRun)
    && Adds(n, m, c, k,
            if now.state == was.state || (was.state == Holdover && now.state == FreeRun) then [] else [now.state])
    && now.lastOffset == (if (servo == Locked && out && was.state in {FreeRun, Holdover})
                             || (servo == FreeRun && was.state == Holdover) then was.lastOffset else offset)
    && m.closed == n.closed + LockCloses(n, c, was.state, now.state)
  }

  /** The channel that a lock out of a holdover closes. */
  function LockCloses(n: Node, c: ConfigName, was: SyncState, now: SyncState): (closed: set<nat>) {
    var profile, other := ConfigOf(n, c).profile, n.order(n.lookups);
    if was != Holdover || now != Locked then {}
    else if profile in n.thresholds then {n.thresholds[profile].close}
    else if other in n.thresholds then {n.thresholds[other].close}
    else {n.nextChan}
  }

  /** The statistics after a report: a lock counts only in range and not as the first report, and a freerun in
      a holdover does not count, but for CLOCK_REALTIME. */
  function TakenIn(was: Stat, servo: Known, offset: Int64, out: bool, kind: EventKind): (acc: Statistics.Accum) {
    if servo == Locked && (out || was.state == Unset) then was.acc
    else if servo == FreeRun && was.state == Holdover && kind != OsClockState then was.acc
    else Statistics.Add64(was.acc, offset)
  }

  lemma GenTakesIn(n: Node, c: ConfigName, k: IFace, offset: Int64, servo: Known, kind: EventKind)
    ensures At(Gen(n, c, k, offset, servo, kind), c, k).acc
         == TakenIn(At(n, c, k), servo, offset, !Within(offset, MaxFound(n, c)), kind)
  {
    hide At, Has, PtpThreshold, IsOffsetInRange, Within, MaxFound, Statistics.Add64, LockCloses, Tell, Recovered, Apart;
    WithinIsInRange(n, c, offset);
    var t := PtpThreshold(n, ConfigOf(n, c).profile, false);
    var last := At(n, c, k).state;
    RecoveredApart(n, c, last, NextState(last, servo, IsOffsetInRange(offset, t.max)), c, k);
  }

  lemma WithinIsInRange(n: Node, c: ConfigName, offset: Int64)
    ensures
      var t := PtpThreshold(n, ConfigOf(n, c).profile, false);
      && Within(offset, MaxFound(n, c)) == IsOffsetInRange(offset, t.max)
      && forall was, now :: n.closed + LockCloses(n, c, was, now)
                            == if was == Holdover && now == Locked then n.closed + {t.chan} else n.closed
  {
    IsOffsetInRangeExactly(offset, MaxFound(n, c));
  }

  lemma GenMovesClock(n: Node, c: ConfigName, k: IFace, offset: Int64, servo: Known)
    ensures MovesClock(n, Gen(n, c, k, offset, servo, PtpState), c, k, servo, offset)
  {
    hide Gen, At, PtpThreshold, IsOffsetInRange, Within, MaxFound, Adds, LockCloses;
    GenAdds(n, c, k, offset, servo);
    WithinIsInRange(n, c, offset);
  }

  /** What a master offset comes to: the master belongs to the process, and is then reported. */
  lemma MasterLine(n: Node, c: ConfigName, source: Process, s: Sample) returns (owned: Node)
    requires s.iface == Master
    ensures OffsetSample(n, c, source, s) == MasterSample(owned, c, source, s.offset, Servo(n, source, s.state))
    ensures owned == n.(stats := owned.stats) && Has(owned, c, Master)
    ensures At(owned, c, Master) == At(n, c, Master).(process := source)
  {
    hide MasterSample, SetStat, CheckSource, Servo;
    var led := Lead(n, c, source);
    var known := CheckSource(led, c, Master, source);
    owned := SetStat(known, c, Master, At(known, c, Master).(process := source));
  }

  /** In every run a master offset line of a config outside T-BC with a named slave port moves E1 by this
      rule, names the master and makes the source its process; the statistics take the offset in once more
      than the report does. */
  lemma OffsetMovesE1(r: Run, i: nat, c: ConfigName, source: Process, offset: Int64, state: Known, name: string)
    requires IsRun(r) && i < |r.inputs|
    requires r.inputs[i] == Line(c, OffsetLog(source, Sample(Master, offset, state)))
    requires Serves(r.states[i], c) && Speaks(r.states[i], c, source, name)
    requires ConfigOf(r.states[i], c).ptype != Tbc
    ensures
      var n, m := r.states[i], r.states[i + 1];
      var servo, out := Believed(n, c, source, state), !Within(offset, MaxFound(n, c));
      && MovesClock(n, m, c, Master, servo, offset)
      && At(m, c, Master).alias == n.aliases(Port(name)) && At(m, c, Master).process == source
      && At(m, c, Master).acc == Statistics.Add64(TakenIn(At(n, c, Master), servo, offset, out, PtpState), offset)
  {
    hide IsRun, Dispatch, MovesClock, At, Has, OffsetSample, MasterSample, Speaks, Within, Statistics.Add64;
    var log := OffsetLog(source, Sample(Master, offset, state));
    var led := LineStep(r, i, c, log);
    var n, m := r.states[i], r.states[i + 1];
    RunHasStates(r, i);
    DispatchesOffset(led, c, log);
    var owned := MasterLine(led, c, source, log.sample);
    NameIsSlaveName(n, c, source, name);
    NamedMasterMoves(owned, c, source, offset, Servo(led, source, state), name);
    SameMove(n, owned, m, c, Master, Servo(led, source, state), offset);
  }

  lemma NameIsSlaveName(n: Node, c: ConfigName, source: Process, name: string)
    requires Speaks(n, c, source, name)
    ensures name != "" && name == if source == Ts2phc then "master" else SlaveName(ConfigOf(n, c).ports)
  {
    var ports := ConfigOf(n, c).ports;
    if source != Ts2phc {
      var p: nat :| FirstSlave(ports, p) && ports[p].name == name;
      SlaveNameIsFirst(ports, p);
    }
  }

  lemma NamedMasterMoves(n: Node, c: ConfigName, source: Process, offset: Int64, servo: Known, name: string)
    requires ConfigOf(n, c).ptype != Tbc && Has(n, c, Master)
    requires name != "" && name == if source == Ts2phc then "master" else SlaveName(ConfigOf(n, c).ports)
    ensures
      var m := MasterSample(n, c, source, offset, servo);
      var out := !Within(offset, MaxFound(n, c));
      && MovesClock(n, m, c, Master, servo, offset)
      && At(m, c, Master).alias == n.aliases(Port(name)) && At(m, c, Master).process == At(n, c, Master).process
      && At(m, c, Master).acc == Statistics.Add64(TakenIn(At(n, c, Master), servo, offset, out, PtpState), offset)
  {
    hide Gen, At, Has, SetStat, SlaveName, MovesClock, Within, Statistics.Add64;
    var named := SetStat(n, c, Master, At(n, c, Master).(alias := n.aliases(Port(name))));
    var m := Gen(named, c, Master, offset, servo, PtpState);
    var l := MasterSample(n, c, source, offset, servo);
    GenMovesClock(named, c, Master, offset, servo);
    GenTakesIn(named, c, Master, offset, servo, PtpState);
    SameMove(n, named, m, c, Master, servo, offset);
    MoveThen(n, m, l, c, Master, servo, offset);
  }

  lemma SameMove(n: Node, before: Node, m: Node, c: ConfigName, k: IFace, servo: Known, offset: Int64)
    requires MovesClock(before, m, c, k, servo, offset)
    requires before == n.(stats := before.stats, offsetSource := before.offsetSource)
    requires At(before, c, k).state == At(n, c, k).state && At(before, c, k).lastOffset == At(n, c, k).lastOffset
    ensures MovesClock(n, m, c, k, servo, offset)
  {
    hide At, Within;
  }

  lemma MoveThen(n: Node, m: Node, l: Node, c: ConfigName, k: IFace, servo: Known, offset: Int64)
    requires MovesClock(n, m, c, k, servo, offset) && l == m.(stats := l.stats)
    requires At(l, c, k).state == At(m, c, k).state && At(l, c, k).lastOffset == At(m, c, k).lastOffset
    ensures MovesClock(n, l, c, k, servo, offset)
  {
    hide At, Within, MaxFound, LockCloses;
  }

  /** Without a named slave port, or under T-BC, E1 is not derived from the offset: without one nothing of the
      master changes but its process, and under T-BC the state is stored as it is, unannounced. */
  lemma OffsetKeepsE1(r: Run, i: nat, c: ConfigName, source: Process, offset: Int64, state: Known)
    requires IsRun(r) && i < |r.inputs|
    requires r.inputs[i] == Line(c, OffsetLog(source, Sample(Master, offset, state)))
    requires Serves(r.states[i], c) && (Nameless(r.states[i], c, source) || ConfigOf(r.states[i], c).ptype == Tbc)
    ensures
      var n, m := r.states[i], r.states[i + 1];
      && Adds(n, m, c, Master, [])
      && At(m, c, Master).lastOffset == At(n, c, Master).lastOffset && At(m, c, Master).process == source
      && (Nameless(n, c, source) ==> At(m, c, Master) == At(n, c, Master).(process := source))
      && (!Nameless(n, c, source) ==> At(m, c, Master).state == Believed(n, c, source, state))
  {
    hide IsRun, Dispatch, Adds, At, Has, OffsetSample, MasterSample, Nameless;
    var log := OffsetLog(source, Sample(Master, offset, state));
    var led := LineStep(r, i, c, log);
    var n, m := r.states[i], r.states[i + 1];
    RunHasStates(r, i);
    DispatchesOffset(led, c, log);
    var owned := MasterLine(led, c, source, log.sample);
    NamelessHasNoName(n, c, source);
    KeptMaster(owned, c, source, offset, Servo(led, source, state));
    SameStart(n, owned, m, c, Master);
  }

  lemma NamelessHasNoName(n: Node, c: ConfigName, source: Process)
    ensures Nameless(n, c, source) <==> (if source == Ts2phc then "master" else SlaveName(ConfigOf(n, c).ports)) == ""
  {
    var ports := ConfigOf(n, c).ports;
    if p: nat :| FirstSlave(ports, p) {
      SlaveNameIsFirst(ports, p);
      forall q: nat | FirstSlave(ports, q) ensures q == p {
      }
      assert ports[p].role == Slave;
    } else {
      NoFirstNoSlave(ports);
      NoSlaveNoName(ports);
    }
  }

  /** Of several such ports one is the first. */
  lemma {:induction false} NoFirstNoSlave(ports: seq<PortConfig>)
    requires forall p: nat :: !FirstSlave(ports, p)
    ensures NoSlave(ports)
  {
    if ports != [] {
      var before := ports[..|ports| - 1];
      forall p: nat ensures !FirstSlave(before, p) {
        assert FirstSlave(before, p) ==> FirstSlave(ports, p);
      }
      NoFirstNoSlave(before);
      assert forall q :: 0 <= q < |before| ==> ports[q] == before[q];
      assert !FirstSlave(ports, |before|);
    }
  }

  lemma KeptMaster(n: Node, c: ConfigName, source: Process, offset: Int64, servo: Known)
    requires Has(n, c, Master)
    ensures
      var m := MasterSample(n, c, source, offset, servo);
      var unnamed := (if source == Ts2phc then "master" else SlaveName(ConfigOf(n, c).ports)) == "";
      && (unnamed ==> m == n)
      && (unnamed || ConfigOf(n, c).ptype == Tbc ==>
            && Adds(n, m, c, Master, [])
            && At(m, c, Master).lastOffset == At(n, c, Master).lastOffset
            && At(m, c, Master).process == At(n, c, Master).process
            && (!unnamed ==> At(m, c, Master).state == servo))
  {
    hide Gen, At, Has, SetStat, SlaveName, KeyEvents, Statistics.Add64, Announce;
    var name := if source == Ts2phc then "master" else SlaveName(ConfigOf(n, c).ports);
    var named := SetStat(n, c, Master, At(n, c, Master).(alias := n.aliases(Port(name))));
    AnnounceAdds(named, c, Master, servo, offset, false);
  }

  // ----- The offsets of an interface

  lemma InterfaceLine(n: Node, c: ConfigName, s: Sample) returns (owned: Node)
    requires s.iface.Port?
    ensures OffsetSample(n, c, Ts2phc, s) == InterfaceSample(owned, c, s.iface, s.offset, s.state)
    ensures owned == n.(stats := owned.stats) && Has(owned, c, Master) && Has(owned, c, s.iface)
    ensures At(owned, c, Master).process == Ts2phc
    ensures At(owned, c, s.iface) == At(n, c, s.iface).(process := Ts2phc)
  {
    hide InterfaceSample, SetStat, CheckSource;
    var led := Lead(n, c, Ts2phc);
    var known := CheckSource(led, c, s.iface, Ts2phc);
    owned := SetStat(known, c, s.iface, At(known, c, s.iface).(process := Ts2phc));
  }

  /** Under T-BC the state of an interface is stored unannounced, as the line says it or in freerun if the offset
      is out of range and the line does not say holdover. */
  ghost predicate StoresInterface(n: Node, m: Node, c: ConfigName, k: IFace, state: Known, offset: Int64) {
    var was, now := At(n, c, k), At(m, c, k);
    && now.state == (if state == Holdover || Within(offset, MaxFound(n, c)) then state else FreeRun)
    && Adds(n, m, c, k, [])
    && now.lastOffset == offset && now.acc == Statistics.Add64(was.acc, offset)
  }

  lemma InterfaceMoves(n: Node, c: ConfigName, k: IFace, offset: Int64, state: Known)
    requires k.Port? && Has(n, c, Master) && Has(n, c, k)
    ensures
      var m := InterfaceSample(n, c, k, offset, state);
      && (ConfigOf(n, c).ptype != Tbc ==> MovesClock(n, m, c, k, state, offset))
      && (ConfigOf(n, c).ptype == Tbc ==> StoresInterface(n, m, c, k, state, offset))
      && At(m, c, Master) == At(n, c, Master)
      && At(m, c, k).alias == n.aliases(k) && At(m, c, k).process == At(n, c, k).process
  {
    hide Gen, At, Has, SetStat, MovesClock, StoresInterface, TbcInterface;
    var named := SetStat(n, c, k, At(n, c, k).(alias := n.aliases(k)));
    if ConfigOf(n, c).ptype != Tbc {
      GenMovesClock(named, c, k, offset, state);
      SameMove(n, named, InterfaceSample(n, c, k, offset, state), c, k, state, offset);
    } else {
      TbcInterfaceStores(named, c, k, offset, state);
      SameStore(n, named, InterfaceSample(n, c, k, offset, state), c, k, state, offset);
    }
  }

  lemma SameStore(n: Node, before: Node, m: Node, c: ConfigName, k: IFace, state: Known, offset: Int64)
    requires StoresInterface(before, m, c, k, state, offset)
    requires before == n.(stats := before.stats, offsetSource := before.offsetSource)
    requires At(before, c, k).acc == At(n, c, k).acc
    ensures StoresInterface(n, m, c, k, state, offset)
  {
    hide At, Within, Statistics.Add64;
  }

  lemma TbcInterfaceStores(n: Node, c: ConfigName, k: IFace, offset: Int64, state: Known)
    requires k.Port?
    ensures
      var m := TbcInterface(n, c, k, offset, state);
      && StoresInterface(n, m, c, k, state, offset)
      && At(m, c, Master) == At(n, c, Master)
      && At(m, c, k).alias == At(n, c, k).alias && At(m, c, k).process == At(n, c, k).process
  {
    hide At, Announce, PtpThreshold, IsOffsetInRange, Within, MaxFound, KeyEvents, Statistics.Add64, LockCloses;
    WithinIsInRange(n, c, offset);
    ThresholdFrame(n, ConfigOf(n, c).profile, false);
    var t := PtpThreshold(n, ConfigOf(n, c).profile, false);
    SameStats(n, t.node);
    var now := if state != Holdover && !IsOffsetInRange(offset, t.max) then FreeRun else state;
    AnnounceAdds(t.node, c, k, now, offset, false);
  }

  /** In every run a ts2phc offset of an interface makes ts2phc the process of the master and moves the interface
      as any clock, or under T-BC stores its state. */
  lemma OffsetMovesInterface(r: Run, i: nat, c: ConfigName, name: string, offset: Int64, state: Known)
    requires IsRun(r) && i < |r.inputs|
    requires r.inputs[i] == Line(c, OffsetLog(Ts2phc, Sample(Port(name), offset, state)))
    requires Serves(r.states[i], c)
    ensures
      var n, m, k := r.states[i], r.states[i + 1], Port(name);
      && (ConfigOf(n, c).ptype != Tbc ==> MovesClock(n, m, c, k, state, offset))
      && (ConfigOf(n, c).ptype == Tbc ==> StoresInterface(n, m, c, k, state, offset))
      && At(m, c, k).alias == n.aliases(k) && At(m, c, k).process == Ts2phc && At(m, c, Master).process == Ts2phc
  {
    hide IsRun, Dispatch, MovesClock, StoresInterface, At, Has, OffsetSample, InterfaceSample;
    var log := OffsetLog(Ts2phc, Sample(Port(name), offset, state));
    RunHasStates(r, i);
    var n, m := r.states[i], r.states[i + 1];
    var led := LineStep(r, i, c, log);
    DispatchesOffset(led, c, log);
    var owned := InterfaceLine(led, c, log.sample);
    InterfaceMoves(owned, c, Port(name), offset, state);
    if ConfigOf(n, c).ptype != Tbc {
      SameMove(n, owned, m, c, Port(name), state, offset);
    } else {
      SameStore(n, owned, m, c, Port(name), state, offset);
    }
  }

  /** Of other processes only the master and CLOCK_REALTIME are listened to. */
  lemma OtherOffsetIsDropped(r: Run, i: nat, c: ConfigName, source: Process, name: string, offset: Int64, state: Known)
    requires IsRun(r) && i < |r.inputs| && source != Ts2phc
    requires r.inputs[i] == Line(c, OffsetLog(source, Sample(Port(name), offset, state)))
    ensures
      var n, m := r.states[i], r.states[i + 1];
      && m == n.(stats := m.stats, offsetSource := m.offsetSource)
      && forall d, k :: At(m, d, k) == At(n, d, k) && (Has(m, d, k) <==> Has(n, d, k))
  {
    assert Follows(r, i);
    hide Init, At, Has;
    var n := r.states[i];
    var m := n.(stats := n.stats[c := StatsOf(n.stats, c)]);
    SameEntries(n, c);
    SameStats(m, m.(offsetSource := At(m, c, Master).process));
  }
}
