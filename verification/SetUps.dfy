/** Lines that report no state of a clock: what they set up, and that the rest stays as it is. */
module SetUps {
  import opened SyncStates
  import opened Int64s
  import opened Options
  import opened OsClock
  import opened Engine
  import opened EventTrace
  import opened Samples
  import opened StatusClocks
  import opened E1Clock

  /** The stats of one clock, and nothing else. */
  ghost predicate OnlyOne(n: Node, m: Node, c: ConfigName, k: IFace) {
    && m == n.(stats := m.stats, offsetSource := m.offsetSource)
    && forall d, j :: d != c || j != k ==> At(m, d, j) == At(n, d, j) && (Has(m, d, j) <==> Has(n, d, j))
  }

  /** Stats as they were, or fresh ones of this process. */
  ghost predicate SetUp(n: Node, m: Node, c: ConfigName, k: IFace, process: Process) {
    && OnlyOne(n, m, c, k) && Has(m, c, k)
    && At(m, c, k) == if Has(n, c, k) then At(n, c, k) else NewStat(process)
  }

  /** A DPLL or GNSS line sets up the stats of its interface, and if it can be read names them. */
  lemma DeviceSetsUp(r: Run, i: nat, c: ConfigName, iface: string, readable: bool)
    requires IsRun(r) && i < |r.inputs| && r.inputs[i] == Line(c, DeviceLog(iface, readable))
    requires Serves(r.states[i], c)
    ensures
      var n, m, k := r.states[i], r.states[i + 1], Port(iface);
      && OnlyOne(n, m, c, k) && Has(m, c, k)
      && var st := if Has(n, c, k) then At(n, c, k) else NewStat(Ts2phc);
         At(m, c, k) == if readable then st.(alias := n.aliases(k)) else st
  {
    hide IsRun, Dispatch, At, Has, DeviceLine;
    RunHasStates(r, i);
    var led := LineStep(r, i, c, DeviceLog(iface, readable));
    DispatchesSetUp(led, c, DeviceLog(iface, readable));
    DeviceLineSetsUp(led, c, iface, readable);
  }

  lemma DeviceLineSetsUp(n: Node, c: ConfigName, iface: string, readable: bool)
    ensures
      var m, k := DeviceLine(n, c, iface, readable), Port(iface);
      && OnlyOne(n, m, c, k) && Has(m, c, k)
      && var st := if Has(n, c, k) then At(n, c, k) else NewStat(Ts2phc);
         At(m, c, k) == if readable then st.(alias := n.aliases(k)) else st
  {
    hide At, Has, SetStat, CheckSource;
  }

  lemma DispatchesSetUp(n: Node, c: ConfigName, log: LogLine)
    ensures log.DeviceLog? ==> Dispatch(n, c, log) == DeviceLine(n, c, log.iface, log.readable)
    ensures log.SynceLog? ==> Dispatch(n, c, log) == CheckSource(n, c, Port(log.device), Other("synce4l"))
    ensures log.ClassLog? ==> Dispatch(n, c, log) == ClassLine(n, c)
  {
    hide DeviceLine, ClassLine, CheckSource;
  }

  /** A SyncE line sets up the stats of its device, whatever the config. */
  lemma SynceSetsUp(r: Run, i: nat, c: ConfigName, device: string)
    requires IsRun(r) && i < |r.inputs| && r.inputs[i] == Line(c, SynceLog(device))
    ensures SetUp(r.states[i], r.states[i + 1], c, Port(device), Other("synce4l"))
  {
    hide IsRun, Dispatch, At, Has, CheckSource;
    RunHasStates(r, i);
    var led := LineStep(r, i, c, SynceLog(device));
    DispatchesSetUp(led, c, SynceLog(device));
  }

  /** A clock class line sets up those of ptp4l for the master, unless the config has a GM or T-BC clock. */
  lemma ClassSetsUp(r: Run, i: nat, c: ConfigName)
    requires IsRun(r) && i < |r.inputs| && r.inputs[i] == Line(c, ClassLog) && Serves(r.states[i], c)
    ensures
      var n, m := r.states[i], r.states[i + 1];
      if Has(n, c, GmClock) then SetUp(n, m, c, GmClock, Ptp4l)
      else if Has(n, c, TbcClock) then SetUp(n, m, c, TbcClock, Ptp4l)
      else SetUp(n, m, c, Master, Ptp4l)
  {
    hide IsRun, Dispatch, At, Has, ClassLine;
    RunHasStates(r, i);
    var led := LineStep(r, i, c, ClassLog);
    DispatchesSetUp(led, c, ClassLog);
    ClassLineSetsUp(led, c);
  }

  lemma ClassLineSetsUp(n: Node, c: ConfigName)
    ensures
      var m := ClassLine(n, c);
      if Has(n, c, GmClock) then SetUp(n, m, c, GmClock, Ptp4l)
      else if Has(n, c, TbcClock) then SetUp(n, m, c, TbcClock, Ptp4l)
      else SetUp(n, m, c, Master, Ptp4l)
  {
    hide At, CheckSource;
    assert forall k :: k in StatsOf(n.stats, c).Keys <==> Has(n, c, k);
  }

  /** That a process is up changes nothing but that the config has a place for stats. */
  lemma UpChangesNothing(r: Run, i: nat, c: ConfigName, process: Process)
    requires IsRun(r) && i < |r.inputs| && r.inputs[i] == Line(c, ProcessStatus(process, true))
    ensures
      var n := r.states[i];
      r.states[i + 1] == if c in n.stats then n else n.(stats := n.stats[c := map[]])
  {
    assert Follows(r, i);
    hide Init;
    var n := r.states[i];
    assert c in n.stats ==> n.stats[c := n.stats[c]] == n.stats;
  }

  /** A status line names its clock after the interface it speaks of, and its offset is noted if the line is
      handled; fresh stats are those of ts2phc. */
  lemma StatusLineNames(r: Run, i: nat, c: ConfigName, log: LogLine, k: IFace)
    requires IsRun(r) && i < |r.inputs| && r.inputs[i] == Line(c, log) && IsStatus(log, k) && Serves(r.states[i], c)
    ensures
      var n, m := r.states[i], r.states[i + 1];
      var was, now := At(n, c, k), At(m, c, k);
      && Has(m, c, k)
      && now.alias == n.aliases(Port(log.iface))
      && now.lastOffset == (if Handled(n, c, log) then OffsetSaid(log) else was.lastOffset)
      && now.process == (if Has(n, c, k) then was.process else Ts2phc)
  {
    hide IsRun, Dispatch, ClockStatus, At, Has;
    RunHasStates(r, i);
    var led := LineStep(r, i, c, log);
    DispatchesStatus(led, c, log, k);
    StatusNames(led, c, k, log.iface, Told(log), OffsetSaid(log));
  }

  lemma StatusNames(n: Node, c: ConfigName, k: IFace, iface: string, state: SyncState, offset: Int64)
    requires k == GmClock || k == TbcClock
    ensures
      var m := ClockStatus(n, c, k, iface, state, offset);
      var was, now := At(n, c, k), At(m, c, k);
      && Has(m, c, k) && now.alias == n.aliases(Port(iface))
      && now.lastOffset == (if k == GmClock && !Has(n, c, Port(iface)) then was.lastOffset else offset)
      && now.process == (if Has(n, c, k) then was.process else Ts2phc)
  {
    hide SetStat, CheckSource, Record, Announce;
    var m := CheckSource(n, c, k, Ts2phc);
    var named := SetStat(m, c, k, At(m, c, k).(alias := n.aliases(Port(iface))));
    var noted := Record(named, c, k, offset, false);
    var told := Announce(noted, c, k, state, offset, PtpState, true);
    SameStats(told, told.(gmState := state));
  }

  /** A dead ts2phc leaves every clock of its config but the master and CLOCK_REALTIME in freerun with the offset of
      a freerun, and publishes nothing. */
  lemma Ts2phcSilences(r: Run, i: nat, c: ConfigName)
    requires IsRun(r) && i < |r.inputs| && Ts2phcDies(r.inputs[i], c)
    ensures
      var n, m := r.states[i], r.states[i + 1];
      && (forall d, k :: Has(m, d, k) <==> Has(n, d, k))
      && (forall d, k :: d != c || k == ClockRealtime || k == Master || !Has(n, d, k) ==> At(m, d, k) == At(n, d, k))
      && (forall k :: k != ClockRealtime && k != Master && Has(n, c, k) ==>
            At(m, c, k)
            == At(n, c, k).(state := FreeRun, lastOffset := -9999999999999999, alias := n.aliases(k)))
      && m.lastOverall == n.lastOverall
      && |m.trace| == |n.trace| + 1 && m.trace[..|n.trace|] == n.trace && m.trace[|n.trace|].Silenced?
  {
    assert Follows(r, i);
    hide Init;
    var n := r.states[i];
    SameEntries(n, c);
  }

  /** A summary of the offsets of the master names it after its slave port, if that has a name; one of ts2phc for
      another clock names it after nothing. It does nothing to a config without a master. */
  lemma SummaryNamesMaster(r: Run, i: nat, c: ConfigName, source: Process, clock: Summary, p: nat)
    requires IsRun(r) && i < |r.inputs| && r.inputs[i] == Line(c, SummaryLog(source, clock)) && Serves(r.states[i], c)
    requires var ports := ConfigOf(r.states[i], c).ports; FirstSlave(ports, p) || NoSlave(ports)
    ensures
      var n, m, ports := r.states[i], r.states[i + 1], ConfigOf(r.states[i], c).ports;
      && OnlyOne(n, m, c, Master) && (Has(m, c, Master) <==> Has(n, c, Master))
      && (!Has(n, c, Master) ==> At(m, c, Master) == At(n, c, Master))
      && (Has(n, c, Master) ==>
            At(m, c, Master).alias
            == match clock {
                 case MasterSummary =>
                   if FirstSlave(ports, p) && ports[p].name != "" then n.aliases(Port(ports[p].name))
                   else At(n, c, Master).alias
                 case OtherSummary => if source == Ts2phc then n.aliases(Port("")) else At(n, c, Master).alias
                 case RealtimeSummary => At(n, c, Master).alias
               })
  {
    hide IsRun, Dispatch, At, Has, SummaryLine;
    RunHasStates(r, i);
    var led := LineStep(r, i, c, SummaryLog(source, clock));
    DispatchesSummary(led, c, source, clock);
    SummaryLineNames(led, c, source, clock);
    var ports := ConfigOf(r.states[i], c).ports;
    if FirstSlave(ports, p) {
      SlaveNameIsFirst(ports, p);
    } else {
      NoSlaveNoName(ports);
    }
  }

  lemma DispatchesSummary(n: Node, c: ConfigName, source: Process, clock: Summary)
    ensures Dispatch(n, c, SummaryLog(source, clock)) == SummaryLine(n, c, source, clock)
  {
    hide SummaryLine;
  }

  lemma SummaryLineNames(n: Node, c: ConfigName, source: Process, clock: Summary)
    ensures
      var m, slave := SummaryLine(n, c, source, clock), SlaveName(ConfigOf(n, c).ports);
      && OnlyOne(n, m, c, Master) && (Has(m, c, Master) <==> Has(n, c, Master))
      && (!Has(n, c, Master) ==> At(m, c, Master) == At(n, c, Master))
      && (Has(n, c, Master) ==>
            At(m, c, Master).alias
            == match clock {
                 case MasterSummary => if slave != "" then n.aliases(Port(slave)) else At(n, c, Master).alias
                 case OtherSummary => if source == Ts2phc then n.aliases(Port("")) else At(n, c, Master).alias
                 case RealtimeSummary => At(n, c, Master).alias
               })
  {
    hide At, Has, SetStat, SlaveName;
  }
}
