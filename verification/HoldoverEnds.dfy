/** How the holdover of a master ends. A fault starts a timer for it; whether the timer ends it hangs
    on the channel of the timer, on the state of the master by then and on its alias. */
module HoldoverEnds {
  import opened SyncStates
  import opened Int64s
  import opened Options
  import opened OsClock
  import opened Engine
  import opened EventTrace
  import opened Channels
  import opened Elsewhere
  import opened Samples
  import opened Holdovers
  import opened StatusClocks
  import opened E1Clock
  import opened PortLines
  import Steps

  // ----- The alias of a master

  /** The name that an offset of the master gives it: that of its slave port. */
  function SampleNames(n: Node, c: ConfigName, process: Process, s: Sample): (name: Option<string>) {
    var slave := if process == Ts2phc then "master" else SlaveName(ConfigOf(n, c).ports);
    if s.iface == Master && slave != "" then Some(n.aliases(Port(slave))) else None
  }

  /** That is the first port in role SLAVE. */
  lemma SlaveNames(n: Node, c: ConfigName, process: Process, s: Sample, p: nat)
    requires process != Ts2phc && s.iface == Master && FirstSlave(ConfigOf(n, c).ports, p)
    ensures
      var name := ConfigOf(n, c).ports[p].name;
      SampleNames(n, c, process, s) == if name != "" then Some(n.aliases(Port(name))) else None
  {
    SlaveNameIsFirst(ConfigOf(n, c).ports, p);
  }

  function SummaryNames(n: Node, c: ConfigName, source: Process, clock: Summary): (name: Option<string>) {
    var slave := SlaveName(ConfigOf(n, c).ports);
    if !Has(n, c, Master) then None
    else if clock == MasterSummary && slave != "" then Some(n.aliases(Port(slave)))
    else if clock == OtherSummary && source == Ts2phc then Some(n.aliases(Port("")))
    else None
  }

  function LogNames(n: Node, c: ConfigName, log: LogLine): (name: Option<string>) {
    match log
    case Phc2sysLog(line) =>
      if Continues(line) && line.sample.Some? then SampleNames(n, c, Phc2sys, line.sample.value) else None
    case OffsetLog(source, sample) => SampleNames(n, c, source, sample)
    case SummaryLog(source, clock) => SummaryNames(n, c, source, clock)
    case _ => None
  }

  /** The alias that an input gives the master of a config. */
  function Names(n: Node, input: Input, c: ConfigName): (name: Option<string>) {
    if input.Line? && input.config == c && !input.log.ProcessStatus? && Accepts(ConfigOf(n, c), input.log)
    then LogNames(n, c, input.log) else None
  }

  /** The name it was given last, if any. */
  function LastName(r: Run, j: nat, c: ConfigName): (name: string)
    requires |r.states| == |r.inputs| + 1 && j <= |r.inputs|
  {
    if j == 0 then ""
    else
      match Names(r.states[j - 1], r.inputs[j - 1], c)
      case Some(name) => name
      case None => LastName(r, j - 1, c)
  }

  function Alias(n: Node, c: ConfigName): (alias: string) {
    At(n, c, Master).alias
  }

  function Renamed(alias: string, name: Option<string>): (r: string) {
    if name.Some? then name.value else alias
  }

  /** The alias of a master is the name it was given last by an offset or a summary of it. */
  lemma {:induction false} AliasIsLastName(r: Run, j: nat, c: ConfigName)
    requires IsRun(r) && j <= |r.inputs|
    ensures Alias(r.states[j], c) == LastName(r, j, c)
  {
    if j == 0 {
      assert Init(r.states[0]);
    } else {
      hide Init, Step, Names, Alias;
      AliasIsLastName(r, j - 1, c);
      assert Follows(r, j - 1);
      StepNames(r.states[j - 1], r.inputs[j - 1], c);
    }
  }

  lemma StepNames(n: Node, input: Input, c: ConfigName)
    ensures Alias(Step(n, input), c) == Renamed(Alias(n, c), Names(n, input, c))
  {
    hide At, Has, Unread, Dispatch, HoldoverRuns, LogNames, Accepts, OneTimer;
    if !Touches(n, input, c, Master) {
      StepApart(n, input, c, Master);
      UnreadAlias(n, Step(n, input), c);
      UntouchedUnnamed(n, input, c);
    } else if input.Line? {
      var log := input.log;
      var m := n.(stats := n.stats[c := StatsOf(n.stats, c)]);
      var led := if Has(m, c, Master) then m.(offsetSource := At(m, c, Master).process) else m;
      SameEntries(n, c);
      SameStats(m, led);
      if log.ProcessStatus? {
        DispatchNames(m, c, log);
      } else {
        DispatchNames(led, c, log);
        SameNames(n, led, c, log);
      }
    } else {
      RunsKeepAlias(n, input.timer, c);
    }
  }

  lemma UnreadAlias(n: Node, m: Node, c: ConfigName)
    requires Unread(n, m, c, Master)
    ensures Alias(m, c) == Alias(n, c)
  {
  }

  lemma UntouchedUnnamed(n: Node, input: Input, c: ConfigName)
    requires !Touches(n, input, c, Master)
    ensures Names(n, input, c).None?
  {
  }

  lemma SameNames(n: Node, m: Node, c: ConfigName, log: LogLine)
    requires m.configs == n.configs && m.aliases == n.aliases && (Has(m, c, Master) <==> Has(n, c, Master))
    ensures LogNames(m, c, log) == LogNames(n, c, log)
  {
  }

  lemma DispatchNames(n: Node, c: ConfigName, log: LogLine)
    requires TouchedBy(n, log, Master)
    ensures Alias(Dispatch(n, c, log), c)
         == Renamed(Alias(n, c), if log.ProcessStatus? then None else LogNames(n, c, log))
  {
    hide At, Has, ProcessDown, Selection, OffsetSample, PortLine, SummaryLine, SampleNames, SummaryNames, Unread;
    match log
    case ProcessStatus(process, up) => DownKeepsAlias(n, c, process);
    case Phc2sysLog(line) =>
      var m := Selection(n, c, line);
      SelectionApart(n, c, line, c, Master);
      UnreadAlias(n, m, c);
      Steps.SelectionFrame(n, c, line);
      SampleSame(n, m, c, line.sample.value);
      OffsetNames(m, c, Phc2sys, line.sample.value);
    case OffsetLog(source, sample) => OffsetNames(n, c, source, sample);
    case PortLog(id, role, fault) => PortKeepsAlias(n, c, id, role, fault);
    case SummaryLog(source, clock) => SummaryGives(n, c, source, clock);
  }

  lemma SampleSame(n: Node, m: Node, c: ConfigName, s: Sample)
    requires m.configs == n.configs && m.aliases == n.aliases
    ensures SampleNames(m, c, Phc2sys, s) == SampleNames(n, c, Phc2sys, s)
  {
  }

  lemma DownKeepsAlias(n: Node, c: ConfigName, process: Process)
    requires process != Ts2phc
    ensures Alias(ProcessDown(n, c, process), c) == Alias(n, c)
  {
    hide Gen, At, Has, OptsOf;
    SameStats(n, n.(trace := n.trace + [Died(c)]));
  }

  lemma OffsetNames(n: Node, c: ConfigName, process: Process, s: Sample)
    requires s.iface == Master
    ensures Alias(OffsetSample(n, c, process, s), c) == Renamed(Alias(n, c), SampleNames(n, c, process, s))
  {
    hide SetStat, CheckSource, MasterSample, Servo;
    var led := Lead(n, c, process);
    var known := CheckSource(led, c, Master, process);
    var m := SetStat(known, c, Master, At(known, c, Master).(process := process));
    assert Alias(m, c) == Alias(n, c) && m.configs == n.configs && m.aliases == n.aliases;
    hide At;
    MasterNames(m, c, process, s.offset, Servo(n, process, s.state));
  }

  lemma MasterNames(n: Node, c: ConfigName, process: Process, offset: Int64, servo: Known)
    ensures
      var slave := if process == Ts2phc then "master" else SlaveName(ConfigOf(n, c).ports);
      Alias(MasterSample(n, c, process, offset, servo), c)
      == if slave != "" then n.aliases(Port(slave)) else Alias(n, c)
  {
    hide Gen, SetStat, At, Announce, SlaveName;
  }

  lemma PortKeepsAlias(n: Node, c: ConfigName, id: nat, role: Role, fault: bool)
    ensures Alias(PortLine(n, c, id, role, fault), c) == Alias(n, c)
  {
    hide Notice, SetRole, Fault, PortIndex, Alias;
    var m := if role == Slave || n.offsetSource == Ts2phc then Notice(n, c, role) else n;
    NoticeFrame(n, c, role);
    NoticeKeepsAlias(n, c, role);
    if 0 < id <= |ConfigOf(n, c).ports| {
      RoleKeepsAlias(m, c, id - 1, role);
      FaultKeepsAlias(SetRole(m, c, id - 1, role), c, role, fault);
    }
    FaultKeepsAlias(m, c, role, fault);
  }

  lemma NoticeKeepsAlias(n: Node, c: ConfigName, role: Role)
    ensures Alias(Notice(n, c, role), c) == Alias(n, c)
  {
    hide SetStat, CheckSource;
  }

  lemma RoleKeepsAlias(n: Node, c: ConfigName, i: nat, role: Role)
    requires i < |ConfigOf(n, c).ports|
    ensures Alias(SetRole(n, c, i, role), c) == Alias(n, c)
  {
  }

  lemma FaultKeepsAlias(n: Node, c: ConfigName, role: Role, fault: bool)
    ensures Alias(Fault(n, c, role, fault), c) == Alias(n, c)
  {
    hide SetStat, Announce, At, Has, StartHoldover, Unread;
    var st := At(n, c, Master);
    var m := Announce(SetStat(n, c, Master, st.(role := Faulty)), c, Master, Holdover, st.lastOffset, PtpState, true);
    StartApart(m, c, c, Master);
    UnreadAlias(m, StartHoldover(m, c), c);
  }

  lemma SummaryGives(n: Node, c: ConfigName, source: Process, clock: Summary)
    ensures Alias(SummaryLine(n, c, source, clock), c) == Renamed(Alias(n, c), SummaryNames(n, c, source, clock))
  {
    hide SetStat, At, Has, SlaveName;
  }

  lemma RunsKeepAlias(n: Node, i: nat, c: ConfigName)
    ensures Alias(HoldoverRuns(n, i), c) == Alias(n, c)
  {
    hide Announce, At;
    if i < |n.holdovers| {
      var over := SetHoldover(n, i, Over);
      var d := n.holdovers[i].config;
      var m := over.(stats := over.stats[d := StatsOf(over.stats, d)]);
      SameStats(n, over);
      SameEntries(over, d);
      SameStats(m, m.(trace := m.trace + [Expired(d)]));
    }
  }

  // ----- Timers

  /** Only its own two halves move a timer. */
  lemma OtherInput(r: Run, l: nat, t: nat)
    requires IsRun(r) && l < |r.inputs| && t < |r.states[l].holdovers|
    requires r.inputs[l] != HoldoverFire(t) && r.inputs[l] != HoldoverRun(t)
    ensures t < |r.states[l + 1].holdovers| && r.states[l + 1].holdovers[t] == r.states[l].holdovers[t]
  {
    hide Init, Step, Unread;
    assert Follows(r, l);
    var n, input := r.states[l], r.inputs[l];
    var d := if input.Line? then input.config + "'" else "";
    assert input.Line? ==> |d| != |input.config|;
    StepApart(n, input, d, GmClock);
  }

  lemma {:induction false} TimerWaits(r: Run, i: nat, j: nat, t: nat)
    requires IsRun(r) && i <= j <= |r.inputs| && t < |r.states[i].holdovers|
    requires forall l :: i <= l < j ==> r.inputs[l] != HoldoverFire(t) && r.inputs[l] != HoldoverRun(t)
    ensures t < |r.states[j].holdovers| && r.states[j].holdovers[t] == r.states[i].holdovers[t]
    decreases j
  {
    hide Init, Step;
    if i < j {
      TimerWaits(r, i, j - 1, t);
      OtherInput(r, j - 1, t);
    }
  }

  /** The clock of a timer runs out: on an open channel it expires, on a closed one it never does. */
  lemma TimerFires(r: Run, j: nat, t: nat)
    requires IsRun(r) && j < |r.inputs| && r.inputs[j] == HoldoverFire(t) && t < |r.states[j].holdovers|
    requires r.states[j].holdovers[t].status == Parked
    ensures
      var n, m := r.states[j], r.states[j + 1];
      && |m.holdovers| == |n.holdovers|
      && m.holdovers[t] == n.holdovers[t].(status := if n.holdovers[t].chan in n.closed then Parked else Expiring)
  {
    assert Follows(r, j);
    hide Init;
  }

  /** The body of a timer runs: one that expired ends the holdover of its master with one FREERUN event
      exactly if the master is then still in holdover and has an alias, and else does nothing to it. */
  lemma ExpiredTimerEnds(r: Run, k: nat, t: nat)
    requires IsRun(r) && k < |r.inputs| && r.inputs[k] == HoldoverRun(t) && t < |r.states[k].holdovers|
    ensures
      var n, m, h := r.states[k], r.states[k + 1], r.states[k].holdovers[t];
      var st := At(n, h.config, Master);
      var ends := h.status == Expiring && st.state == Holdover && st.alias != "";
      && Adds(n, m, h.config, Master, if ends then [FreeRun] else [])
      && At(m, h.config, Master).state == (if ends then FreeRun else st.state)
      && (h.status == Expiring ==> |m.holdovers| == |n.holdovers| && m.holdovers[t] == h.(status := Over))
  {
    assert Follows(r, k);
    hide Init, At, Announce, KeyEvents;
    var n, h := r.states[k], r.states[k].holdovers[t];
    if h.status == Expiring {
      var c := h.config;
      var over := SetHoldover(n, t, Over);
      var m := over.(stats := over.stats[c := StatsOf(over.stats, c)]);
      SameStats(n, over);
      SameEntries(over, c);
      var noted := m.(trace := m.trace + [Expired(c)]);
      SameStats(m, noted);
      StreamSnoc(m.trace, Expired(c), c, Master);
      AnnounceAdds(noted, c, Master, FreeRun, At(m, c, Master).lastOffset, true);
    }
  }

  /** When a fault has put a master in holdover, and the clock of its timer runs out at j and its body
      runs at k, that ends the holdover, with one FREERUN event, exactly if nothing cancelled the timer
      up to j, the master is still in holdover at k, and an offset or a summary has named it by then. */
  lemma FaultEndsByTimer(r: Run, i: nat, j: nat, k: nat, c: ConfigName)
    requires IsRun(r) && Faults(r, i, c) && OwnEntries(r.states[0]) && i < j < k < |r.inputs|
    requires
      var t := |r.states[i].holdovers|;
      && r.inputs[j] == HoldoverFire(t) && r.inputs[k] == HoldoverRun(t)
      && forall l :: i < l < k && l != j ==> r.inputs[l] != HoldoverFire(t) && r.inputs[l] != HoldoverRun(t)
    ensures
      var n, m := r.states[k], r.states[k + 1];
      var profile := ConfigOf(r.states[i + 1], c).profile;
      var ends := && !Cancelled(r.states[i + 1], r.states[j], profile)
                  && At(n, c, Master).state == Holdover && LastName(r, k, c) != "";
      && Adds(n, m, c, Master, if ends then [FreeRun] else [])
      && At(m, c, Master).state == (if ends then FreeRun else At(n, c, Master).state)
  {
    hide Init, Step, OwnEntries, Cancelled, ConfigOf, Faults, At, LastName, Adds, Has;
    var t := |r.states[i].holdovers|;
    FaultStartsTimer(r, i, c);
    FreshTimer(r.states[i], r.states[i + 1], c);
    OpenUnlessCancelled(r, i + 1, j, t);
    TimerWaits(r, i + 1, j, t);
    TimerFires(r, j, t);
    TimerWaits(r, j + 1, k, t);
    ExpiredTimerEnds(r, k, t);
    AliasIsLastName(r, k, c);
  }

  lemma FreshTimer(n: Node, m: Node, c: ConfigName)
    requires Fresh(n, m, c)
    ensures
      var t, p := |n.holdovers|, ConfigOf(m, c).profile;
      && t < |m.holdovers| && m.holdovers[t].chan !in m.closed
      && m.holdovers[t] == HoldoverTimer(c, Some(p), m.holdovers[t].chan, Parked)
  {
  }

  // ----- Everything that ends a holdover

  /** What may end the holdover of a master: the body of a timer that expired, if the master has an
      alias; an offset of the master; the death of the process its offsets come from; and under T-BC a
      port line. */
  predicate MayEnd(n: Node, input: Input, c: ConfigName) {
    match input
    case HoldoverRun(t) =>
      t < |n.holdovers| && n.holdovers[t].config == c && n.holdovers[t].status == Expiring && Alias(n, c) != ""
    case Line(d, log) =>
      d == c && match log {
        case ProcessStatus(process, up) => !up && process != Ts2phc && process == n.offsetSource
        case Phc2sysLog(line) => line.sample.Some? && line.sample.value.iface == Master
        case OffsetLog(_, sample) => sample.iface == Master
        case PortLog(_, _, _) => ConfigOf(n, c).ptype == Tbc
        case _ => false
      }
    case _ => false
  }

  /** While none of these comes a master stays in holdover, and nothing is published for it, however
      many timers are started, cancelled or run. */
  lemma {:induction false} HoldoverStays(r: Run, i: nat, j: nat, c: ConfigName)
    requires IsRun(r) && i <= j <= |r.inputs| && At(r.states[i], c, Master).state == Holdover
    requires forall l :: i <= l < j ==> !MayEnd(r.states[l], r.inputs[l], c)
    ensures At(r.states[j], c, Master).state == Holdover && Adds(r.states[i], r.states[j], c, Master, [])
    decreases j
  {
    hide Init, Step, At, Has, Adds, MayEnd, Unread;
    if i < j {
      HoldoverStays(r, i, j - 1, c);
      HoldoverStep(r, j - 1, c);
      NothingAdded(r.states[i], r.states[j - 1], r.states[j], c, Master);
    } else {
      UnreadSelf(r.states[i], c, Master);
      UnreadAdds(r.states[i], r.states[i], c, Master);
    }
  }

  lemma HoldoverStep(r: Run, l: nat, c: ConfigName)
    requires IsRun(r) && l < |r.inputs|
    requires At(r.states[l], c, Master).state == Holdover && !MayEnd(r.states[l], r.inputs[l], c)
    ensures At(r.states[l + 1], c, Master).state == Holdover && Adds(r.states[l], r.states[l + 1], c, Master, [])
  {
    hide Init, Step, At, Has, Adds, Unread, OneTimer, Dispatch, Accepts;
    assert Follows(r, l);
    var n, m, input := r.states[l], r.states[l + 1], r.inputs[l];
    if !Touches(n, input, c, Master) {
      StepApart(n, input, c, Master);
      UnreadAdds(n, m, c, Master);
      SameState(n, m, c, Master);
    } else if input.HoldoverRun? {
      ExpiredTimerEnds(r, l, input.timer);
    } else if Accepts(ConfigOf(n, c), input.log) {
      if input.log.PortLog? {
        PortInHoldover(r, l, c, input.log.id, input.log.role, input.log.fault);
      } else {
        var led := LineStep(r, l, c, input.log);
        DispatchesSummary(led, c, input.log);
        SummaryUnread(led, c, input.log.source, input.log.clock);
        StatusClocks.SameStart(n, led, m, c, Master);
      }
    } else {
      Refused(r, l, c, input.log, Master);
      UnreadAdds(n, m, c, Master);
      SameState(n, m, c, Master);
    }
  }

  lemma DispatchesSummary(n: Node, c: ConfigName, log: LogLine)
    requires log.SummaryLog?
    ensures Dispatch(n, c, log) == SummaryLine(n, c, log.source, log.clock)
  {
    hide ProcessDown, ClockStatus, ChronydLine, Selection, OffsetSample, PortLine, DeviceLine, SummaryLine, CheckSource;
  }

  lemma SummaryUnread(n: Node, c: ConfigName, source: Process, clock: Summary)
    ensures
      var m := SummaryLine(n, c, source, clock);
      At(m, c, Master).state == At(n, c, Master).state && Adds(n, m, c, Master, [])
  {
    hide SetStat, At, Has, SlaveName;
  }

  lemma PortInHoldover(r: Run, l: nat, c: ConfigName, id: nat, role: Role, fault: bool)
    requires IsRun(r) && l < |r.inputs| && r.inputs[l] == Line(c, PortLog(id, role, fault))
    requires Accepts(ConfigOf(r.states[l], c), r.inputs[l].log)
    requires ConfigOf(r.states[l], c).ptype != Tbc && At(r.states[l], c, Master).state == Holdover
    ensures
      var n, m := r.states[l], r.states[l + 1];
      At(m, c, Master).state == Holdover && Adds(n, m, c, Master, [])
  {
    hide IsRun, At, Has, LosesSlave, MovesRoles;
    RunHasStates(r, l);
    if p: nat :| Notes(ConfigOf(r.states[l], c).ports, id, role, p) {
      PortLineMoves(r, l, c, id, role, fault, p);
    } else {
      PortLineIgnored(r, l, c, id, role, fault);
    }
  }

  // ----- Where timers come from

  /** Every timer was started by a port line that put its master in holdover: a holdover that a sample
      reports has none. */
  lemma {:induction false} TimersComeFromFaults(r: Run, j: nat, t: nat) returns (i: nat)
    requires IsRun(r) && j <= |r.inputs| && t < |r.states[j].holdovers|
    ensures i < j && Faults(r, i, r.states[j].holdovers[t].config) && |r.states[i].holdovers| == t
    decreases j
  {
    i := 0;
    if j == 0 {
      assert false;
    } else {
      hide Init, Step, Faults;
      var n, m := r.states[j - 1], r.states[j];
      if t < |n.holdovers| {
        SameOwner(r, j - 1, t);
        i := TimersComeFromFaults(r, j - 1, t);
      } else {
        i := j - 1;
        NewTimer(r, i);
      }
    }
  }

  lemma SameOwner(r: Run, l: nat, t: nat)
    requires IsRun(r) && l < |r.inputs| && t < |r.states[l].holdovers|
    ensures t < |r.states[l + 1].holdovers|
    ensures r.states[l + 1].holdovers[t].config == r.states[l].holdovers[t].config
  {
    if r.inputs[l] != HoldoverFire(t) && r.inputs[l] != HoldoverRun(t) {
      OtherInput(r, l, t);
    } else {
      assert Follows(r, l);
      hide Init, HoldoverRuns;
      RunsKeepOwners(r.states[l], t);
    }
  }

  lemma RunsKeepOwners(n: Node, t: nat)
    requires t < |n.holdovers|
    ensures |HoldoverRuns(n, t).holdovers| == |n.holdovers|
    ensures HoldoverRuns(n, t).holdovers[t].config == n.holdovers[t].config
    ensures HoldoverRuns(n, t).closed == n.closed
  {
    hide Announce, At, StatsOf;
    SetHoldoverFrame(n, t, Over);
  }

  lemma NewTimer(r: Run, i: nat)
    requires IsRun(r) && i < |r.inputs| && |r.states[i + 1].holdovers| > |r.states[i].holdovers|
    ensures r.inputs[i].Line? && Faults(r, i, r.inputs[i].config)
    ensures
      var n, m := r.states[i], r.states[i + 1];
      |m.holdovers| == |n.holdovers| + 1 && m.holdovers[|n.holdovers|].config == r.inputs[i].config
  {
    hide Init, Step, Unread, At, Has, Dispatch, PortLine, OneTimer, Accepts;
    assert Follows(r, i);
    var n, input := r.states[i], r.inputs[i];
    var d := if input.Line? then input.config + "'" else "";
    assert input.Line? ==> |d| != |input.config|;
    StepApart(n, input, d, GmClock);
    SameCount(n, r.states[i + 1], input);
    if Accepts(ConfigOf(n, input.config), input.log) {
      PortStarts(r, i, input.config, input.log.id, input.log.role, input.log.fault);
    } else {
      Refused(r, i, input.config, input.log, Master);
    }
  }

  lemma PortStarts(r: Run, i: nat, c: ConfigName, id: nat, role: Role, fault: bool)
    requires IsRun(r) && i < |r.inputs| && r.inputs[i] == Line(c, PortLog(id, role, fault))
    requires Accepts(ConfigOf(r.states[i], c), r.inputs[i].log)
    requires |r.states[i + 1].holdovers| > |r.states[i].holdovers|
    ensures
      var n, m := r.states[i], r.states[i + 1];
      && |m.holdovers| == |n.holdovers| + 1 && m.holdovers[|n.holdovers|].config == c
      && At(n, c, Master).state != Holdover && At(m, c, Master).state == Holdover
  {
    hide IsRun, At, Has, LosesSlave, MovesRoles;
    RunHasStates(r, i);
    if p: nat :| Notes(ConfigOf(r.states[i], c).ports, id, role, p) {
      PortLineMoves(r, i, c, id, role, fault, p);
    } else {
      PortLineIgnored(r, i, c, id, role, fault);
    }
  }

  lemma SameCount(n: Node, m: Node, input: Input)
    requires |m.holdovers| > |n.holdovers|
    requires input.HoldoverFire? || input.HoldoverRun? ==> OneTimer(n, m, input.timer)
    ensures !input.HoldoverFire? && !input.HoldoverRun?
  {
  }

  /** A config whose ports put no master in holdover has no timer, in whatever state its master is. */
  lemma NoFaultNoTimer(r: Run, j: nat, c: ConfigName)
    requires IsRun(r) && j <= |r.inputs| && forall i :: 0 <= i < j ==> !Faults(r, i, c)
    ensures forall t :: 0 <= t < |r.states[j].holdovers| ==> r.states[j].holdovers[t].config != c
  {
    hide Init, Step, Faults;
    forall t | 0 <= t < |r.states[j].holdovers| ensures r.states[j].holdovers[t].config != c {
      var i := TimersComeFromFaults(r, j, t);
    }
  }

  /** Yet an offset line may say holdover, as one of ts2phc does outright, and one of another process
      that breaks off before the delay. It puts the master in holdover and starts no timer. */
  lemma SampleHoldover(r: Run, i: nat, c: ConfigName, source: Process, offset: Int64, p: nat)
    requires IsRun(r) && i < |r.inputs| && r.inputs[i] == Line(c, OffsetLog(source, Sample(Master, offset, Holdover)))
    requires Serves(r.states[i], c)
    requires
      var n, ports := r.states[i], ConfigOf(r.states[i], c).ports;
      source == Ts2phc || (FirstSlave(ports, p) && ports[p].name != "" && n.gmState != FreeRun)
    ensures At(r.states[i + 1], c, Master).state == Holdover
    ensures r.states[i + 1].holdovers == r.states[i].holdovers
  {
    hide Init, Step, Unread, At, Has, Dispatch, OffsetSample, OneTimer, Accepts;
    assert Follows(r, i);
    StepApart(r.states[i], r.inputs[i], c, GmClock);
    ServesAccepts(r.states[i], c, r.inputs[i].log);
    if source != Ts2phc {
      SlaveNameIsFirst(ConfigOf(r.states[i], c).ports, p);
    }
    var led := LineStep(r, i, c, r.inputs[i].log);
    DispatchesOffset(led, c, r.inputs[i].log);
    SampleHolds(led, c, source, offset);
  }

  lemma SampleHolds(n: Node, c: ConfigName, source: Process, offset: Int64)
    requires source == Ts2phc || (SlaveName(ConfigOf(n, c).ports) != "" && n.gmState != FreeRun)
    ensures At(OffsetSample(n, c, source, Sample(Master, offset, Holdover)), c, Master).state == Holdover
  {
    hide SetStat, CheckSource, MasterSample, At, SlaveName;
    var led := Lead(n, c, source);
    var known := CheckSource(led, c, Master, source);
    MasterHolds(SetStat(known, c, Master, At(known, c, Master).(process := source)), c, source, offset);
  }

  lemma MasterHolds(n: Node, c: ConfigName, source: Process, offset: Int64)
    requires source == Ts2phc || SlaveName(ConfigOf(n, c).ports) != ""
    ensures At(MasterSample(n, c, source, offset, Holdover), c, Master).state == Holdover
  {
    hide SetStat, Gen, Announce, At, SlaveName;
  }
}
