/** The lines of phc2sys and the discipline machine: which line makes which call, and what that does to E3. */
module Selections {
  import opened SyncStates
  import opened Int64s
  import opened Options
  import opened OsClock
  import opened Engine
  import opened EventTrace
  import opened Elsewhere
  import opened Samples
  import opened E3Clock
  import opened E1Clock
  import Steps
  import E3Table

  // ----- What a line selects, by its tokens

  /** The first "selecting" is followed by this clock and "for synchronization"; the system clock is
      CLOCK_REALTIME. */
  predicate SelectsAt(fields: seq<string>, i: nat, clock: string) {
    && i < |fields| && fields[i] == "selecting" && "selecting" !in fields[..i]
    && (|| [clock, "for", "synchronization"] <= fields[i + 1..]
        || (clock == "CLOCK_REALTIME" && ["system", "clock", "for", "synchronization"] <= fields[i + 1..]))
  }

  ghost predicate Selects(fields: seq<string>, clock: string) {
    exists i: nat :: SelectsAt(fields, i, clock)
  }

  lemma SelectedByTokens(fields: seq<string>, clock: string)
    ensures SelectedClock(fields) == Some(clock) <==> Selects(fields, clock)
  {
    var i := IndexOf(fields, "selecting");
    if i >= 0 {
      assert fields[i] == "selecting" && "selecting" !in fields[..i];
      forall j: nat | SelectsAt(fields, j, clock) ensures j == i {
      }
      var rest := fields[i + 1..];
      assert forall k :: 0 <= k < |rest| ==> rest[k] == fields[i + 1 + k];
      if SelectedClock(fields) == Some(clock) {
        assert SelectsAt(fields, i, clock);
      }
      if SelectsAt(fields, i, clock) {
        if [clock, "for", "synchronization"] <= rest {
          assert rest[0] == clock && rest[1] == "for" && rest[2] == "synchronization";
        } else {
          assert rest[0] == "system" && rest[1] == "clock" && rest[2] == "for" && rest[3] == "synchronization";
        }
      }
    } else {
      assert forall j :: 0 <= j < |fields| ==> fields[j] != "selecting";
    }
  }

  // ----- The machine

  function Os(n: Node, c: ConfigName): (d: Discipline) {
    At(n, c, ClockRealtime).os
  }

  predicate Open(d: Discipline) {
    d.phase == Selecting || d.phase == SourceSelected
  }

  /** The line says that the selection has been made, or goes on with an offset. */
  predicate Finalises(l: Phc2sysLine) {
    !l.reconfiguring && !l.waiting && !l.sourceClock && (l.alreadySelected || l.hasOffset)
  }

  /** It carries an offset of CLOCK_REALTIME, which is then processed. */
  predicate Clears(l: Phc2sysLine) {
    Finalises(l) && l.hasOffset && l.sample.Some? && l.sample.value.iface == ClockRealtime
  }

  /** It speaks of nothing but what is selected. */
  predicate SelectsOnly(l: Phc2sysLine) {
    !l.reconfiguring && !l.waiting && !l.sourceClock && !l.alreadySelected && !l.hasOffset
  }

  /** The phase after a line, and the calls that it makes. */
  ghost predicate Moves(l: Phc2sysLine, d: Discipline, e: Discipline) {
    if l.reconfiguring then
      e.phase == Selecting && e.log == d.log + [Begin]
    else if l.waiting then
      if Open(d) then e.phase == Idle && e.log == d.log + [Abort] else e == d
    else if l.sourceClock then
      e.phase == d.phase && e.log == d.log + [ReArm]
    else if Finalises(l) then
      var names := l.hasOffset && l.namesRealtime;
      && e.log == d.log + (if !Open(d) then [] else if names then [Abort] else [Finalise])
                  + (if Clears(l) then [ClearOnRealtimeOffset] else [])
      && e.phase == (if Clears(l) || d.phase == Selecting || (d.phase == SourceSelected && names) then Idle
                     else if d.phase == SourceSelected then Undisciplined
                     else d.phase)
    else if Selects(l.fields, "CLOCK_REALTIME") then
      e.phase == Idle && e.log == d.log + [SinkClock]
    else if Open(d) && exists clock :: Selects(l.fields, clock) then
      e.phase == SourceSelected && e.log == d.log + [SourceClock]
    else e == d
  }

  /** The selection ends with the source and without CLOCK_REALTIME. */
  predicate EndsOnSource(l: Phc2sysLine, d: Discipline) {
    Finalises(l) && d.phase == SourceSelected && !(l.hasOffset && l.namesRealtime)
  }

  /** chronyd may steer the clock. */
  predicate ChronydMay(n: Node, c: ConfigName) {
    var profile := ConfigOf(n, c).profile;
    profile != "" && profile in n.opts && n.opts[profile].chronyd
  }

  lemma CheckedOs(n: Node, c: ConfigName)
    ensures
      var m := CheckSource(n, c, ClockRealtime, Phc2sys);
      && Os(m, c) == Os(n, c) && Has(m, c, ClockRealtime) && Stays(n, m, c)
      && m == n.(stats := m.stats)
  {
    hide CheckSource;
  }

  lemma CalledOs(n: Node, c: ConfigName, op: Op)
    ensures
      var m := OnOsClock(n, c, op);
      Os(m, c) == Apply(Os(n, c), op) && Stays(n, m, c) && m == n.(stats := m.stats) && Has(m, c, ClockRealtime)
  {
    hide SetStat, At, Has, Apply, E3Events;
  }

  /** Finalise or a settle callback. */
  lemma SettledOs(n: Node, c: ConfigName, op: Op)
    ensures
      var m := Settle(n, c, op);
      var news := Activates(Os(n, c), op) && !ChronydMay(n, c);
      && Os(m, c) == Apply(Os(n, c), op)
      && Becomes(n, m, c, if news then FreeRun else At(n, c, ClockRealtime).state)
  {
    hide At, Has, OnOsClock, Gen, Becomes, Activates, Apply;
    var m := OnOsClock(n, c, op);
    CalledOs(n, c, op);
    if Activates(Os(n, c), op) && !ChronydMay(n, c) {
      GenBecomes(m, c, FREE_RUN_OFFSET, FreeRun);
      StaysThen(n, m, Settle(n, c, op), c, FreeRun);
    }
  }

  ghost function CallOf(l: Phc2sysLine, d: Discipline): (call: Option<Op>) {
    if l.reconfiguring then Some(Begin)
    else if l.waiting then if Open(d) then Some(Abort) else None
    else if l.sourceClock then Some(ReArm)
    else if Finalises(l) then
      if !Open(d) then None else if l.hasOffset && l.namesRealtime then Some(Abort) else Some(Finalise)
    else if Selects(l.fields, "CLOCK_REALTIME") then Some(SinkClock)
    else if Open(d) && exists clock :: Selects(l.fields, clock) then Some(SourceClock)
    else None
  }

  lemma CheckedOnce(n: Node, c: ConfigName)
    requires Has(n, c, ClockRealtime)
    ensures CheckSource(n, c, ClockRealtime, Phc2sys) == n
  {
  }

  lemma CallsWhenChecked(n: Node, c: ConfigName, l: Phc2sysLine)
    requires Has(n, c, ClockRealtime)
    ensures
      var d, m := Os(n, c), Selection(n, c, l);
      && Os(m, c) == (if CallOf(l, d).Some? then Apply(d, CallOf(l, d).value) else d)
      && Becomes(n, m, c, if EndsOnSource(l, d) && !ChronydMay(n, c) then FreeRun else At(n, c, ClockRealtime).state)
  {
    hide CheckSource, OnOsClock, Settle, At, Has, Becomes, SelectedClock, Selects, Apply, CallOf;
    CheckedOnce(n, c);
    SameIsStays(n, n, c);
    CallIsMade(n, c, l);
    var call := CallOf(l, Os(n, c));
    if call == Some(Finalise) {
      SettledOs(n, c, Finalise);
    } else if call.Some? {
      CalledOs(n, c, call.value);
    }
    FinaliseActivates(l, Os(n, c));
  }

  lemma CallIsMade(n: Node, c: ConfigName, l: Phc2sysLine)
    requires CheckSource(n, c, ClockRealtime, Phc2sys) == n
    ensures
      var call := CallOf(l, Os(n, c));
      Selection(n, c, l) == match call {
        case None => n
        case Some(op) => if op == Finalise then Settle(n, c, Finalise) else OnOsClock(n, c, op)
      }
  {
    hide CheckSource, OnOsClock, Settle, At, SelectedClock, Selects;
    forall clock ensures SelectedClock(l.fields) == Some(clock) <==> Selects(l.fields, clock) {
      SelectedByTokens(l.fields, clock);
    }
    if SelectedClock(l.fields).Some? {
      assert Selects(l.fields, SelectedClock(l.fields).value);
    }
  }

  lemma FinaliseActivates(l: Phc2sysLine, d: Discipline)
    ensures CallOf(l, d) == Some(Finalise) && Activates(d, Finalise) <==> EndsOnSource(l, d)
  {
    hide Selects;
  }

  lemma SelectionCalls(n: Node, c: ConfigName, l: Phc2sysLine)
    ensures
      var d, m := Os(n, c), Selection(n, c, l);
      && Os(m, c) == (if CallOf(l, d).Some? then Apply(d, CallOf(l, d).value) else d)
      && Becomes(n, m, c, if EndsOnSource(l, d) && !ChronydMay(n, c) then FreeRun else At(n, c, ClockRealtime).state)
  {
    hide CheckSource, OnOsClock, Settle, At, Has, Becomes, SelectedClock, Selects, Apply;
    var checked, d := CheckSource(n, c, ClockRealtime, Phc2sys), Os(n, c);
    CheckedOs(n, c);
    CheckedOnce(checked, c);
    CallsWhenChecked(checked, c, l);
    KeepsState(n, checked, c);
    StaysThen(n, checked, Selection(n, c, l), c,
              if EndsOnSource(l, d) && !ChronydMay(n, c) then FreeRun else At(n, c, ClockRealtime).state);
  }

  // ----- Offsets

  lemma OffsetCalls(n: Node, c: ConfigName, source: Process, s: Sample)
    ensures
      var d, m := Os(n, c), OffsetSample(n, c, source, s);
      && Os(m, c) == (if source == Phc2sys && s.iface == ClockRealtime then Apply(d, ClearOnRealtimeOffset) else d)
      && (s.iface != ClockRealtime ==> Stays(n, m, c))
  {
    hide OffsetSample, At, Unread, E3Events, Apply;
    var m := OffsetSample(n, c, source, s);
    if s.iface != ClockRealtime {
      OffsetApart(n, c, source, s, c, ClockRealtime);
      UnreadOs(n, m, c);
      UnreadStays(n, m, c);
    } else {
      RealtimeCalls(n, c, source, s);
    }
  }

  lemma UnreadOs(n: Node, m: Node, c: ConfigName)
    requires Unread(n, m, c, ClockRealtime)
    ensures Os(m, c) == Os(n, c)
  {
  }

  lemma RealtimeCalls(n: Node, c: ConfigName, source: Process, s: Sample)
    requires s.iface == ClockRealtime
    ensures Os(OffsetSample(n, c, source, s), c)
         == if source == Phc2sys then Apply(Os(n, c), ClearOnRealtimeOffset) else Os(n, c)
  {
    hide At, Has, SetStat, CheckSource, OnOsClock, RealtimeSample, Apply, Lead, Servo;
    var checked := CheckSource(n, c, ClockRealtime, Phc2sys);
    CheckedOs(n, c);
    CalledOs(checked, c, ClearOnRealtimeOffset);
    var cleared := if source == Phc2sys then OnOsClock(checked, c, ClearOnRealtimeOffset) else n;
    var led := Lead(cleared, c, source);
    LeadOs(cleared, c, source);
    var known := CheckSource(led, c, ClockRealtime, source);
    CheckedBy(led, c, source);
    var m := SetStat(known, c, ClockRealtime, At(known, c, ClockRealtime).(process := source));
    OwnedOs(known, c, source);
    E3Table.SampleFrame(m, c, s.offset, Servo(n, source, s.state));
  }

  lemma LeadOs(n: Node, c: ConfigName, source: Process)
    ensures Os(Lead(n, c, source), c) == Os(n, c)
  {
    hide SetStat, CheckSource;
  }

  lemma CheckedBy(n: Node, c: ConfigName, source: Process)
    ensures Os(CheckSource(n, c, ClockRealtime, source), c) == Os(n, c)
  {
    hide CheckSource;
  }

  lemma OwnedOs(n: Node, c: ConfigName, source: Process)
    ensures Os(SetStat(n, c, ClockRealtime, At(n, c, ClockRealtime).(process := source)), c) == Os(n, c)
  {
    hide SetStat;
  }

  // ----- The lines of a run

  /** In every run a phc2sys line moves the machine by this table, and unless it carries an offset of
      CLOCK_REALTIME, it makes E3 FREERUN exactly if it ends a window on its source and chronyd may not steer
      the clock, with an event if E3 was in another state. */
  lemma LineMoves(r: Run, i: nat, c: ConfigName, l: Phc2sysLine)
    requires IsRun(r) && i < |r.inputs| && r.inputs[i] == Line(c, Phc2sysLog(l)) && Serves(r.states[i], c)
    ensures
      var n, m := r.states[i], r.states[i + 1];
      && Moves(l, Os(n, c), Os(m, c))
      && (!Clears(l) ==>
            Becomes(n, m, c, if EndsOnSource(l, Os(n, c)) && !ChronydMay(n, c) then FreeRun
                             else At(n, c, ClockRealtime).state))
  {
    hide IsRun, Dispatch, At, Has, Moves, Becomes, Selection, OffsetSample, CallOf, ChronydMay, EndsOnSource, Apply;
    RunHasStates(r, i);
    var n, m := r.states[i], r.states[i + 1];
    var led := LineStep(r, i, c, Phc2sysLog(l));
    SameIsStays(n, led, c);
    SameChronyd(n, led, c);
    var selected := Selection(led, c, l);
    SelectionCalls(led, c, l);
    var s := if EndsOnSource(l, Os(n, c)) && !ChronydMay(n, c) then FreeRun else At(n, c, ClockRealtime).state;
    StaysThen(n, led, selected, c, s);
    SelectionDispatch(led, c, l);
    if Continues(l) && l.sample.Some? {
      OffsetCalls(selected, c, Phc2sys, l.sample.value);
      if !Clears(l) {
        ThenStays(n, selected, m, c, s);
      }
    }
    CallsMove(l, Os(n, c));
  }

  lemma SameChronyd(n: Node, m: Node, c: ConfigName)
    requires m.configs == n.configs && m.opts == n.opts
    ensures ChronydMay(m, c) == ChronydMay(n, c)
  {
  }

  lemma SelectionDispatch(n: Node, c: ConfigName, l: Phc2sysLine)
    ensures
      var m := Selection(n, c, l);
      Dispatch(n, c, Phc2sysLog(l))
      == if Continues(l) && l.sample.Some? then OffsetSample(m, c, Phc2sys, l.sample.value) else m
  {
    hide Selection, OffsetSample;
  }

  lemma CallsMove(l: Phc2sysLine, d: Discipline)
    ensures
      var e := if CallOf(l, d).Some? then Apply(d, CallOf(l, d).value) else d;
      && (Clears(l) ==> Moves(l, d, Apply(e, ClearOnRealtimeOffset)))
      && (!Clears(l) ==> Moves(l, d, e))
  {
    hide Selects;
  }

  // ----- Settle timers

  /** The callback of this timer is on its way, and captured the generation in force. */
  predicate Decides(d: Discipline, t: nat) {
    t < |d.timers| && d.timers[t].status == InFlight && d.timers[t].generation == d.selectGen
  }

  /** A settle callback of the generation in force ends an open window: with the source, and then E3 is FREERUN
      unless chronyd may steer the clock, or without anything. No other changes the phase or E3. */
  lemma SettleMoves(r: Run, i: nat, c: ConfigName, t: nat)
    requires IsRun(r) && i < |r.inputs| && r.inputs[i] == SettleRun(c, t)
    ensures
      var n, m := r.states[i], r.states[i + 1];
      var d := Os(n, c);
      && Os(m, c).log == d.log + (if t < |d.timers| && d.timers[t].status == InFlight then [Callback(t)] else [])
      && Os(m, c).phase == (if !Decides(d, t) || !Open(d) then d.phase
                            else if d.phase == SourceSelected then Undisciplined else Idle)
      && Becomes(n, m, c, if Decides(d, t) && d.phase == SourceSelected && !ChronydMay(n, c) then FreeRun
                          else At(n, c, ClockRealtime).state)
  {
    assert Follows(r, i);
    hide Init, At, Becomes, Settle, ChronydMay, Apply;
    var n := r.states[i];
    SettledOs(n, c, Callback(t));
    SameIsStays(n, n, c);
    CallbackMoves(Os(n, c), t);
    WaitsIfInFlight(n, c, t);
    Logged(Os(n, c), Callback(t));
  }

  lemma Logged(d: Discipline, op: Op)
    ensures Apply(d, op).log == d.log + [op]
  {
    hide Effect;
  }

  lemma CallbackMoves(d: Discipline, t: nat)
    ensures
      && Apply(d, Callback(t)).phase == (if !Decides(d, t) || !Open(d) then d.phase
                                         else if d.phase == SourceSelected then Undisciplined else Idle)
      && (Activates(d, Callback(t)) <==> Decides(d, t) && d.phase == SourceSelected)
  {
  }

  lemma WaitsIfInFlight(n: Node, c: ConfigName, t: nat)
    ensures CallbackWaits(n, c, t) <==> t < |Os(n, c).timers| && Os(n, c).timers[t].status == InFlight
  {
  }

  /** A timer that goes off changes neither; its callback is on its way if it was armed. */
  lemma FireMoves(r: Run, i: nat, c: ConfigName, t: nat)
    requires IsRun(r) && i < |r.inputs| && r.inputs[i] == SettleFire(c, t)
    ensures
      var n, m := r.states[i], r.states[i + 1];
      && Os(m, c).phase == Os(n, c).phase && Stays(n, m, c)
      && Os(m, c).timers == SetStatus(Os(n, c).timers, t, Armed, InFlight)
  {
    assert Follows(r, i);
    hide Init, At, Becomes, OnOsClock, Has;
    NoStatsNoTimers(r.states[i], c);
    CalledOs(r.states[i], c, Fire(t));
    SameIsStays(r.states[i], r.states[i], c);
  }

  lemma NoStatsNoTimers(n: Node, c: ConfigName)
    ensures !Has(n, c, ClockRealtime) ==> Os(n, c).timers == []
  {
  }

  // ----- All other inputs leave the machine alone

  /** An offset line in which phc2sys reports CLOCK_REALTIME. */
  predicate RealtimeOffsetLog(log: LogLine) {
    log.OffsetLog? && log.source == Phc2sys && log.sample.iface == ClockRealtime
  }

  predicate Concerns(n: Node, input: Input, c: ConfigName) {
    match input
    case Line(d, log) => d == c && Serves(n, c) && (log.Phc2sysLog? || RealtimeOffsetLog(log))
    case SettleFire(d, _) => d == c
    case SettleRun(d, _) => d == c
    case _ => false
  }

  lemma OthersKeepOs(r: Run, i: nat, c: ConfigName)
    requires IsRun(r) && i < |r.inputs| && !Concerns(r.states[i], r.inputs[i], c)
    ensures Os(r.states[i + 1], c) == Os(r.states[i], c)
  {
    assert Follows(r, i);
    hide Init, Step, Unread, Dispatch, At;
    var n, m, input := r.states[i], r.states[i + 1], r.inputs[i];
    if !Touches(n, input, c, ClockRealtime) {
      StepApart(n, input, c, ClockRealtime);
      UnreadOs(n, m, c);
    } else if input.log.ProcessStatus? {
      DeathKeepsOs(r, i, c, input.log.process);
    } else if !Accepts(ConfigOf(n, c), input.log) {
      RefusedOs(r, i, c, input.log);
    } else {
      var led := LineStep(r, i, c, input.log);
      LineKeepsOs(led, c, input.log);
    }
  }

  lemma RefusedOs(r: Run, i: nat, c: ConfigName, log: LogLine)
    requires IsRun(r) && i < |r.inputs| && r.inputs[i] == Line(c, log) && !log.ProcessStatus?
    requires !Accepts(ConfigOf(r.states[i], c), log)
    ensures i + 1 < |r.states| && Os(r.states[i + 1], c) == Os(r.states[i], c)
  {
    assert Follows(r, i);
    hide Init, Dispatch, At, Accepts;
    SameEntries(r.states[i], c);
  }

  lemma DeathKeepsOs(r: Run, i: nat, c: ConfigName, process: Process)
    requires IsRun(r) && i < |r.inputs| && r.inputs[i] == Line(c, ProcessStatus(process, false))
    requires process != Ts2phc
    ensures Os(r.states[i + 1], c) == Os(r.states[i], c)
  {
    assert Follows(r, i);
    hide Init, At, Has, TbcDown, MasterDown, RealtimeDown, Unread;
    var n := r.states[i];
    var m := n.(stats := n.stats[c := StatsOf(n.stats, c)]);
    SameEntries(n, c);
    var t := TbcDown(m, c, process);
    TbcDownApart(m, c, process, c, ClockRealtime);
    UnreadOs(m, t, c);
    MasterDownApart(t, c, c, ClockRealtime);
    UnreadOs(t, MasterDown(t, c), c);
    FallKeepsOs(t, c);
    FallKeepsOs(MasterDown(t, c), c);
  }

  lemma FallKeepsOs(n: Node, c: ConfigName)
    ensures Os(RealtimeDown(n, c), c) == Os(n, c)
  {
    hide Gen, At, Has, OptsOf;
  }

  lemma LineKeepsOs(n: Node, c: ConfigName, log: LogLine)
    requires log.ChronydStatus? || (log.OffsetLog? && !RealtimeOffsetLog(log))
    ensures Os(Dispatch(n, c, log), c) == Os(n, c)
  {
    hide OffsetSample, ChronydLine, At;
    if log.ChronydStatus? {
      ChronydKeepsOs(n, c, log.selected);
    } else {
      OffsetCalls(n, c, log.source, log.sample);
    }
  }

  lemma ChronydKeepsOs(n: Node, c: ConfigName, selected: Option<bool>)
    ensures Os(ChronydLine(n, c, selected), c) == Os(n, c)
  {
    hide Gen, SetStat, CheckSource;
  }

  lemma OffsetClears(r: Run, i: nat, c: ConfigName, log: LogLine)
    requires IsRun(r) && i < |r.inputs| && r.inputs[i] == Line(c, log) && Serves(r.states[i], c)
    requires RealtimeOffsetLog(log)
    ensures Os(r.states[i + 1], c).phase == Idle
  {
    hide IsRun, Dispatch, At, Has, OffsetSample, Effect;
    RunHasStates(r, i);
    var led := LineStep(r, i, c, log);
    DispatchesOffset(led, c, log);
    OffsetCalls(led, c, log.source, log.sample);
    ClearingIsIdle(Os(led, c));
  }

  lemma ClearingIsIdle(d: Discipline)
    ensures Apply(d, ClearOnRealtimeOffset).phase == Idle
  {
  }

  // ----- Windows, from end to end

  /** phc2sys begins to select anew. */
  predicate Reconfigures(n: Node, input: Input, c: ConfigName) {
    && input.Line? && input.config == c && Serves(n, c)
    && input.log.Phc2sysLog? && input.log.line.reconfiguring
  }

  /** It selects a clock and says nothing else. */
  ghost predicate SelectsClock(n: Node, input: Input, c: ConfigName, clock: string) {
    && input.Line? && input.config == c && Serves(n, c) && input.log.Phc2sysLog?
    && SelectsOnly(input.log.line) && Selects(input.log.line.fields, clock)
  }

  /** What the discipline machine handles, but for offsets of CLOCK_REALTIME, which E3 is derived from. */
  predicate Disciplines(n: Node, input: Input, c: ConfigName) {
    && Concerns(n, input, c)
    && (input.Line? ==> input.log.Phc2sysLog? && !Clears(input.log.line))
  }

  /** The input decides about an open window: a reconfiguration, a waiting line, the end of the selection, a
      selection or an offset of CLOCK_REALTIME, or a settle callback of the generation in force. */
  ghost predicate Closes(n: Node, input: Input, c: ConfigName) {
    && Concerns(n, input, c)
    && match input {
         case Line(_, log) =>
           log.Phc2sysLog? ==>
             var l := log.line;
             || l.reconfiguring || l.waiting || Finalises(l)
             || (SelectsOnly(l) && Selects(l.fields, "CLOCK_REALTIME"))
         case SettleRun(_, t) => Decides(Os(n, c), t)
         case _ => false
       }
  }

  /** One input: an idle machine stays so unless phc2sys reconfigures, and then nothing makes E3 FREERUN; one
      with a source stays so unless the input decides. */
  lemma MachineStep(r: Run, i: nat, c: ConfigName)
    requires IsRun(r) && i < |r.inputs|
    ensures
      var n, m, input := r.states[i], r.states[i + 1], r.inputs[i];
      var d, e := Os(n, c), Os(m, c);
      && (d.phase == Idle && !Reconfigures(n, input, c) ==> e.phase == Idle)
      && (d.phase == Idle && Disciplines(n, input, c) ==> Stays(n, m, c))
      && (d.phase == SourceSelected && !Closes(n, input, c) ==> e.phase == SourceSelected)
      && (d.phase == SourceSelected && !Closes(n, input, c) && Disciplines(n, input, c) ==> Stays(n, m, c))
      && (d.phase != Undisciplined && e.phase == Undisciplined ==> d.phase == SourceSelected && Closes(n, input, c))
  {
    hide IsRun, At, Becomes, Selects, Decides, ChronydMay;
    RunHasStates(r, i);
    var n, input := r.states[i], r.inputs[i];
    if !Concerns(n, input, c) {
      OthersKeepOs(r, i, c);
    } else {
      match input
      case SettleFire(_, t) => FireMoves(r, i, c, t);
      case SettleRun(_, t) => SettleMoves(r, i, c, t);
      case Line(_, log) =>
        if log.Phc2sysLog? {
          LineMoves(r, i, c, log.line);
        } else {
          OffsetClears(r, i, c, log);
        }
    }
  }

  lemma {:induction false} IdleStays(r: Run, i: nat, j: nat, c: ConfigName)
    requires IsRun(r) && i <= j <= |r.inputs| && j < |r.states| && Os(r.states[i], c).phase == Idle
    requires forall x :: i <= x < j ==> !Reconfigures(r.states[x], r.inputs[x], c)
    ensures Os(r.states[j], c).phase == Idle
    decreases j
  {
    hide IsRun, Os, Reconfigures, Becomes, Disciplines, Closes;
    if i < j {
      IdleStays(r, i, j - 1, c);
      MachineStep(r, j - 1, c);
    }
  }

  /** A window whose last selection is CLOCK_REALTIME publishes no FREERUN: from that line on, until phc2sys
      reconfigures, the machine is idle, and no further line or settle callback that it handles moves E3. */
  lemma SinkWindow(r: Run, i: nat, j: nat, c: ConfigName)
    requires IsRun(r) && i < j < |r.inputs| && SelectsClock(r.states[i], r.inputs[i], c, "CLOCK_REALTIME")
    requires forall x :: i < x < j ==> !Reconfigures(r.states[x], r.inputs[x], c)
    ensures Os(r.states[j], c).phase == Idle
    ensures Disciplines(r.states[j], r.inputs[j], c) ==> Stays(r.states[j], r.states[j + 1], c)
  {
    hide IsRun, Os, Selects, Becomes, Disciplines, Closes, Effect;
    RunHasStates(r, j);
    LineMoves(r, i, c, r.inputs[i].log.line);
    IdleStays(r, i + 1, j, c);
    MachineStep(r, j, c);
  }

  lemma {:induction false} SourceStays(r: Run, i: nat, j: nat, c: ConfigName)
    requires IsRun(r) && i <= j <= |r.inputs| && j < |r.states| && Os(r.states[i], c).phase == SourceSelected
    requires forall x :: i <= x < j ==> !Closes(r.states[x], r.inputs[x], c)
    ensures Os(r.states[j], c).phase == SourceSelected
    ensures forall x :: i <= x < j && Disciplines(r.states[x], r.inputs[x], c) ==>
      Stays(r.states[x], r.states[x + 1], c)
    decreases j
  {
    hide IsRun, Os, Reconfigures, Becomes, Disciplines, Closes;
    if i < j {
      SourceStays(r, i, j - 1, c);
      MachineStep(r, j - 1, c);
    }
  }

  /** A window with a source selected and not CLOCK_REALTIME publishes FREERUN for E3 once, when the selection
      ends or a settle callback of its generation comes, unless chronyd may steer the clock. Until an input
      decides about it nothing that the machine handles moves E3. */
  lemma SourceWindow(r: Run, i: nat, j: nat, c: ConfigName, clock: string)
    requires IsRun(r) && i < j < |r.inputs| && SelectsClock(r.states[i], r.inputs[i], c, clock)
    requires clock != "CLOCK_REALTIME" && Open(Os(r.states[i], c))
    requires forall x :: i < x < j ==> !Closes(r.states[x], r.inputs[x], c)
    ensures Os(r.states[j], c).phase == SourceSelected
    ensures forall x :: i < x < j && Disciplines(r.states[x], r.inputs[x], c) ==>
      Stays(r.states[x], r.states[x + 1], c)
    ensures
      var n, m, input := r.states[j], r.states[j + 1], r.inputs[j];
      Concludes(n, input, c) ==>
        && Os(m, c).phase == Undisciplined
        && Becomes(n, m, c, if ChronydMay(n, c) then At(n, c, ClockRealtime).state else FreeRun)
  {
    hide IsRun, Selects, Becomes, Disciplines, Closes, Effect, At, ChronydMay, Decides;
    RunHasStates(r, j);
    SelectsOne(r.inputs[i].log.line.fields, clock);
    LineMoves(r, i, c, r.inputs[i].log.line);
    SourceStays(r, i + 1, j, c);
    var input := r.inputs[j];
    if Concludes(r.states[j], input, c) {
      if input.Line? {
        LineMoves(r, j, c, input.log.line);
      } else {
        SettleMoves(r, j, c, input.timer);
      }
    }
  }

  /** The line that the selection has been made, or goes on with the offset of another clock than
      CLOCK_REALTIME; or a settle callback of the generation in force. */
  predicate Concludes(n: Node, input: Input, c: ConfigName) {
    match input
    case Line(d, log) =>
      && d == c && Serves(n, c) && log.Phc2sysLog? && Finalises(log.line)
      && !(log.line.hasOffset && log.line.namesRealtime) && !Clears(log.line)
    case SettleRun(d, t) => d == c && Decides(Os(n, c), t)
    case _ => false
  }

  lemma SelectsOne(fields: seq<string>, clock: string)
    requires Selects(fields, clock)
    ensures forall other :: Selects(fields, other) ==> other == clock
  {
    hide Selects, SelectedClock;
    forall other | Selects(fields, other) ensures other == clock {
      SelectedByTokens(fields, clock);
      SelectedByTokens(fields, other);
    }
  }

  /** And by nothing else: an input that makes the clock undisciplined ends a window on its source, and makes E3
      FREERUN unless chronyd may steer the clock. */
  lemma UndisciplinedByEnd(r: Run, i: nat, c: ConfigName)
    requires IsRun(r) && i < |r.inputs|
    requires Os(r.states[i], c).phase != Undisciplined && Os(r.states[i + 1], c).phase == Undisciplined
    ensures
      var n, m := r.states[i], r.states[i + 1];
      && Os(n, c).phase == SourceSelected && Concludes(n, r.inputs[i], c)
      && Becomes(n, m, c, if ChronydMay(n, c) then At(n, c, ClockRealtime).state else FreeRun)
  {
    hide IsRun, Selects, Becomes, At, ChronydMay, Decides;
    RunHasStates(r, i);
    MachineStep(r, i, c);
    match r.inputs[i]
    case SettleRun(_, t) => SettleMoves(r, i, c, t);
    case Line(_, log) =>
      if log.Phc2sysLog? {
        LineMoves(r, i, c, log.line);
      } else {
        OffsetClears(r, i, c, log);
      }
  }
}
