/** stats/os_clock_discipline.go: does phc2sys still discipline CLOCK_REALTIME?
    A window opens with a reconfigure burst. It ends undisciplined when a source clock was
    selected and CLOCK_REALTIME was not, which a settle timer or a later log line decides. */
module OsClock {
  import opened Int64s
  import opened Options

  datatype Phase = Idle | Selecting | SourceSelected | Undisciplined

  /** Where a time.AfterFunc timer stands. Stop catches it only while it is Armed; a callback
      that is InFlight is on its way to the mutex and will run. */
  datatype Status = Armed | Stopped | InFlight | Done

  /** A settle timer with the generation its callback captured, and the number of windows
      opened before it was armed (which the program does not store). */
  datatype Timer = Timer(generation: nat, window: nat, status: Status)

  /** The calls on the machine, the two halves of a timer going off among them. */
  datatype Op =
    | Begin | Abort | SourceClock | ReArm | SinkClock | Finalise | ClearOnRealtimeOffset | Reset
    | Fire(timer: nat) | Callback(timer: nat)

  /** The fields of OsClockDiscipline, every timer it ever armed, and the calls so far. */
  datatype Discipline = Discipline(phase: Phase, settle: Option<nat>, selectGen: nat,
                                   timers: seq<Timer>, log: seq<Op>)

  const FRESH := Discipline(Idle, None, 0, [], [])

  function Begins(log: seq<Op>): (r: nat) {
    if log == [] then 0
    else Begins(log[..|log| - 1]) + if log[|log| - 1] == Begin then 1 else 0
  }

  // ----- What each call does

  function SetStatus(timers: seq<Timer>, i: nat, from: Status, to: Status): (r: seq<Timer>)
    ensures |r| == |timers|
    ensures forall j :: 0 <= j < |r| && j != i ==> r[j] == timers[j]
    ensures i < |r| ==> r[i] == timers[i].(status := if timers[i].status == from then to else timers[i].status)
  {
    if i < |timers| && timers[i].status == from then timers[i := timers[i].(status := to)] else timers
  }

  function StopSettle(d: Discipline): (e: Discipline) {
    if d.settle.None? then d
    else d.(settle := None, timers := SetStatus(d.timers, d.settle.value, Armed, Stopped))
  }

  function ArmSettle(d: Discipline): (e: Discipline) {
    var s := StopSettle(d);
    s.(settle := Some(|s.timers|), timers := s.timers + [Timer(d.selectGen, Begins(d.log), Armed)])
  }

  predicate WindowOpen(d: Discipline) {
    d.phase == Selecting || d.phase == SourceSelected
  }

  function FinaliseLocked(d: Discipline): (e: Discipline) {
    var s := StopSettle(d);
    match d.phase
    case Selecting => s.(phase := Idle)
    case SourceSelected => s.(phase := Undisciplined)
    case _ => s
  }

  function Effect(d: Discipline, op: Op): (e: Discipline) {
    match op
    case Begin => StopSettle(d).(selectGen := (d.selectGen + 1) % TWO64, phase := Selecting)
    case Abort => if WindowOpen(d) then StopSettle(d).(phase := Idle) else StopSettle(d)
    case SourceClock => if WindowOpen(d) then ArmSettle(d.(phase := SourceSelected)) else d
    case ReArm => if d.phase == SourceSelected then ArmSettle(d) else d
    case SinkClock => StopSettle(d).(phase := Idle)
    case Finalise => FinaliseLocked(d)
    case ClearOnRealtimeOffset => StopSettle(d).(phase := Idle)
    case Reset => StopSettle(d).(phase := Idle)
    case Fire(i) => d.(timers := SetStatus(d.timers, i, Armed, InFlight))
    case Callback(i) =>
      if i < |d.timers| && d.timers[i].status == InFlight then
        var ran := d.(timers := SetStatus(d.timers, i, InFlight, Done));
        if d.selectGen != d.timers[i].generation then ran else FinaliseLocked(ran)
      else d
  }

  function Apply(d: Discipline, op: Op): (e: Discipline) {
    Effect(d, op).(log := d.log + [op])
  }

  /** The machine after these calls, in any interleaving of log lines and timers. */
  function Replay(ops: seq<Op>): (d: Discipline) {
    if ops == [] then FRESH else Apply(Replay(ops[..|ops| - 1]), ops[|ops| - 1])
  }

  /** Finalise or FinaliseIfGeneration returns true: FREERUN is to be published. */
  predicate Activates(d: Discipline, op: Op) {
    && (op == Finalise || op.Callback?)
    && d.phase == SourceSelected
    && Apply(d, op).phase == Undisciplined
  }

  // ----- The invariant of every run

  /** Calls that end or restart a window. */
  predicate EndsWindow(op: Op) {
    op in {Begin, Abort, SinkClock, Finalise, ClearOnRealtimeOffset, Reset}
  }

  /** The call at b opened a window and no later call ended it. */
  predicate OpenSince(log: seq<Op>, b: nat) {
    b < |log| && log[b] == Begin && forall j :: b < j < |log| ==> !EndsWindow(log[j])
  }

  /** A window is open in which no source clock need have been selected. */
  ghost predicate SomeWindow(log: seq<Op>) {
    exists b: nat :: OpenSince(log, b)
  }

  /** A window is open in which a source clock was selected. */
  ghost predicate SourceWindow(log: seq<Op>) {
    exists b: nat, s: nat :: OpenSince(log, b) && b < s < |log| && log[s] == SourceClock
  }

  ghost predicate Ok(d: Discipline) {
    && (WindowOpen(d) ==> SomeWindow(d.log))
    && (d.phase == SourceSelected ==> SourceWindow(d.log))
    && (d.settle.Some? <==> d.phase == SourceSelected)
    && HoldsTimersOk(d, Begins(d.log))
  }

  /** Every timer captured the generation of its window; only the held one is armed, and it
      belongs to the current window. */
  ghost predicate TimersOk(selectGen: nat, settle: Option<nat>, timers: seq<Timer>, windows: nat) {
    && selectGen == windows % TWO64
    && (settle.Some? ==> settle.value < |timers| && timers[settle.value].window == windows)
    && forall i :: 0 <= i < |timers| ==> TimerOk(timers[i], settle == Some(i), windows)
  }

  ghost predicate HoldsTimersOk(d: Discipline, windows: nat) {
    TimersOk(d.selectGen, d.settle, d.timers, windows)
  }

  ghost predicate TimerOk(t: Timer, held: bool, windows: nat) {
    && t.window <= windows
    && t.generation == t.window % TWO64
    && (t.status == Armed ==> held)
  }

  lemma BeginsSnoc(log: seq<Op>, op: Op)
    ensures Begins(log + [op]) == Begins(log) + if op == Begin then 1 else 0
  {
    assert (log + [op])[..|log|] == log;
  }

  lemma StopKeepsTimers(d: Discipline, windows: nat)
    requires HoldsTimersOk(d, windows)
    ensures HoldsTimersOk(StopSettle(d), windows)
    ensures forall t :: t in StopSettle(d).timers ==> t.status != Armed
  {
    var e := StopSettle(d);
    forall i | 0 <= i < |e.timers| ensures TimerOk(e.timers[i], false, windows) {
      assert TimerOk(d.timers[i], d.settle == Some(i), windows);
    }
  }

  lemma ArmKeepsTimers(d: Discipline)
    requires HoldsTimersOk(d, Begins(d.log))
    ensures HoldsTimersOk(ArmSettle(d), Begins(d.log))
  {
    StopKeepsTimers(d, Begins(d.log));
  }

  lemma BeginKeepsTimers(d: Discipline, windows: nat)
    requires HoldsTimersOk(d, windows)
    ensures HoldsTimersOk(StopSettle(d).(selectGen := (d.selectGen + 1) % TWO64), windows + 1)
  {
    StopKeepsTimers(d, windows);
    assert (windows + 1) % TWO64 == (windows % TWO64 + 1) % TWO64;
  }

  lemma StatusKeepsTimers(d: Discipline, windows: nat, i: nat, from: Status, to: Status)
    requires HoldsTimersOk(d, windows) && to != Armed
    ensures HoldsTimersOk(d.(timers := SetStatus(d.timers, i, from, to)), windows)
  {
    var timers := SetStatus(d.timers, i, from, to);
    forall j | 0 <= j < |timers| ensures TimerOk(timers[j], d.settle == Some(j), windows) {
      assert TimerOk(d.timers[j], d.settle == Some(j), windows);
    }
  }

  lemma EffectKeepsTimers(d: Discipline, op: Op)
    requires HoldsTimersOk(d, Begins(d.log))
    ensures HoldsTimersOk(Effect(d, op), Begins(d.log + [op]))
  {
    var windows := Begins(d.log);
    BeginsSnoc(d.log, op);
    StopKeepsTimers(d, windows);
    match op
    case Begin => BeginKeepsTimers(d, windows);
    case SourceClock => ArmKeepsTimers(d.(phase := SourceSelected));
    case ReArm => ArmKeepsTimers(d);
    case Fire(i) => StatusKeepsTimers(d, windows, i, Armed, InFlight);
    case Callback(i) =>
      StatusKeepsTimers(d, windows, i, InFlight, Done);
      StopKeepsTimers(d.(timers := SetStatus(d.timers, i, InFlight, Done)), windows);
    case _ =>
  }

  /** The window in the log that the phase speaks of is still there after a call. */
  lemma EvidenceKept(d: Discipline, op: Op)
    requires Ok(d)
    ensures WindowOpen(Effect(d, op)) ==> SomeWindow(d.log + [op])
    ensures Effect(d, op).phase == SourceSelected ==> SourceWindow(d.log + [op])
  {
    var log := d.log + [op];
    var phase := Effect(d, op).phase;
    if op == Begin {
      assert OpenSince(log, |d.log|);
    } else if phase == Selecting || phase == SourceSelected {
      assert !EndsWindow(op);
      if d.phase == SourceSelected {
        var b: nat, s: nat :| OpenSince(d.log, b) && b < s < |d.log| && d.log[s] == SourceClock;
        assert OpenSince(log, b) && log[s] == SourceClock;
      } else {
        var b: nat :| OpenSince(d.log, b);
        assert OpenSince(log, b);
        assert phase == SourceSelected ==> log[|d.log|] == SourceClock;
      }
    }
  }

  lemma ApplyKeepsOk(d: Discipline, op: Op)
    requires Ok(d)
    ensures Ok(Apply(d, op))
  {
    hide TimersOk, SomeWindow, SourceWindow;
    EffectKeepsTimers(d, op);
    EvidenceKept(d, op);
  }

  /** In every interleaving a settle timer is held exactly in phase SourceSelected, the held
      timer captured the generation in force, and no other timer is armed. */
  lemma {:induction false} ReplayOk(ops: seq<Op>)
    ensures Ok(Replay(ops)) && Replay(ops).log == ops
  {
    hide Ok, Effect;
    if ops == [] {
      FreshOk();
    } else {
      var before, op := ops[..|ops| - 1], ops[|ops| - 1];
      ReplayOk(before);
      ApplyKeepsOk(Replay(before), op);
      SplitLast(ops);
    }
  }

  lemma SplitLast<T>(s: seq<T>)
    requires s != []
    ensures s == s[..|s| - 1] + [s[|s| - 1]]
  {
  }

  lemma PrefixOfPrefix<T>(s: seq<T>, k: nat)
    requires 0 < k <= |s|
    ensures s[..k][..k - 1] == s[..k - 1]
  {
  }

  lemma FreshOk()
    ensures Ok(FRESH)
  {
  }

  // ----- What a run can report

  /** The OS clock becomes undisciplined only in a window in which a source clock was selected
      and which nothing ended: no sink selection, no abort, no CLOCK_REALTIME offset, no reset. */
  lemma {:induction false} UndisciplinedNeedsSource(ops: seq<Op>, op: Op)
    requires Replay(ops).phase != Undisciplined && Apply(Replay(ops), op).phase == Undisciplined
    ensures Activates(Replay(ops), op)
    ensures SourceWindow(ops)
  {
    hide Replay, SourceWindow;
    ReplayOk(ops);
  }

  /** The call at j is a callback that passes the test of FinaliseIfGeneration. */
  predicate PassesTest(ops: seq<Op>, j: nat)
    requires j < |ops|
  {
    ops[j].Callback? && var d, t := Replay(ops[..j]), ops[j].timer;
    t < |d.timers| && d.timers[t].status == InFlight && d.timers[t].generation == d.selectGen
  }

  /** The call at j is a callback of a timer that was armed in the window of that time. */
  predicate OfThisWindow(ops: seq<Op>, j: nat)
    requires j < |ops|
  {
    ops[j].Callback? && var d, t := Replay(ops[..j]), ops[j].timer;
    t < |d.timers| && d.timers[t].status == InFlight && d.timers[t].window == Begins(ops[..j])
  }

  /** Fewer than 2^64 windows were opened since the timer was armed that calls back at j. */
  predicate Young(ops: seq<Op>, j: nat)
    requires j < |ops|
  {
    ops[j].Callback? ==>
      var d, t := Replay(ops[..j]), ops[j].timer;
      t < |d.timers| ==> Begins(ops[..j]) < d.timers[t].window + TWO64
  }

  /** The other direction: such a window is finalised as undisciplined by the next Finalise exactly
      when no callback of its own has decided it before. Callbacks of windows it superseded may come
      at any time. */
  lemma {:induction false} SourceWindowFinalises(ops: seq<Op>, b: nat, s: nat)
    requires OpenSince(ops, b) && b < s < |ops| && ops[s] == SourceClock
    requires forall j :: b < j < |ops| ==> Young(ops, j)
    ensures Activates(Replay(ops), Finalise) <==> forall j :: b < j < |ops| ==> !OfThisWindow(ops, j)
  {
    hide Replay, OpenSince, OfThisWindow, PassesTest, Young;
    forall j | b < j < |ops| ensures OfThisWindow(ops, j) == PassesTest(ops, j) {
      PassesInItsWindow(ops, j);
    }
    SourceWindowStays(ops, b, s);
  }

  lemma PassesInItsWindow(ops: seq<Op>, j: nat)
    requires j < |ops| && Young(ops, j)
    ensures OfThisWindow(ops, j) == PassesTest(ops, j)
  {
    hide Replay, SomeWindow, SourceWindow;
    ReplayOk(ops[..j]);
    var d := Replay(ops[..j]);
    if ops[j].Callback? && ops[j].timer < |d.timers| {
      var t := ops[j].timer;
      assert TimerOk(d.timers[t], d.settle == Some(t), Begins(ops[..j]));
      SameResidue(d.timers[t].window, Begins(ops[..j]));
    }
  }

  ghost predicate Undecided(ops: seq<Op>, b: nat) {
    forall j :: b < j < |ops| ==> !PassesTest(ops, j)
  }

  lemma {:induction false} SourceWindowStays(ops: seq<Op>, b: nat, s: nat)
    requires OpenSince(ops, b) && b < s < |ops| && ops[s] == SourceClock
    ensures Replay(ops).phase == SourceSelected <==> Undecided(ops, b)
    ensures WindowOpen(Replay(ops)) <==> Undecided(ops, b)
  {
    var before, op := ops[..|ops| - 1], ops[|ops| - 1];
    OneMoreCall(ops, b);
    CallInWindow(Replay(before), op);
    hide Apply, Undecided;
    if s < |ops| - 1 {
      SourceWindowStays(before, b, s);
    } else {
      OpenWindowStays(before, b);
    }
  }

  lemma CallInWindow(d: Discipline, op: Op)
    requires !EndsWindow(op)
    ensures
      var e := Apply(d, op);
      var decided := op.Callback? && op.timer < |d.timers| && d.timers[op.timer].status == InFlight
                     && d.timers[op.timer].generation == d.selectGen;
      && (WindowOpen(e) <==> WindowOpen(d) && !decided)
      && (e.phase == SourceSelected <==>
            !decided && (d.phase == SourceSelected || (op == SourceClock && WindowOpen(d))))
  {
  }

  lemma {:induction false} OpenWindowStays(ops: seq<Op>, b: nat)
    requires OpenSince(ops, b)
    ensures WindowOpen(Replay(ops)) <==> Undecided(ops, b)
  {
    if b < |ops| - 1 {
      OneMoreCall(ops, b);
      CallInWindow(Replay(ops[..|ops| - 1]), ops[|ops| - 1]);
      hide Apply, Undecided;
      OpenWindowStays(ops[..|ops| - 1], b);
    }
  }

  lemma OneMoreCall(ops: seq<Op>, b: nat)
    requires b < |ops| - 1
    ensures Undecided(ops, b) <==> Undecided(ops[..|ops| - 1], b) && !PassesTest(ops, |ops| - 1)
  {
    hide Replay;
    var before := ops[..|ops| - 1];
    forall j | b < j < |before| ensures PassesTest(before, j) == PassesTest(ops, j) {
      assert before[..j] == ops[..j];
    }
  }

  /** Between two reports of an undisciplined clock lies a Begin: at most one per window. */
  lemma OncePerWindow(ops: seq<Op>, i: nat, j: nat)
    requires i < j < |ops|
    requires Activates(Replay(ops[..i]), ops[i]) && Activates(Replay(ops[..j]), ops[j])
    ensures exists b :: i < b < j && ops[b] == Begin
  {
    if forall b :: i < b < j ==> ops[b] != Begin {
      StaysClosed(ops, i, j);
    }
  }

  lemma {:induction false} StaysClosed(ops: seq<Op>, i: nat, k: nat)
    requires i < k <= |ops|
    requires Activates(Replay(ops[..i]), ops[i])
    requires forall b :: i < b < k ==> ops[b] != Begin
    ensures !WindowOpen(Replay(ops[..k]))
  {
    hide Effect;
    PrefixOfPrefix(ops, k);
    if k > i + 1 {
      StaysClosed(ops, i, k - 1);
      ClosedStep(Replay(ops[..k - 1]), ops[k - 1]);
    }
  }

  lemma ClosedStep(d: Discipline, op: Op)
    requires !WindowOpen(d) && op != Begin
    ensures !WindowOpen(Apply(d, op))
  {
  }

  /** FinaliseIfGeneration recognises a superseded window: with fewer than 2^64 windows opened
      since its timer was armed, a callback decides the clock exactly when no window was. */
  lemma {:induction false} CallbackOfCurrentWindowOnly(ops: seq<Op>, t: nat)
    requires var d := Replay(ops); t < |d.timers| && d.timers[t].status == InFlight
    requires Begins(ops) < Replay(ops).timers[t].window + TWO64
    ensures
      var d := Replay(ops);
      Activates(d, Callback(t)) <==> d.phase == SourceSelected && d.timers[t].window == Begins(ops)
  {
    hide Replay, SomeWindow, SourceWindow;
    ReplayOk(ops);
    var d := Replay(ops);
    assert TimerOk(d.timers[t], d.settle == Some(t), Begins(ops));
    SameResidue(d.timers[t].window, Begins(ops));
  }

  lemma SameResidue(a: nat, b: nat)
    requires a <= b < a + TWO64
    ensures a % TWO64 == b % TWO64 <==> a == b
  {
  }

  /** A stopped timer's callback never runs, and at most one timer can still go off. */
  lemma {:induction false} AtMostOneArmed(ops: seq<Op>, i: nat, j: nat)
    requires var d := Replay(ops);
      && i < |d.timers| && j < |d.timers|
      && d.timers[i].status == Armed && d.timers[j].status == Armed
    ensures i == j && Replay(ops).phase == SourceSelected
  {
    ReplayOk(ops);
    var d := Replay(ops);
    assert TimerOk(d.timers[i], d.settle == Some(i), Begins(ops));
    assert TimerOk(d.timers[j], d.settle == Some(j), Begins(ops));
  }
}
