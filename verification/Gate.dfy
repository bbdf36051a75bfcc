/** gate/gate.go: a blocking gate. Goroutines interleave between any two steps that the
    read-write lock and the once-function let them take. */
module Gate {
  import opened Options

  type Thread = nat
  type Channel = nat

  /** Where a goroutine is. Reset holds the write lock in the first three phases, Open and Wait
      hold a read lock in theirs. */
  datatype Phase =
    | Outside
    | ResetLocked | ResetMade | ResetArmed
    | OpenLocked | OpenClosing | OpenDone(c: Option<Channel>)
    | WaitLocked | Waiting(channel: Channel) | WaitDone

  /** sync.OnceFunc: not made yet, not run, being run, or run. */
  datatype Once = NoOnce | NotRun | Running(caller: Thread) | Ran

  /** `panicked` records a close of a closed or missing channel. */
  datatype State = State(phases: map<Thread, Phase>, c: Option<Channel>, once: Once,
                         closed: set<Channel>, made: nat, panicked: bool)

  const START := State(map[], None, NoOnce, {}, 0, false)

  function PhaseOf(s: State, t: Thread): (r: Phase) {
    if t in s.phases then s.phases[t] else Outside
  }

  predicate Writes(p: Phase) {
    p.ResetLocked? || p.ResetMade? || p.ResetArmed?
  }

  predicate Reads(p: Phase) {
    p.OpenLocked? || p.OpenClosing? || p.OpenDone? || p.WaitLocked? || p.Waiting? || p.WaitDone?
  }

  predicate WriteLocked(s: State) {
    exists t :: t in s.phases && Writes(s.phases[t])
  }

  predicate ReadLocked(s: State) {
    exists t :: t in s.phases && Reads(s.phases[t])
  }

  function Go(s: State, t: Thread, p: Phase): (r: State)
    ensures r == s.(phases := r.phases)
    ensures forall u :: PhaseOf(r, u) == if u == t then p else PhaseOf(s, u)
  {
    s.(phases := s.phases[t := p])
  }

  datatype Step =
    | TryReset(t: Thread) | MakeChannel(t: Thread) | MakeOnce(t: Thread) | EndReset(t: Thread)
    | EnterOpen(t: Thread) | CallOnce(t: Thread) | Close(t: Thread) | LeaveOpen(t: Thread)
    | EnterWait(t: Thread) | Select(t: Thread) | Wake(t: Thread) | Timeout(t: Thread) | LeaveWait(t: Thread)

  /** What a step does. A step that is not the goroutine's next, or that must wait, does nothing;
      so does a Reset whose TryLock fails. */
  function Next(s: State, step: Step): (next: State) {
    match step
    case TryReset(t) =>
      if PhaseOf(s, t).Outside? && !WriteLocked(s) && !ReadLocked(s) then Go(s, t, ResetLocked) else s
    case MakeChannel(t) =>
      if PhaseOf(s, t).ResetLocked? then Go(s, t, ResetMade).(c := Some(s.made), made := s.made + 1) else s
    case MakeOnce(t) =>
      if PhaseOf(s, t).ResetMade? then Go(s, t, ResetArmed).(once := NotRun) else s
    case EndReset(t) => if PhaseOf(s, t).ResetArmed? then Go(s, t, Outside) else s
    case EnterOpen(t) => if PhaseOf(s, t).Outside? && !WriteLocked(s) then Go(s, t, OpenLocked) else s
    case CallOnce(t) =>
      if !PhaseOf(s, t).OpenLocked? then s
      else
        match s.once {
          case NoOnce => Go(s, t, OpenDone(None))
          case NotRun => Go(s, t, OpenClosing).(once := Running(t))
          case Running(_) => s
          case Ran => Go(s, t, OpenDone(s.c))
        }
    case Close(t) =>
      if !PhaseOf(s, t).OpenClosing? then s
      else if s.c.None? || s.c.value in s.closed then s.(panicked := true)
      else Go(s, t, OpenDone(s.c)).(once := Ran, closed := s.closed + {s.c.value})
    case LeaveOpen(t) => if PhaseOf(s, t).OpenDone? then Go(s, t, Outside) else s
    case EnterWait(t) => if PhaseOf(s, t).Outside? && !WriteLocked(s) then Go(s, t, WaitLocked) else s
    case Select(t) =>
      if PhaseOf(s, t).WaitLocked? then Go(s, t, if s.c.None? then WaitDone else Waiting(s.c.value)) else s
    case Wake(t) =>
      if PhaseOf(s, t).Waiting? && PhaseOf(s, t).channel in s.closed then Go(s, t, WaitDone) else s
    case Timeout(t) => if PhaseOf(s, t).Waiting? then Go(s, t, WaitDone) else s
    case LeaveWait(t) => if PhaseOf(s, t).WaitDone? then Go(s, t, Outside) else s
  }

  function Run(steps: seq<Step>): (next: State) {
    if steps == [] then START else Next(Run(steps[..|steps| - 1]), steps[|steps| - 1])
  }

  // ----- The invariant of every interleaving

  ghost predicate Inv(s: State) {
    && !s.panicked
    && (forall t {:trigger PhaseOf(s, t)} :: PhaseOk(s, t, PhaseOf(s, t)))
    && (s.c.Some? ==> s.c.value < s.made)
    && (forall ch :: ch in s.closed ==> ch < s.made)
    && (s.once.NoOnce? ==> s.c.None? || exists t :: PhaseOf(s, t).ResetMade?)
    && (s.once.NotRun? || s.once.Running? ==> s.c.Some? && s.c.value !in s.closed)
    && (s.once.Ran? ==> s.c.Some? && (s.c.value in s.closed || exists t :: PhaseOf(s, t).ResetMade?))
    && (s.once.Running? ==> PhaseOf(s, s.once.caller).OpenClosing?)
  }

  /** A goroutine that resets is alone inside. */
  ghost predicate Alone(s: State, t: Thread) {
    forall u :: u != t ==> PhaseOf(s, u).Outside?
  }

  ghost predicate PhaseOk(s: State, t: Thread, p: Phase) {
    match p
    case ResetLocked => Alone(s, t)
    case ResetMade => Alone(s, t) && s.c.Some? && s.c.value !in s.closed
    case ResetArmed => Alone(s, t) && s.once.NotRun?
    case OpenClosing => s.once == Running(t)
    case OpenDone(c) => c == s.c && (c.Some? ==> c.value in s.closed && s.once.Ran?)
    case Waiting(ch) => s.c == Some(ch)
    case _ => true
  }

  lemma LockSeen(s: State)
    ensures !WriteLocked(s) <==> forall t {:trigger PhaseOf(s, t)} :: !Writes(PhaseOf(s, t))
    ensures !ReadLocked(s) <==> forall t {:trigger PhaseOf(s, t)} :: !Reads(PhaseOf(s, t))
  {
    assert forall t :: t in s.phases ==> PhaseOf(s, t) == s.phases[t];
  }

  lemma StepKeeps(s: State, step: Step)
    requires Inv(s)
    ensures Inv(Next(s, step))
  {
    var t, next := step.t, Next(s, step);
    LockSeen(s);
    hide WriteLocked, ReadLocked;
    assert forall u :: u != t ==> PhaseOf(next, u) == PhaseOf(s, u);
    assert PhaseOk(s, t, PhaseOf(s, t));
    if s.once.Running? {
      assert PhaseOk(s, s.once.caller, PhaseOf(s, s.once.caller));
    }
    if w :| PhaseOf(s, w).ResetMade? && w != t {
      assert PhaseOk(s, w, PhaseOf(s, w));
      assert PhaseOf(s, t).Outside? && next == s;
    }
    forall u ensures PhaseOk(next, u, PhaseOf(next, u)) {
      PhaseKept(s, step, u);
    }
    assert PhaseOf(next, t).ResetMade? || !step.MakeChannel? || next == s;
  }

  lemma PhaseKept(s: State, step: Step, u: Thread)
    requires Inv(s)
    ensures PhaseOk(Next(s, step), u, PhaseOf(Next(s, step), u))
  {
    var t, next := step.t, Next(s, step);
    LockSeen(s);
    hide WriteLocked, ReadLocked;
    assert forall v :: v != t ==> PhaseOf(next, v) == PhaseOf(s, v);
    assert PhaseOk(s, t, PhaseOf(s, t)) && PhaseOk(s, u, PhaseOf(s, u));
    assert Writes(PhaseOf(s, u)) && u != t ==> PhaseOf(s, t).Outside? && next == s;
    assert Writes(PhaseOf(s, t)) && u != t ==> PhaseOf(s, u).Outside?;
  }

  lemma {:induction false} RunKeeps(steps: seq<Step>)
    ensures Inv(Run(steps))
  {
    if steps != [] {
      hide Inv, Next;
      RunKeeps(steps[..|steps| - 1]);
      StepKeeps(Run(steps[..|steps| - 1]), steps[|steps| - 1]);
    }
  }

  // ----- What it means

  /** The channel in force is closed exactly when its once-function has run, for whoever can look:
      while no Reset is under way. And no channel is ever closed twice. */
  lemma {:induction false} ClosedIffRan(steps: seq<Step>)
    ensures !Run(steps).panicked
    ensures
      var s := Run(steps);
      !WriteLocked(s) ==>
        && (s.c.None? <==> s.once.NoOnce?)
        && (s.c.Some? ==> (s.c.value in s.closed <==> s.once.Ran?))
  {
    hide Run;
    RunKeeps(steps);
    LockSeen(Run(steps));
  }

  /** A Wait in progress waits on the channel in force, and no step of anyone replaces it. */
  lemma {:induction false} NotReplacedDuringWait(steps: seq<Step>, t: Thread, step: Step)
    requires PhaseOf(Run(steps), t).Waiting?
    ensures Run(steps).c == Some(PhaseOf(Run(steps), t).channel)
    ensures Next(Run(steps), step).c == Run(steps).c
  {
    hide Run;
    RunKeeps(steps);
    var s := Run(steps);
    assert PhaseOk(s, t, PhaseOf(s, t));
  }

  /** One Open releases every current waiter, whichever caller's once-function closed the channel:
      when it returns from that function each of them can wake, and stays able to. */
  lemma OpenReleasesAll(steps: seq<Step>, opener: Thread, waiter: Thread, later: seq<Step>)
    requires PhaseOf(Run(steps), opener).OpenDone? && PhaseOf(Run(steps), waiter).Waiting?
    requires forall i :: 0 <= i < |later| ==> later[i] != Wake(waiter) && later[i] != Timeout(waiter)
    ensures PhaseOf(Next(Run(steps + later), Wake(waiter)), waiter).WaitDone?
  {
    RunKeeps(steps);
    var s := Run(steps);
    assert PhaseOk(s, opener, PhaseOf(s, opener)) && PhaseOk(s, waiter, PhaseOf(s, waiter));
    StaysAwake(steps, waiter, later);
  }

  lemma {:induction false} StaysAwake(steps: seq<Step>, waiter: Thread, later: seq<Step>)
    requires PhaseOf(Run(steps), waiter).Waiting? && PhaseOf(Run(steps), waiter).channel in Run(steps).closed
    requires forall i :: 0 <= i < |later| ==> later[i] != Wake(waiter) && later[i] != Timeout(waiter)
    ensures
      var s := Run(steps + later);
      PhaseOf(s, waiter) == PhaseOf(Run(steps), waiter) && PhaseOf(s, waiter).channel in s.closed
  {
    if later == [] {
      assert steps + later == steps;
    } else {
      var before, step := later[..|later| - 1], later[|later| - 1];
      StaysAwake(steps, waiter, before);
      assert (steps + later)[..|steps + later| - 1] == steps + before;
      AwakeStep(Run(steps + before), waiter, step);
      hide Next, PhaseOf;
    }
  }

  lemma AwakeStep(s: State, waiter: Thread, step: Step)
    requires PhaseOf(s, waiter).Waiting? && PhaseOf(s, waiter).channel in s.closed
    requires step != Wake(waiter) && step != Timeout(waiter)
    ensures
      var next := Next(s, step);
      PhaseOf(next, waiter) == PhaseOf(s, waiter) && PhaseOf(s, waiter).channel in next.closed
  {
    hide WriteLocked, ReadLocked;
  }

  /** And the gate does block: from a Reset until some Open closes the channel, nobody who waits
      can wake, however many further Resets there are. */
  lemma {:induction false} BlocksUntilOpened(steps: seq<Step>, later: seq<Step>, waiter: Thread)
    requires Run(steps).c.Some? && Run(steps).c.value !in Run(steps).closed
    requires forall i :: 0 <= i < |later| ==> !later[i].Close?
    requires PhaseOf(Run(steps + later), waiter).Waiting?
    ensures Next(Run(steps + later), Wake(waiter)) == Run(steps + later)
  {
    StaysShut(steps, later);
    RunKeeps(steps + later);
    var s := Run(steps + later);
    assert PhaseOk(s, waiter, PhaseOf(s, waiter));
  }

  lemma {:induction false} StaysShut(steps: seq<Step>, later: seq<Step>)
    requires Run(steps).c.Some? && Run(steps).c.value !in Run(steps).closed
    requires forall i :: 0 <= i < |later| ==> !later[i].Close?
    ensures Run(steps + later).c.Some? && Run(steps + later).c.value !in Run(steps + later).closed
  {
    if later == [] {
      assert steps + later == steps;
    } else {
      var before := later[..|later| - 1];
      StaysShut(steps, before);
      assert (steps + later)[..|steps + later| - 1] == steps + before;
      RunKeeps(steps + before);
      ShutStep(Run(steps + before), later[|later| - 1]);
      hide Inv, Next;
    }
  }

  lemma ShutStep(s: State, step: Step)
    requires Inv(s) && s.c.Some? && s.c.value !in s.closed && !step.Close?
    ensures var next := Next(s, step); next.c.Some? && next.c.value !in next.closed
  {
    hide PhaseOf, PhaseOk, WriteLocked, ReadLocked;
  }

  /** The price: while anyone waits or opens, Reset does nothing. */
  lemma ResetYields(steps: seq<Step>, t: Thread, u: Thread)
    requires Reads(PhaseOf(Run(steps), u))
    ensures Next(Run(steps), TryReset(t)) == Run(steps)
  {
    hide Run;
    LockSeen(Run(steps));
  }
}
