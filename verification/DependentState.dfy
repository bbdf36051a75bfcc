/** event/event.go PTPEventState: the states of the clocks a clock depends on, by process and
    interface, and the one state made of them. */
module DependentState {
  import opened Sequences
  import opened SyncStates

  type Process = string

  /** ClockState: what a process last said of an interface. */
  datatype ClockState = ClockState(iface: string, state: Known)

  type Dependents = map<Process, seq<ClockState>>

  /** hasClockState. */
  function IndexOf(clocks: seq<ClockState>, iface: string): (i: int)
    ensures -1 <= i < |clocks|
  {
    FirstIndex(clocks, (c: ClockState) => c.iface == iface)
  }

  function Upsert(deps: Dependents, process: Process, c: ClockState): (r: Dependents) {
    if process !in deps then deps[process := [c]]
    else
      var clocks := deps[process];
      var i := IndexOf(clocks, c.iface);
      deps[process := if i < 0 then clocks + [c] else clocks[i := c]]
  }

  predicate AllLocked(clocks: seq<ClockState>) {
    forall i :: 0 <= i < |clocks| ==> clocks[i].state == Locked
  }

  predicate HasHoldover(clocks: seq<ClockState>) {
    exists i :: 0 <= i < |clocks| && clocks[i].state == Holdover
  }

  /** The inner loop: a holdover ends it. */
  function FoldClocks(current: SyncState, clocks: seq<ClockState>): (s: SyncState)
    decreases clocks
  {
    if clocks == [] then current
    else if clocks[0].state == Holdover then Holdover
    else if clocks[0].state != Locked then FoldClocks(clocks[0].state, clocks[1..])
    else FoldClocks(if current == Unset then Locked else current, clocks[1..])
  }

  /** The outer loop, for one order of the map. */
  function Fold(deps: Dependents, order: seq<Process>): (state: SyncState)
    requires forall i :: 0 <= i < |order| ==> order[i] in deps
  {
    if order == [] then Unset
    else FoldClocks(Fold(deps, order[..|order| - 1]), deps[order[|order| - 1]])
  }

  /** Each process holds at most one entry per interface, and no empty list. */
  predicate Tidy(deps: Dependents) {
    forall p :: p in deps ==> deps[p] != [] && OnePerInterface(deps[p])
  }

  predicate OnePerInterface(clocks: seq<ClockState>) {
    forall i, j :: 0 <= i < j < |clocks| ==> clocks[i].iface != clocks[j].iface
  }

  predicate IsOrderOf(order: seq<Process>, processes: set<Process>) {
    && (forall i :: 0 <= i < |order| ==> order[i] in processes)
    && (forall p :: p in processes ==> p in order)
    && (forall i, j :: 0 <= i < j < |order| ==> order[i] != order[j])
  }

  predicate IsOrder(deps: Dependents, order: seq<Process>) {
    IsOrderOf(order, deps.Keys)
  }

  // ----- The upsert

  lemma UpsertKeepsTidy(deps: Dependents, process: Process, c: ClockState)
    requires Tidy(deps)
    ensures Tidy(Upsert(deps, process, c))
  {
    if process in deps {
      assert OnePerInterface(deps[process]);
    }
  }

  datatype Update = Update(process: Process, clock: ClockState)

  function Run(updates: seq<Update>): (r: Dependents) {
    if updates == [] then map[]
    else
      var u := updates[|updates| - 1];
      Upsert(Run(updates[..|updates| - 1]), u.process, u.clock)
  }

  predicate Recorded(deps: Dependents, process: Process, c: ClockState) {
    process in deps && c in deps[process]
  }

  /** The last update of this process and interface said this state. */
  predicate SaidLast(updates: seq<Update>, process: Process, c: ClockState) {
    updates != [] &&
      var u := updates[|updates| - 1];
      if u.process == process && u.clock.iface == c.iface then u.clock == c
      else SaidLast(updates[..|updates| - 1], process, c)
  }

  /** After any updates an entry is recorded exactly if it is what was said last of its interface,
      so there is at most one per interface. */
  lemma {:induction false} RecordsTheLast(updates: seq<Update>)
    ensures Tidy(Run(updates))
    ensures forall p, c :: Recorded(Run(updates), p, c) <==> SaidLast(updates, p, c)
  {
    if updates != [] {
      var before, u := updates[..|updates| - 1], updates[|updates| - 1];
      RecordsTheLast(before);
      UpsertKeepsTidy(Run(before), u.process, u.clock);
      hide Run;
      forall p, c ensures Recorded(Upsert(Run(before), u.process, u.clock), p, c) <==>
                          if u.process == p && u.clock.iface == c.iface then u.clock == c
                          else Recorded(Run(before), p, c)
      {
        UpsertRecords(Run(before), u.process, u.clock, p, c);
      }
      assert Run(updates) == Upsert(Run(before), u.process, u.clock) by {
        RunSnoc(updates);
      }
    }
  }

  lemma RunSnoc(updates: seq<Update>)
    requires updates != []
    ensures
      var u := updates[|updates| - 1];
      Run(updates) == Upsert(Run(updates[..|updates| - 1]), u.process, u.clock)
  {
  }

  lemma UpsertRecords(deps: Dependents, process: Process, u: ClockState, p: Process, c: ClockState)
    requires Tidy(deps)
    ensures Recorded(Upsert(deps, process, u), p, c)
       <==> if process == p && u.iface == c.iface then u == c else Recorded(deps, p, c)
  {
    if process == p && process in deps {
      var clocks := deps[process];
      var i := IndexOf(clocks, u.iface);
      var after := Upsert(deps, process, u)[process];
      assert OnePerInterface(clocks);
      if i < 0 {
        assert after == clocks + [u];
      } else {
        assert after[i] == u && forall j :: 0 <= j < |clocks| && j != i ==> after[j] == clocks[j];
        forall j | 0 <= j < |clocks| && j != i ensures clocks[j].iface != u.iface {
        }
        if c in clocks && c.iface != u.iface {
          var j :| 0 <= j < |clocks| && clocks[j] == c;
          assert after[j] == c;
        }
      }
    }
  }

  // ----- The fold

  /** Of one process only its holdovers count, or else whether all is locked. */
  lemma {:induction false} FoldClocksIs(current: SyncState, clocks: seq<ClockState>)
    ensures FoldClocks(current, clocks) ==
            if HasHoldover(clocks) then Holdover
            else if !AllLocked(clocks) then FreeRun
            else if current == Unset && clocks != [] then Locked
            else current
    decreases clocks
  {
    if clocks != [] {
      FoldClocksIs(if clocks[0].state != Locked then clocks[0].state else if current == Unset then Locked else current,
                   clocks[1..]);
      assert HasHoldover(clocks) <==> clocks[0].state == Holdover || HasHoldover(clocks[1..]) by {
        assert forall i :: 1 <= i < |clocks| ==> clocks[i] == clocks[1..][i - 1];
      }
      assert AllLocked(clocks) <==> clocks[0].state == Locked && AllLocked(clocks[1..]) by {
        assert forall i :: 1 <= i < |clocks| ==> clocks[i] == clocks[1..][i - 1];
      }
    }
  }

  lemma LockedHasNoHoldover(clocks: seq<ClockState>)
    ensures AllLocked(clocks) ==> !HasHoldover(clocks)
  {
  }

  /** The result is locked exactly when every dependent is, whatever the order. */
  lemma {:induction false} FoldIsLocked(deps: Dependents, order: seq<Process>)
    requires Tidy(deps) && forall i :: 0 <= i < |order| ==> order[i] in deps
    ensures Fold(deps, order) == Unset <==> order == []
    ensures Fold(deps, order) == Locked <==> order != [] && forall i :: 0 <= i < |order| ==> AllLocked(deps[order[i]])
  {
    if order != [] {
      var before, p := order[..|order| - 1], order[|order| - 1];
      FoldIsLocked(deps, before);
      FoldClocksIs(Fold(deps, before), deps[p]);
      LockedHasNoHoldover(deps[p]);
    }
  }

  lemma LockedIffAll(deps: Dependents, order: seq<Process>)
    requires Tidy(deps) && IsOrder(deps, order) && deps != map[]
    ensures Fold(deps, order) == Locked <==> forall p :: p in deps ==> AllLocked(deps[p])
  {
    hide AllLocked, OnePerInterface;
    FoldIsLocked(deps, order);
    var p :| p in deps;
    assert p in order;
    if Fold(deps, order) == Locked {
      forall q | q in deps ensures AllLocked(deps[q]) {
        var i :| 0 <= i < |order| && order[i] == q;
      }
    }
  }

  /** Not all locked: the last process in the order that is not decides, on holdover if it has one. */
  lemma {:induction false} LastUnlockedDecides(deps: Dependents, order: seq<Process>, i: nat)
    requires Tidy(deps) && forall j :: 0 <= j < |order| ==> order[j] in deps
    requires i < |order| && !AllLocked(deps[order[i]]) && forall j :: i < j < |order| ==> AllLocked(deps[order[j]])
    ensures Fold(deps, order) == if HasHoldover(deps[order[i]]) then Holdover else FreeRun
  {
    var before, p := order[..|order| - 1], order[|order| - 1];
    FoldClocksIs(Fold(deps, before), deps[p]);
    LockedHasNoHoldover(deps[p]);
    if i < |order| - 1 {
      LastUnlockedDecides(deps, before, i);
    }
  }

  /** Two processes are not locked, one with a holdover and one without. */
  ghost predicate Contested(deps: Dependents) {
    exists p, q :: p in deps && q in deps && HasHoldover(deps[p]) && !AllLocked(deps[q]) && !HasHoldover(deps[q])
  }

  ghost predicate OrderFree(deps: Dependents) {
    forall a, b :: IsOrder(deps, a) && IsOrder(deps, b) ==> Fold(deps, a) == Fold(deps, b)
  }

  /** Every order of the map gives the same state exactly when no two processes contest it. */
  lemma OrderFreeUnlessContested(deps: Dependents)
    requires Tidy(deps)
    ensures OrderFree(deps) <==> !Contested(deps)
  {
    hide AllLocked, HasHoldover, Tidy, Fold, IsOrderOf;
    InDeps(deps);
    if Contested(deps) {
      var p, q :| p in deps && q in deps && HasHoldover(deps[p]) && !AllLocked(deps[q]) && !HasHoldover(deps[q]);
      var a, b := BothStates(deps, p, q);
      assert Fold(deps, a) != Fold(deps, b);
    } else {
      forall a, b | IsOrder(deps, a) && IsOrder(deps, b) ensures Fold(deps, a) == Fold(deps, b) {
        SameUncontested(deps, a, b);
      }
    }
  }

  lemma InDeps(deps: Dependents)
    ensures forall order :: IsOrder(deps, order) ==> forall i :: 0 <= i < |order| ==> order[i] in deps
  {
  }

  /** Contested by these two processes, it can be either state. */
  lemma BothStates(deps: Dependents, p: Process, q: Process) returns (a: seq<Process>, b: seq<Process>)
    requires Tidy(deps) && p in deps && q in deps
    requires HasHoldover(deps[p]) && !AllLocked(deps[q]) && !HasHoldover(deps[q])
    ensures IsOrder(deps, a) && IsOrder(deps, b)
    ensures Fold(deps, a) == Holdover && Fold(deps, b) == FreeRun
  {
    hide AllLocked, HasHoldover, Tidy, Fold;
    LockedHasNoHoldover(deps[p]);
    a := OrderEndingIn(deps, p);
    b := OrderEndingIn(deps, q);
    LastUnlockedDecides(deps, a, |a| - 1);
    LastUnlockedDecides(deps, b, |b| - 1);
  }

  /** So between a holdover and a freerun of two processes the order of the map decides, where the
      comment over the loop lets any holdover win. */
  lemma OrderDecides(deps: Dependents)
    requires deps.Keys == {"dpll", "gnss"}
    requires deps["dpll"] == [ClockState("ens1f0", Holdover)] && deps["gnss"] == [ClockState("ens1f0", FreeRun)]
    ensures Fold(deps, ["gnss", "dpll"]) == Holdover && Fold(deps, ["dpll", "gnss"]) == FreeRun
  {
    assert deps["dpll"][0].state == Holdover && deps["gnss"][0].state == FreeRun;
    assert Tidy(deps) && "dpll" in deps && "gnss" in deps;
    LastUnlockedDecides(deps, ["gnss", "dpll"], 1);
    LastUnlockedDecides(deps, ["dpll", "gnss"], 1);
  }

  /** An order of the map that ends in a process of our choice. */
  lemma OrderEndingIn(deps: Dependents, p: Process) returns (order: seq<Process>)
    requires p in deps
    ensures IsOrder(deps, order) && order != [] && order[|order| - 1] == p
  {
    order := OrderOf(deps.Keys - {p});
    order := order + [p];
    assert forall q :: q in deps ==> q in order;
  }

  lemma {:induction false} OrderOf(processes: set<Process>) returns (order: seq<Process>)
    ensures IsOrderOf(order, processes)
    decreases |processes|
  {
    if processes == {} {
      order := [];
    } else {
      var p :| p in processes;
      order := OrderOf(processes - {p});
      order := order + [p];
    }
  }

  lemma SameUncontested(deps: Dependents, a: seq<Process>, b: seq<Process>)
    requires Tidy(deps) && IsOrder(deps, a) && IsOrder(deps, b) && !Contested(deps)
    ensures Fold(deps, a) == Fold(deps, b)
  {
    hide AllLocked, HasHoldover, Tidy;
    FoldIsLocked(deps, a);
    FoldIsLocked(deps, b);
    assert a == [] <==> b == [] by {
      assert a != [] ==> a[0] in b;
      assert b != [] ==> b[0] in a;
    }
    if i :| 0 <= i < |a| && !AllLocked(deps[a[i]]) {
      var j :| 0 <= j < |b| && b[j] == a[i];
      var m := LastUnlocked(deps, a, i);
      var n := LastUnlocked(deps, b, j);
      LastUnlockedDecides(deps, a, m);
      LastUnlockedDecides(deps, b, n);
    } else {
      forall j | 0 <= j < |b| ensures AllLocked(deps[b[j]]) {
        var i :| 0 <= i < |a| && a[i] == b[j];
      }
    }
  }

  lemma {:induction false} LastUnlocked(deps: Dependents, order: seq<Process>, i: nat) returns (m: nat)
    requires forall j :: 0 <= j < |order| ==> order[j] in deps
    requires i < |order| && !AllLocked(deps[order[i]])
    ensures m < |order| && !AllLocked(deps[order[m]]) && forall j :: m < j < |order| ==> AllLocked(deps[order[j]])
  {
    if AllLocked(deps[order[|order| - 1]]) {
      m := LastUnlocked(deps, order[..|order| - 1], i);
    } else {
      m := |order| - 1;
    }
  }

  class PTPEventState {
    var dependsOn: Dependents
    var currentPTPStateEvent: SyncState

    constructor ()
      ensures dependsOn == map[] && currentPTPStateEvent == Unset
    {
      dependsOn, currentPTPStateEvent := map[], Unset;
    }

    /** Some order of the map decides between holdover and freerun; none decides on locked. */
    method UpdateCurrentEventState(process: Process, c: ClockState)
      returns (state: SyncState, ghost order: seq<Process>)
      requires Tidy(dependsOn)
      modifies this
      ensures dependsOn == Upsert(old(dependsOn), process, c) && Tidy(dependsOn)
      ensures IsOrder(dependsOn, order) && state == Fold(dependsOn, order)
      ensures state == currentPTPStateEvent
      ensures state == Locked <==> forall p :: p in dependsOn ==> AllLocked(dependsOn[p])
    {
      if process in dependsOn {
        var dep := dependsOn[process];
        var index := HasClockState(dep, c.iface);
        if index == -1 {
          dep := dep + [c];
        } else {
          dep := dep[index := c];
        }
        dependsOn := dependsOn[process := dep];
      } else {
        dependsOn := dependsOn[process := [c]];
      }
      UpsertKeepsTidy(old(dependsOn), process, c);
      hide Tidy, AllLocked, Upsert;
      ghost var deps := dependsOn;
      assert process in deps && Tidy(deps);
      var currentState := Unset;
      order := [];
      var left := dependsOn.Keys;
      while left != {}
        invariant dependsOn == deps && left <= deps.Keys
        invariant IsOrderOf(order, deps.Keys - left)
        invariant currentState == Fold(deps, order)
      {
        var p :| p in left;
        left := left - {p};
        assert (order + [p])[..|order|] == order;
        order := order + [p];
        currentState := LoopClocks(currentState, dependsOn[p]);
      }
      currentPTPStateEvent := currentState;
      state := currentState;
      LockedIffAll(dependsOn, order);
    }

    method HasClockState(clocks: seq<ClockState>, iface: string) returns (index: int)
      ensures index == IndexOf(clocks, iface)
    {
      index := 0;
      while index < |clocks|
        invariant 0 <= index <= |clocks| && forall j :: 0 <= j < index ==> clocks[j].iface != iface
      {
        if clocks[index].iface == iface {
          return;
        }
        index := index + 1;
      }
      return -1;
    }

    method LoopClocks(current: SyncState, clocks: seq<ClockState>) returns (state: SyncState)
      ensures state == FoldClocks(current, clocks)
    {
      state := current;
      var i := 0;
      while i < |clocks|
        invariant 0 <= i <= |clocks| && FoldClocks(current, clocks) == FoldClocks(state, clocks[i..])
      {
        var s := clocks[i].state;
        if s != Locked {
          state := s;
          if s == Holdover {
            break;
          }
        } else if state == Unset {
          state := Locked;
        }
        i := i + 1;
      }
    }
  }
}
