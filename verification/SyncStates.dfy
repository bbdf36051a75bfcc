/** The clock states that events carry, and the aggregation of two of them. */
module SyncStates {

  /** ptp.SyncState. `Unset` is the empty string a fresh Stats object holds. */
  datatype SyncState = Unset | FreeRun | Holdover | Locked

  /** A state that is set. */
  type Known = s: SyncState | s != Unset witness FreeRun

  /** How bad a state is; an unset state carries no information. */
  function Rank(s: SyncState): (r: nat)
    ensures r < 4
  {
    match s
    case Unset => 0
    case Locked => 1
    case Holdover => 2
    case FreeRun => 3
  }

  /** OverallState of the event manager, branch for branch. */
  function OverallState(current: SyncState, updated: SyncState): (r: SyncState)
    ensures r == if Rank(current) >= Rank(updated) then current else updated
  {
    if current == Unset then updated
    else
      match updated
      case FreeRun => FreeRun
      case Holdover => if current == FreeRun then current else updated
      case Locked => current
      case Unset => current
  }

  /** The worst state of a collection: it does not say in which order they were looked at. */
  function WorstOf(states: set<SyncState>): (r: SyncState)
    ensures r == Unset || r in states
    ensures forall s :: s in states ==> Rank(s) <= Rank(r)
  {
    if FreeRun in states then FreeRun
    else if Holdover in states then Holdover
    else if Locked in states then Locked
    else Unset
  }

  /** Taking in one more state, in whatever order, is one OverallState step. */
  lemma WorstOfAdd(states: set<SyncState>, s: SyncState)
    ensures WorstOf(states + {s}) == OverallState(WorstOf(states), s)
  {
    var all := states + {s};
    assert forall t :: t in all <==> t in states || t == s;
  }

  /** The worst of two collections is the worst of their worsts. */
  lemma WorstOfUnion(left: set<SyncState>, right: set<SyncState>)
    ensures WorstOf(left + right) == OverallState(WorstOf(left), WorstOf(right))
  {
    var all := left + right;
    assert forall t :: t in all <==> t in left || t in right;
  }

  /** OverallState is a commutative, associative, idempotent join with identity Unset. */
  lemma OverallStateIsJoin(a: SyncState, b: SyncState, c: SyncState)
    ensures OverallState(a, b) == OverallState(b, a)
    ensures OverallState(OverallState(a, b), c) == OverallState(a, OverallState(b, c))
    ensures OverallState(a, a) == a
    ensures OverallState(Unset, a) == a == OverallState(a, Unset)
  {
  }
}
