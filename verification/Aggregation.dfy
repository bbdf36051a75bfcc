/** The state of the node, computed in two places: GetNodeSyncState when an event is published,
    and the status handler when a client asks. Both fold OverallState over nested Go maps. */
module Aggregation {
  import opened SyncStates
  import opened Engine

  /** The stats that the status handler folds: the main clock and CLOCK_REALTIME. */
  predicate Pulled(keys: set<IFace>, chronyd: bool, k: IFace, st: Stat) {
    && (k == ClockRealtime || k == MainClock(keys))
    && (k == ClockRealtime && chronyd ==> st.process == Chronyd)
  }

  type Chooser = (set<IFace>, bool, IFace, Stat) -> bool

  /** The chosen states among some keys of one config, and among some configs. */
  function StatesAmong(ifaces: map<IFace, Stat>, chronyd: bool, chooser: Chooser, ks: set<IFace>)
      : (states: set<SyncState>)
    requires ks <= ifaces.Keys
  {
    set k | k in ks && chooser(ifaces.Keys, chronyd, k, ifaces[k]) :: ifaces[k].state
  }

  ghost function StatesOf(stats: StatsMap, chronyd: bool, chooser: Chooser, cs: set<ConfigName>)
      : (states: set<SyncState>)
    requires cs <= stats.Keys
  {
    set c, k | c in cs && k in stats[c] && chooser(stats[c].Keys, chronyd, k, stats[c][k]) :: stats[c][k].state
  }

  ghost function PulledStates(stats: StatsMap): (states: set<SyncState>) {
    StatesOf(stats, ChronydActive(stats), Pulled, stats.Keys)
  }

  /** What the handler folds; unset when it found no state. */
  ghost function PullFold(stats: StatsMap): (state: SyncState) {
    WorstOf(PulledStates(stats))
  }

  /** What it answers. */
  ghost function PullState(stats: StatsMap): (state: SyncState) {
    if PullFold(stats) == Unset then FreeRun else PullFold(stats)
  }

  /** The masters that only GetNodeSyncState looks at: those beside a GM clock. */
  ghost function MastersBesideGm(stats: StatsMap): (states: set<SyncState>) {
    set c | c in stats && Master in stats[c] && GmClock in stats[c] :: stats[c][Master].state
  }

  // ----- One more key, one more config: what a loop in any order adds

  lemma NothingAmong(ifaces: map<IFace, Stat>, chronyd: bool, chooser: Chooser)
    ensures WorstOf(StatesAmong(ifaces, chronyd, chooser, {})) == Unset
  {
  }

  lemma NothingOf(stats: StatsMap, chronyd: bool, chooser: Chooser)
    ensures WorstOf(StatesOf(stats, chronyd, chooser, {})) == Unset
  {
  }

  lemma OneMoreKey(ifaces: map<IFace, Stat>, chronyd: bool, chooser: Chooser, ks: set<IFace>, k: IFace)
    requires ks <= ifaces.Keys && k in ifaces
    ensures
      var more := if chooser(ifaces.Keys, chronyd, k, ifaces[k]) then {ifaces[k].state} else {};
      StatesAmong(ifaces, chronyd, chooser, ks + {k}) == StatesAmong(ifaces, chronyd, chooser, ks) + more
  {
  }

  /** One step of the inner loop. */
  lemma FoldKey(ifaces: map<IFace, Stat>, chronyd: bool, chooser: Chooser, ks: set<IFace>, k: IFace, current: SyncState)
    requires ks <= ifaces.Keys && k in ifaces
    ensures
      var before := OverallState(current, WorstOf(StatesAmong(ifaces, chronyd, chooser, ks)));
      OverallState(current, WorstOf(StatesAmong(ifaces, chronyd, chooser, ks + {k})))
      == if chooser(ifaces.Keys, chronyd, k, ifaces[k]) then OverallState(before, ifaces[k].state) else before
  {
    hide StatesAmong, OverallState;
    var states := StatesAmong(ifaces, chronyd, chooser, ks);
    OneMoreKey(ifaces, chronyd, chooser, ks, k);
    WorstOfAdd(states, ifaces[k].state);
    OverallStateIsJoin(current, WorstOf(states), ifaces[k].state);
    assert states + {} == states;
  }

  /** One step of the outer loop. */
  lemma OneMoreConfig(stats: StatsMap, chronyd: bool, chooser: Chooser, cs: set<ConfigName>, c: ConfigName)
    requires cs <= stats.Keys && c in stats
    ensures WorstOf(StatesOf(stats, chronyd, chooser, cs + {c}))
         == OverallState(WorstOf(StatesOf(stats, chronyd, chooser, cs)),
                         WorstOf(StatesAmong(stats[c], chronyd, chooser, stats[c].Keys)))
  {
    var left := StatesOf(stats, chronyd, chooser, cs + {c});
    var right := StatesAmong(stats[c], chronyd, chooser, stats[c].Keys);
    assert left == StatesOf(stats, chronyd, chooser, cs) + right;
    WorstOfUnion(StatesOf(stats, chronyd, chooser, cs), right);
  }

  lemma CountedAreAll(stats: StatsMap)
    ensures CountedStates(stats) == StatesOf(stats, ChronydActive(stats), Counted, stats.Keys)
  {
  }

  // ----- Which states enter the two results, key by key

  /** A chronyd reports some CLOCK_REALTIME. */
  ghost predicate SomeChronyd(stats: StatsMap) {
    exists d :: d in stats && ClockRealtime in stats[d]
                && stats[d][ClockRealtime].process == Chronyd && stats[d][ClockRealtime].state != Unset
  }

  /** GetNodeSyncState: the GM clock; without one the T-BC clock; the master unless a T-BC clock stands for
      the config; CLOCK_REALTIME, but only that of chronyd where a chronyd reports one. */
  ghost predicate EntersNode(stats: StatsMap, c: ConfigName, k: IFace)
    requires c in stats && k in stats[c]
  {
    match k
    case GmClock => true
    case TbcClock => GmClock !in stats[c]
    case Master => GmClock in stats[c] || TbcClock !in stats[c]
    case ClockRealtime => SomeChronyd(stats) ==> stats[c][k].process == Chronyd
    case Port(_) => false
  }

  /** The status handler: the same, but for masters beside a GM clock. */
  ghost predicate EntersPull(stats: StatsMap, c: ConfigName, k: IFace)
    requires c in stats && k in stats[c]
  {
    EntersNode(stats, c, k) && (k == Master ==> GmClock !in stats[c])
  }

  /** This is the worst of one state and of those that enter. */
  ghost predicate IsNodeState(stats: StatsMap, start: SyncState, worst: SyncState) {
    && Rank(start) <= Rank(worst)
    && (forall c, k :: c in stats && k in stats[c] && EntersNode(stats, c, k) ==>
          Rank(stats[c][k].state) <= Rank(worst))
    && (worst == start
        || exists c, k :: c in stats && k in stats[c] && EntersNode(stats, c, k) && stats[c][k].state == worst)
  }

  /** This is the worst known one of those that enter, and FREERUN if none that enters is known. */
  ghost predicate IsPullState(stats: StatsMap, answer: SyncState) {
    if exists c, k :: c in stats && k in stats[c] && EntersPull(stats, c, k) && stats[c][k].state != Unset then
      && (forall c, k :: c in stats && k in stats[c] && EntersPull(stats, c, k) ==>
            Rank(stats[c][k].state) <= Rank(answer))
      && (exists c, k :: c in stats && k in stats[c] && EntersPull(stats, c, k) && stats[c][k].state == answer)
    else answer == FreeRun
  }

  /** The result of GetNodeSyncState is the worst of the state it is given, FREERUN if none, and the states
      that enter by these rules. */
  lemma NodeStateByKey(stats: StatsMap, current: SyncState)
    ensures IsNodeState(stats, if current == Unset then FreeRun else current, NodeState(stats, current))
  {
    forall c, k | c in stats && k in stats[c]
      ensures EntersNode(stats, c, k) <==> Counted(stats[c].Keys, ChronydActive(stats), k, stats[c][k])
    {
      ChronydByKey(stats);
    }
    var states := CountedStates(stats);
    forall c, k | c in stats && k in stats[c] && EntersNode(stats, c, k) ensures stats[c][k].state in states {
      assert Counted(stats[c].Keys, ChronydActive(stats), k, stats[c][k]);
    }
  }

  lemma ChronydByKey(stats: StatsMap)
    ensures SomeChronyd(stats) == ChronydActive(stats)
  {
    if SomeChronyd(stats) {
      var d :| d in stats && ClockRealtime in stats[d]
               && stats[d][ClockRealtime].process == Chronyd && stats[d][ClockRealtime].state != Unset;
      assert ChronydReports(stats[d]);
    }
    if ChronydActive(stats) {
      var d :| d in stats && ChronydReports(stats[d]);
      assert d in stats && ClockRealtime in stats[d];
    }
  }

  /** What the status handler answers. */
  lemma PullStateByKey(stats: StatsMap)
    ensures IsPullState(stats, PullState(stats))
  {
    forall c, k | c in stats && k in stats[c]
      ensures EntersPull(stats, c, k) <==> Pulled(stats[c].Keys, ChronydActive(stats), k, stats[c][k])
    {
      ChronydByKey(stats);
    }
    var states := PulledStates(stats);
    forall c, k | c in stats && k in stats[c] && EntersPull(stats, c, k) ensures stats[c][k].state in states {
      assert Pulled(stats[c].Keys, ChronydActive(stats), k, stats[c][k]);
    }
  }

  // ----- The two results

  lemma CountedSplit(stats: StatsMap)
    ensures CountedStates(stats) == PulledStates(stats) + MastersBesideGm(stats)
  {
    var chronyd := ChronydActive(stats);
    forall s | s in MastersBesideGm(stats) ensures s in CountedStates(stats) {
      var c :| c in stats && Master in stats[c] && GmClock in stats[c] && stats[c][Master].state == s;
      assert Counted(stats[c].Keys, chronyd, Master, stats[c][Master]);
    }
    forall s | s in CountedStates(stats) ensures s in PulledStates(stats) + MastersBesideGm(stats) {
      var c, k :| c in stats && k in stats[c] && stats[c][k].state == s
                  && Counted(stats[c].Keys, chronyd, k, stats[c][k]);
      if !Pulled(stats[c].Keys, chronyd, k, stats[c][k]) {
        assert k == Master && GmClock in stats[c];
      }
    }
    forall s | s in PulledStates(stats) ensures s in CountedStates(stats) {
      var c, k :| c in stats && k in stats[c] && stats[c][k].state == s
                  && Pulled(stats[c].Keys, chronyd, k, stats[c][k]);
      assert Counted(stats[c].Keys, chronyd, k, stats[c][k]);
    }
  }

  /** An answer from a known state is never worse than GetNodeSyncState(LOCKED), and is equal to
      it exactly when no master beside a GM clock is worse. */
  lemma PullAgainstNode(stats: StatsMap)
    requires PullFold(stats) != Unset
    ensures NodeState(stats, Locked) == OverallState(PullState(stats), WorstOf(MastersBesideGm(stats)))
    ensures Rank(PullState(stats)) <= Rank(NodeState(stats, Locked))
    ensures PullState(stats) == NodeState(stats, Locked) <==>
            forall s :: s in MastersBesideGm(stats) ==> Rank(s) <= Rank(PullState(stats))
  {
    hide CountedStates, PulledStates, MastersBesideGm;
    CountedSplit(stats);
    var pulled, masters := PulledStates(stats), MastersBesideGm(stats);
    WorstOfUnion(pulled, masters);
    OverallStateIsJoin(Locked, WorstOf(pulled), WorstOf(masters));
    if PullState(stats) == NodeState(stats, Locked) {
      assert Rank(WorstOf(masters)) <= Rank(PullState(stats));
    } else {
      assert WorstOf(masters) in masters && Rank(WorstOf(masters)) > Rank(PullState(stats));
    }
  }

  /** Without a known state the handler answers FREERUN where GetNodeSyncState(LOCKED) would
      stay LOCKED, unless a master beside a GM clock is worse. */
  lemma PullWithoutState(stats: StatsMap)
    requires PullFold(stats) == Unset
    ensures PullState(stats) == FreeRun
    ensures NodeState(stats, Locked) == OverallState(Locked, WorstOf(MastersBesideGm(stats)))
  {
    hide CountedStates, PulledStates, MastersBesideGm;
    CountedSplit(stats);
    WorstOfUnion(PulledStates(stats), MastersBesideGm(stats));
  }

  /** So the two agree wherever no config has a master beside a GM clock. */
  lemma PullIsNodeState(stats: StatsMap)
    requires PullFold(stats) != Unset
    requires forall c :: c in stats && Master in stats[c] ==> GmClock !in stats[c]
    ensures PullState(stats) == NodeState(stats, Locked)
  {
    assert MastersBesideGm(stats) == {};
    PullAgainstNode(stats);
  }
}
