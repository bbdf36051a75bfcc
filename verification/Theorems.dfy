/** What holds over whole runs of the engine: for every node that starts, every sequence of log
    lines, and every interleaving of them with settle and holdover timers. */
module Theorems {
  import opened SyncStates
  import opened Int64s
  import opened Options
  import opened OsClock
  import opened Engine
  import opened EventTrace
  import opened Channels
  import opened Invariant
  import opened Steps

  function ConfigsOf(inputs: seq<Input>): (r: set<ConfigName>) {
    set i | 0 <= i < |inputs| && inputs[i].Line? :: inputs[i].config
  }

  lemma AnyRun(r: Run)
    requires IsRun(r)
    ensures Inv(End(r), Env(r.states[0].lastOverall, ConfigsOf(r.inputs), Nothing))
  {
    hide Inv, IsRun;
    RunKeeps(r, ConfigsOf(r.inputs));
  }

  // ----- E3, the clock of the operating system

  /** The E3 events of a config are the states its CLOCK_REALTIME took, repeats removed. */
  lemma E3EventsAreTheChanges(r: Run, c: ConfigName)
    requires IsRun(r)
    ensures
      var end := End(r);
      && E3Events(end.trace, c) == DropRepeats(StoredStates(end.trace, c, ClockRealtime))
      && LastOf(StoredStates(end.trace, c, ClockRealtime)) == At(end, c, ClockRealtime).state
  {
    AnyRun(r);
    assert ClockInv(End(r), c);
  }

  /** Where phc2sys alone reports CLOCK_REALTIME and chronyd is not configured, E3 is FREERUN for
      as long as the operating system's clock is undisciplined, whenever a settle callback runs. */
  lemma UndisciplinedMeansFreeRun(r: Run, foreign: set<ConfigName>, c: ConfigName)
    requires IsRun(r) && forall i :: 0 <= i < |r.inputs| ==> Admitted(r.inputs[i], foreign)
    requires c !in foreign && !ChronydOwns(End(r), c)
    requires At(End(r), c, ClockRealtime).os.phase == Undisciplined
    ensures At(End(r), c, ClockRealtime).state == FreeRun
  {
    RunKeeps(r, foreign);
    assert OsClockInv(End(r), c, foreign);
  }

  /** In every run the discipline machine of a config is where its own calls take it, so what is
      proved of those calls in every order is true of every run. */
  lemma DisciplineIsReplayed(r: Run, c: ConfigName)
    requires IsRun(r)
    ensures var os := At(End(r), c, ClockRealtime).os; os == Replay(os.log) && OsClock.Ok(os)
  {
    AnyRun(r);
    assert OsClockInv(End(r), c, ConfigsOf(r.inputs));
    ReplayOk(At(End(r), c, ClockRealtime).os.log);
  }

  // ----- E1, the clock of the network

  /** The events of a master outside T-BC are the changes among its stored states, but for falls
      from holdover to freerun that no timer brought about: those are silent. */
  lemma E1EventsAreTheChanges(r: Run, c: ConfigName)
    requires IsRun(r) && ConfigOf(End(r), c).ptype != Tbc
    ensures EventsTellChanges(End(r), c, Master)
  {
    AnyRun(r);
    assert ClockInv(End(r), c);
  }

  /** The trace accounts for a clock: every stored state says which one it replaces, the last one is
      the state it has now, and its events are its stored changes. What a dead ts2phc silences is an
      entry of its own: such a fall is a state, but no stored change. */
  ghost predicate EventsTellChanges(n: Node, c: ConfigName, k: IFace) {
    && Anchored(n.trace) && LastStored(n.trace, c, k) == At(n, c, k).state
    && KeyEvents(n.trace, c, k) == Changes(n.trace, c, k)
  }

  /** Those of a grandmaster are all the changes that its status lines store; its fall with a dead
      ts2phc is none of them. */
  lemma GmEventsAreTheChanges(r: Run, c: ConfigName)
    requires IsRun(r)
    ensures EventsTellChanges(End(r), c, GmClock)
  {
    AnyRun(r);
    assert ClockInv(End(r), c);
  }

  /** Those of a T-BC clock are the changes that its status lines and the death of ptp4l store, but
      for a fall from holdover by that death; its fall with a dead ts2phc is none of them either. */
  lemma TbcEventsAreTheChanges(r: Run, c: ConfigName)
    requires IsRun(r)
    ensures EventsTellChanges(End(r), c, TbcClock)
  {
    AnyRun(r);
    assert ClockInv(End(r), c);
  }

  /** Between two FREERUN events of a master it entered a holdover or locked: at most one FREERUN
      is published for one holdover, however many timers there are. */
  lemma OneFreeRunPerHoldover(r: Run, c: ConfigName, i: nat, j: nat)
    requires IsRun(r)
    requires var t := End(r).trace; i < j < |t| && E1FreeRun(t[i], c) && E1FreeRun(t[j], c)
    ensures exists m :: i < m < j && E1Recovers(End(r).trace[m], c)
  {
    AnyRun(r);
    assert ClockInv(End(r), c);
    FreeRunOnceMeans(End(r).trace, c, i, j);
  }

  /** A FREERUN event of a master that ends a holdover is the work of a holdover timer; no sample
      and no dying process publishes it. */
  lemma HoldoverEndsByTimer(r: Run, c: ConfigName, j: nat)
    requires IsRun(r)
    requires var t := End(r).trace; j < |t| && E1FreeRun(t[j], c)
    ensures
      var t := End(r).trace;
      && j >= 1 && t[j - 1].Stored? && t[j - 1].config == c && t[j - 1].key == Master && t[j - 1].now == FreeRun
      && (t[j - 1].was == Holdover ==> j >= 2 && t[j - 2] == Expired(c))
  {
    AnyRun(r);
    assert ClockInv(End(r), c);
    assert OutOfHoldoverByTimer(End(r).trace, c, j);
  }

  // ----- The state of the node

  /** The cached state of the node is the one the last SyncStateChange event carried, and no such
      event repeats the state before it; before the first it is the state loaded at start. */
  lemma StatusEventsAlternate(r: Run)
    requires IsRun(r)
    ensures LastStatus(End(r).trace, r.states[0].lastOverall) == End(r).lastOverall
    ensures StatusChanges(End(r).trace, r.states[0].lastOverall)
  {
    AnyRun(r);
  }

  predicate StatusEvent(e: Entry) {
    e.Published? && e.kind == SyncStatus
  }

  /** Consecutive SyncStateChange events of a run never carry the same state. */
  lemma ConsecutiveStatusDiffers(r: Run, i: nat, j: nat)
    requires IsRun(r)
    requires var t := End(r).trace;
      && i < j < |t| && StatusEvent(t[i]) && StatusEvent(t[j])
      && forall m :: i < m < j ==> !StatusEvent(t[m])
    ensures End(r).trace[i].state != End(r).trace[j].state
  {
    hide Init, Step, StatusChanges;
    StatusEventsAlternate(r);
    StatusChangesMeans(End(r).trace, r.states[0].lastOverall, i, j);
  }

  lemma {:induction false} StatusChangesMeans(t: Trace, initial: SyncState, i: nat, j: nat)
    requires StatusChanges(t, initial)
    requires i < j < |t| && StatusEvent(t[i]) && StatusEvent(t[j])
    requires forall m :: i < m < j ==> !StatusEvent(t[m])
    ensures t[i].state != t[j].state
  {
    if j < |t| - 1 {
      StatusChangesMeans(t[..|t| - 1], initial, i, j);
    } else {
      LastStatusAt(t[..j], initial, i);
    }
  }

  lemma {:induction false} LastStatusAt(t: Trace, initial: SyncState, i: nat)
    requires i < |t| && StatusEvent(t[i]) && forall m :: i < m < |t| ==> !StatusEvent(t[m])
    ensures LastStatus(t, initial) == t[i].state
  {
    if i < |t| - 1 {
      LastStatusAt(t[..|t| - 1], initial, i);
    }
  }

  // ----- Offsets

  /** In every reachable state a locked clock had its last offset in range: every CLOCK_REALTIME,
      every ts2phc interface, and every master outside T-BC. */
  lemma LockedMeansInRange(r: Run, c: ConfigName, k: IFace)
    requires IsRun(r)
    requires var end := End(r); Judged(end, c, k) && OwnThreshold(end, c) && At(end, c, k).state == Locked
    ensures
      var end := End(r);
      var offset, max := At(end, c, k).lastOffset as int, MaxOffset(end, c) as int;
      -max < offset < max || offset == MIN64
  {
    AnyRun(r);
    var end := End(r);
    assert Ranged(end, c, k);
    IsOffsetInRangeExactly(At(end, c, k).lastOffset, MaxOffset(end, c));
  }

  // ----- Channels

  /** Of two holdover timers started on one threshold entry, the earlier one was cancelled. */
  lemma EarlierTimerCancelled(r: Run, i: nat, j: nat)
    requires IsRun(r)
    requires var h := End(r).holdovers; i < j < |h| && h[i].entry.Some? && h[i].entry == h[j].entry
    ensures End(r).holdovers[i].chan in End(r).closed
  {
    AnyRun(r);
    var h := End(r).holdovers;
    assert SameEntry(h[i], h[j]);
  }

  /** A timer whose channel is still open waits on the channel its entry holds now. */
  lemma OpenTimerIsCurrent(r: Run, i: nat)
    requires IsRun(r)
    requires var end := End(r);
      i < |end.holdovers| && end.holdovers[i].entry.Some? && end.holdovers[i].chan !in end.closed
    ensures
      var end := End(r);
      var entry := end.holdovers[i].entry.value;
      entry in end.thresholds && end.thresholds[entry].close == end.holdovers[i].chan
  {
    AnyRun(r);
    assert TimerInv(End(r), i);
  }

  /** A clock that locks in range after a holdover leaves no timer of its profile's entry open. */
  lemma RecoveryCancelsAll(r: Run, c: ConfigName, k: IFace, offset: Int64, kind: EventKind, i: nat)
    requires IsRun(r)
    requires
      var end := End(r);
      var profile := ConfigOf(end, c).profile;
      && At(end, c, k).state == Holdover
      && profile in end.thresholds && IsOffsetInRange(offset, end.thresholds[profile].max)
      && i < |end.holdovers| && end.holdovers[i].entry == Some(profile)
    ensures
      var m := Gen(End(r), c, k, offset, Locked, kind);
      && At(m, c, k).state == Locked
      && m.holdovers[i].chan in m.closed
      && HoldoverFires(m, i) == m
  {
    AnyRun(r);
    var end := End(r);
    assert TimerInv(end, i);
    hide IsRun, Gen, At, TraceInv, RangeInv, OsInv;
  }
}
