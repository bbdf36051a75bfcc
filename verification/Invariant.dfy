/** What every step of the engine keeps, clock by clock, channel by channel. */
module Invariant {
  import opened SyncStates
  import opened Int64s
  import opened OsClock
  import opened Options
  import opened Engine
  import opened EventTrace
  import opened Channels

  /** `initial` is the node state loaded at start. `foreign` are the configs in which another
      process than phc2sys reports CLOCK_REALTIME. `watch` is a threshold entry to keep an eye on. */
  datatype Env = Env(initial: SyncState, foreign: set<ConfigName>, watch: Watch)

  /** The entry, and the state of the run since which it is watched. */
  datatype Watch = Nothing | Watch(start: Node, entry: Profile)

  ghost predicate Inv(n: Node, env: Env) {
    Core(n, env) && Tight(n.trace)
  }

  /** What also holds between the end of a holdover timer and its event. */
  ghost predicate Core(n: Node, env: Env) {
    TraceInv(n, env.initial) && ChanInv(n) && RangeInv(n) && OsInv(n, env.foreign) && WatchInv(n, env.watch)
  }

  /** The channel of a watched entry is closed exactly if that was done in one of two ways. */
  ghost predicate WatchInv(n: Node, watch: Watch) {
    watch.Watch? ==> Since(watch.start, n, watch.entry) && OwnEntries(n)
  }

  lemma WatchKept(n: Node, m: Node, watch: Watch)
    requires WatchInv(n, watch)
    requires watch.Watch? ==> Since(n, m, watch.entry)
    ensures WatchInv(m, watch)
  {
    if watch.Watch? {
      SinceThen(watch.start, n, m, watch.entry);
      OwnEntriesKept(n, m);
    }
  }

  /** Under watch every config that reports has a threshold entry of its own. */
  predicate Watched(n: Node, c: ConfigName, env: Env) {
    env.watch.Watch? ==> Keyed(n, c)
  }

  /** The trace agrees with the stored states, and the events with the trace. */
  ghost predicate TraceInv(n: Node, initial: SyncState) {
    && LastStatus(n.trace, initial) == n.lastOverall
    && StatusChanges(n.trace, initial)
    && Rooted(n)
    && forall c :: ClockInv(n, c)
  }

  /** The trace tells the state of every clock, and every stored state which one it replaced. */
  ghost predicate Rooted(n: Node) {
    Anchored(n.trace) && forall c, k :: LastStored(n.trace, c, k) == At(n, c, k).state
  }

  ghost predicate ClockInv(n: Node, c: ConfigName) {
    && ClockOk(n.trace, c, At(n, c, ClockRealtime).state, At(n, c, Master).state)
    && StreamsOk(n.trace, c, ConfigOf(n, c).ptype == Tbc)
  }

  /** Clocks whose state is an offset judgement of this program. */
  predicate Judged(n: Node, c: ConfigName, k: IFace) {
    k != GmClock && k != TbcClock && !(k == Master && ConfigOf(n, c).ptype == Tbc)
  }

  /** A locked clock has its last offset in range. */
  ghost predicate RangeInv(n: Node) {
    forall c, k :: Ranged(n, c, k)
  }

  ghost predicate Ranged(n: Node, c: ConfigName, k: IFace) {
    Judged(n, c, k) && OwnThreshold(n, c) && At(n, c, k).state == Locked
    ==> IsOffsetInRange(At(n, c, k).lastOffset, MaxOffset(n, c))
  }

  predicate ChronydOwns(n: Node, c: ConfigName) {
    OptsOf(n, c).Some? && OptsOf(n, c).value.chronyd
  }

  /** The discipline machine was only moved by its own calls; while it is undisciplined, and
      phc2sys alone reports CLOCK_REALTIME, E3 is FREERUN. */
  ghost predicate OsInv(n: Node, foreign: set<ConfigName>) {
    forall c :: OsClockInv(n, c, foreign)
  }

  ghost predicate OsClockInv(n: Node, c: ConfigName, foreign: set<ConfigName>) {
    var st := At(n, c, ClockRealtime);
    && st.os == Replay(st.os.log)
    && (st.os.phase == Undisciplined && c !in foreign && !ChronydOwns(n, c) ==> st.state == FreeRun)
  }

  lemma InitInv(n: Node, foreign: set<ConfigName>)
    requires Init(n)
    ensures Inv(n, Env(n.lastOverall, foreign, Nothing))
  {
  }

  // ----- Changes no part of the invariant looks at

  ghost predicate Quiet(n: Node, m: Node) {
    && m.trace == n.trace && m.lastOverall == n.lastOverall && SameChannels(n, m)
    && m.opts == n.opts && m.tbcProfiles == n.tbcProfiles
    && (forall c :: SameConfig(n, m, c))
    && (forall c, k :: SameClock(n, m, c, k))
  }

  ghost predicate SameClock(n: Node, m: Node, c: ConfigName, k: IFace) {
    && At(m, c, k).state == At(n, c, k).state
    && At(m, c, k).os == At(n, c, k).os
    && (At(m, c, k).lastOffset == At(n, c, k).lastOffset || k == GmClock || k == TbcClock)
  }

  /** A clock that is locked now was locked with the same offset before, or is judged elsewhere. */
  ghost predicate LocksKept(n: Node, m: Node, c: ConfigName, k: IFace) {
    At(m, c, k).state == Locked && Judged(n, c, k) ==>
      At(n, c, k).state == Locked && At(m, c, k).lastOffset == At(n, c, k).lastOffset
  }

  lemma RangeKept(n: Node, m: Node)
    requires RangeInv(n) && m.thresholds == n.thresholds
    requires forall c :: SameConfig(n, m, c)
    requires forall c, k :: LocksKept(n, m, c, k)
    ensures RangeInv(m)
  {
    forall c, k ensures Ranged(m, c, k) {
      assert Ranged(n, c, k) && LocksKept(n, m, c, k) && SameConfig(n, m, c);
    }
  }

  lemma QuietKeeps(n: Node, m: Node, env: Env)
    requires Inv(n, env) && Quiet(n, m)
    ensures Inv(m, env)
  {
    QuietWatch(n, m, env.watch);
    QuietRooted(n, m);
    hide WatchInv, Rooted;
    forall c ensures ClockInv(m, c) && OsClockInv(m, c, env.foreign) {
      assert ClockInv(n, c) && OsClockInv(n, c, env.foreign);
      assert SameConfig(n, m, c) && SameClock(n, m, c, ClockRealtime) && SameClock(n, m, c, Master);
    }
    ChannelsKept(n, m);
    forall c, k ensures LocksKept(n, m, c, k) {
      assert SameClock(n, m, c, k);
    }
    RangeKept(n, m);
  }

  lemma QuietRooted(n: Node, m: Node)
    requires Rooted(n) && Quiet(n, m)
    ensures Rooted(m)
  {
    hide At, Anchored, LastStored;
    forall c, k ensures LastStored(m.trace, c, k) == At(m, c, k).state {
      assert SameClock(n, m, c, k);
    }
  }

  lemma QuietWatch(n: Node, m: Node, watch: Watch)
    requires WatchInv(n, watch) && Quiet(n, m)
    ensures WatchInv(m, watch)
  {
    hide WatchInv, SameConfig, SameClock, Since;
    if watch.Watch? {
      NothingCloses(n, m, watch.entry);
    }
    WatchKept(n, m, watch);
  }

  // ----- Storing a state and publishing it

  /** When a stored state is published, and which states may be stored. */
  ghost predicate MayAnnounce(n: Node, c: ConfigName, k: IFace, state: SyncState, kind: EventKind, publish: bool) {
    var last := At(n, c, k).state;
    && state != Unset
    && (k == ClockRealtime ==> kind == OsClockState && (publish <==> state != last))
    && (k != ClockRealtime ==> kind == PtpState)
    && (k == Master && publish && state == FreeRun ==>
          last != FreeRun && (last == Holdover ==> EndsExpired(n.trace, c)))
    && (Streamed(k, ConfigOf(n, c).ptype == Tbc) ==>
          (publish <==> IsChange(n.trace, c, k, last, state)))
  }

  lemma AnnounceTrace(n: Node, c: ConfigName, k: IFace, state: SyncState, offset: Int64, kind: EventKind,
                      publish: bool, initial: SyncState)
    requires TraceInv(n, initial) && MayAnnounce(n, c, k, state, kind, publish)
    ensures TraceInv(Announce(n, c, k, state, offset, kind, publish), initial)
    ensures Tight(Announce(n, c, k, state, offset, kind, publish).trace)
  {
    hide Announce, NodeState, At, Has, ClockInv, Rooted, MayAnnounce;
    MayBeKnown(n, c, k, state, kind, publish);
    AnnounceRooted(n, c, k, state, offset, kind, publish);
    var stored := n.trace + [Stored(c, k, At(n, c, k).state, state)];
    var told := stored + [Published(kind, c, k, state, offset)];
    var m := Announce(n, c, k, state, offset, kind, publish);
    Snoc(n.trace, stored[|n.trace|], c, k, initial);
    Snoc(stored, told[|stored|], c, k, initial);
    if m.trace != stored && m.trace != told {
      assert m.trace == told + [m.trace[|told|]];
      Snoc(told, m.trace[|told|], c, k, initial);
    }
    forall d ensures ClockInv(m, d) {
      assert ClockInv(n, d);
      AnnounceClock(n, c, k, state, offset, kind, publish, d);
    }
  }

  lemma AnnounceRooted(n: Node, c: ConfigName, k: IFace, state: SyncState, offset: Int64, kind: EventKind,
                       publish: bool)
    requires Rooted(n) && state != Unset
    ensures Rooted(Announce(n, c, k, state, offset, kind, publish))
  {
    hide Announce, NodeState, At, Has, Anchored, LastStored;
    var m := Announce(n, c, k, state, offset, kind, publish);
    var store, event := Stored(c, k, At(n, c, k).state, state), Published(kind, c, k, state, offset);
    var stored, told := n.trace + [store], n.trace + [store] + [event];
    AnchorSnoc(n.trace, store);
    AnchorSnoc(stored, event);
    if m.trace != stored && m.trace != told {
      assert m.trace == told + [m.trace[|told|]];
      AnchorSnoc(told, m.trace[|told|]);
    }
  }

  lemma AnnounceClock(n: Node, c: ConfigName, k: IFace, state: SyncState, offset: Int64, kind: EventKind,
                      publish: bool, d: ConfigName)
    requires ClockInv(n, d) && MayAnnounce(n, c, k, state, kind, publish)
    ensures ClockInv(Announce(n, c, k, state, offset, kind, publish), d)
  {
    var m := Announce(n, c, k, state, offset, kind, publish);
    AnnounceStreams(n, c, k, state, offset, kind, publish, d);
    MayBeKnown(n, c, k, state, kind, publish);
    ToldClock(n, c, k, state, offset, kind, publish, d);
    hide Announce, NodeState, At, Has, ClockOk, StreamsOk, MayAnnounce;
    var stored := n.trace + [Stored(c, k, At(n, c, k).state, state)];
    var told := if publish then stored + [Published(kind, c, k, state, offset)] else stored;
    if m.trace != told {
      assert m.trace == told + [m.trace[|told|]];
      IdleKeepsClockOk(told, m.trace[|told|], d, At(m, d, ClockRealtime).state, At(m, d, Master).state);
    }
  }

  lemma ToldClock(n: Node, c: ConfigName, k: IFace, state: SyncState, offset: Int64, kind: EventKind,
                  publish: bool, d: ConfigName)
    requires ClockInv(n, d) && MayAnnounce(n, c, k, state, kind, publish)
    ensures
      var stored := n.trace + [Stored(c, k, At(n, c, k).state, state)];
      var told := if publish then stored + [Published(kind, c, k, state, offset)] else stored;
      var m := Announce(n, c, k, state, offset, kind, publish);
      ClockOk(told, d, At(m, d, ClockRealtime).state, At(m, d, Master).state)
  {
    hide Announce, NodeState, At, Has, ClockOk, StreamsOk, IsChange, Streamed;
    var e3, e1 := At(n, d, ClockRealtime).state, At(n, d, Master).state;
    var store, event := Stored(c, k, At(n, c, k).state, state), Published(kind, c, k, state, offset);
    if d == c && k == ClockRealtime {
      E3KeepsClockOk(n.trace, c, e3, e1, state, offset);
    } else if d == c && k == Master {
      E1KeepsClockOk(n.trace, c, e3, e1, state, offset, publish);
    } else {
      IdleKeepsClockOk(n.trace, store, d, e3, e1);
      if publish {
        IdleKeepsClockOk(n.trace + [store], event, d, e3, e1);
      }
    }
  }

  lemma AnnounceStreams(n: Node, c: ConfigName, k: IFace, state: SyncState, offset: Int64, kind: EventKind,
                        publish: bool, d: ConfigName)
    requires ClockInv(n, d) && MayAnnounce(n, c, k, state, kind, publish)
    ensures StreamsOk(Announce(n, c, k, state, offset, kind, publish).trace, d, ConfigOf(n, d).ptype == Tbc)
  {
    var tbc := ConfigOf(n, d).ptype == Tbc;
    var store, event := Stored(c, k, At(n, c, k).state, state), Published(kind, c, k, state, offset);
    var stored, told := n.trace + [store], n.trace + [store] + [event];
    var m := Announce(n, c, k, state, offset, kind, publish);
    hide Announce, NodeState, At, Has, ClockOk, StreamsOk, IsChange, EndsExpired, ConfigOf;
    if d == c && Streamed(k, tbc) {
      StoreKeepsStreams(n.trace, c, k, At(n, c, k).state, state, offset, tbc);
    } else {
      OtherKeepsStreams(n.trace, store, d, tbc);
      if publish {
        OtherKeepsStreams(stored, event, d, tbc);
      }
    }
    if m.trace != stored && m.trace != told {
      assert m.trace == told + [m.trace[|told|]];
      OtherKeepsStreams(told, m.trace[|told|], d, tbc);
    }
  }

  /** Whether the undisciplined clock of a config allows this state. */
  predicate Disciplined(n: Node, c: ConfigName, k: IFace, state: SyncState, foreign: set<ConfigName>) {
    (k == ClockRealtime && c !in foreign && !ChronydOwns(n, c) && At(n, c, k).os.phase == Undisciplined)
    ==> state == FreeRun
  }

  lemma AnnounceCore(n: Node, c: ConfigName, k: IFace, state: SyncState, offset: Int64, kind: EventKind,
                      publish: bool, env: Env)
    requires Core(n, env) && MayAnnounce(n, c, k, state, kind, publish)
    requires state == Locked ==> !Judged(n, c, k)
    requires Disciplined(n, c, k, state, env.foreign)
    ensures Inv(Announce(n, c, k, state, offset, kind, publish), env)
  {
    hide Announce, NodeState, At, Has, TraceInv, MayAnnounce, Replay, ChanInv, RangeInv, WatchInv;
    MayBeKnown(n, c, k, state, kind, publish);
    AnnounceWatch(n, c, k, state, offset, kind, publish, env.watch);
    var m := Announce(n, c, k, state, offset, kind, publish);
    AnnounceTrace(n, c, k, state, offset, kind, publish, env.initial);
    forall d ensures OsClockInv(m, d, env.foreign) {
      assert OsClockInv(n, d, env.foreign);
    }
    ChannelsKept(n, m);
    RangeKept(n, m);
  }

  lemma MayBeKnown(n: Node, c: ConfigName, k: IFace, state: SyncState, kind: EventKind, publish: bool)
    requires MayAnnounce(n, c, k, state, kind, publish)
    ensures state != Unset && kind != SyncStatus
  {
  }

  lemma AnnounceWatch(n: Node, c: ConfigName, k: IFace, state: SyncState, offset: Int64, kind: EventKind,
                      publish: bool, watch: Watch)
    requires WatchInv(n, watch) && state != Unset && (state == Locked ==> !Closing(n, c, k))
    ensures WatchInv(Announce(n, c, k, state, offset, kind, publish), watch)
  {
    hide WatchInv, Announce, Since, Closing;
    if watch.Watch? {
      AnnounceSince(n, c, k, state, offset, kind, publish, watch.entry);
    }
    WatchKept(n, Announce(n, c, k, state, offset, kind, publish), watch);
  }

  lemma AnnounceKeeps(n: Node, c: ConfigName, k: IFace, state: SyncState, offset: Int64, kind: EventKind,
                      publish: bool, env: Env)
    requires Inv(n, env) && MayAnnounce(n, c, k, state, kind, publish)
    requires state == Locked ==> !Judged(n, c, k)
    requires Disciplined(n, c, k, state, env.foreign)
    ensures Inv(Announce(n, c, k, state, offset, kind, publish), env)
  {
    hide Announce, Core, MayAnnounce, Judged, Disciplined;
    AnnounceCore(n, c, k, state, offset, kind, publish, env);
  }

  // ----- GenPTPEvent

  lemma TellTrace(n: Node, c: ConfigName, k: IFace, next: SyncState, offset: Int64, reported: SyncState,
                  kind: EventKind, initial: SyncState)
    requires TraceInv(n, initial) && Tight(n.trace) && next != Unset && k != GmClock && k != TbcClock
    requires if k == ClockRealtime then kind == OsClockState else kind == PtpState
    ensures TraceInv(Tell(n, c, k, next, offset, reported, kind), initial)
    ensures Tight(Tell(n, c, k, next, offset, reported, kind).trace)
  {
    hide Announce, NodeState, At, Has, TraceInv, MayAnnounce, IsNews;
    NewsMayBeAnnounced(n, c, k, next, kind);
    AnnounceTrace(n, c, k, next, offset, kind, IsNews(At(n, c, k).state, next, kind), initial);
  }

  lemma GenTrace(n: Node, c: ConfigName, k: IFace, offset: Int64, reported: SyncState, kind: EventKind,
                 initial: SyncState)
    requires TraceInv(n, initial) && Tight(n.trace) && reported != Unset && k != GmClock && k != TbcClock
    requires if k == ClockRealtime then kind == OsClockState else kind == PtpState
    ensures TraceInv(Gen(n, c, k, offset, reported, kind), initial)
    ensures Tight(Gen(n, c, k, offset, reported, kind).trace)
  {
    hide Tell, Record, NodeState, At, Has, TraceInv, PtpThreshold, IsOffsetInRange, KeepsOffset, AddsValue, Recovered;
    var last := At(n, c, k).state;
    var t := PtpThreshold(n, ConfigOf(n, c).profile, false);
    var inRange := IsOffsetInRange(offset, t.max);
    var next := NextState(last, reported, inRange);
    var m := Recovered(t, last, next);
    RecoveredTrace(n, c, last, next, initial);
    TellTrace(m, c, k, next, offset, reported, kind, initial);
    var told := Tell(m, c, k, next, offset, reported, kind);
    SameTrace(told, Record(told, c, k, offset, AddsValue(last, reported, inRange, kind)), initial);
  }

  lemma RecoveredTrace(n: Node, c: ConfigName, last: SyncState, next: SyncState, initial: SyncState)
    requires TraceInv(n, initial)
    ensures
      var m := Recovered(PtpThreshold(n, ConfigOf(n, c).profile, false), last, next);
      TraceInv(m, initial) && m.trace == n.trace && forall d, j :: At(m, d, j) == At(n, d, j)
  {
    hide TraceInv, At, Has, PtpThreshold;
    var m := Recovered(PtpThreshold(n, ConfigOf(n, c).profile, false), last, next);
    ThresholdFrame(n, ConfigOf(n, c).profile, false);
    SameStats(n, m);
    SameTrace(n, m, initial);
  }

  lemma NewsMayBeAnnounced(n: Node, c: ConfigName, k: IFace, next: SyncState, kind: EventKind)
    requires next != Unset && k != GmClock && k != TbcClock && Tight(n.trace)
    requires if k == ClockRealtime then kind == OsClockState else kind == PtpState
    ensures MayAnnounce(n, c, k, next, kind, IsNews(At(n, c, k).state, next, kind))
  {
  }

  lemma SameTrace(n: Node, m: Node, initial: SyncState)
    requires TraceInv(n, initial) && m.trace == n.trace && m.lastOverall == n.lastOverall
    requires forall c, k :: At(m, c, k).state == At(n, c, k).state
    requires forall c :: SameConfig(n, m, c)
    ensures TraceInv(m, initial)
  {
    hide ClockOk, StreamsOk, Anchored, LastStored;
    forall c ensures ClockInv(m, c) {
      assert ClockInv(n, c) && SameConfig(n, m, c);
    }
  }

  lemma GenKeeps(n: Node, c: ConfigName, k: IFace, offset: Int64, reported: SyncState, kind: EventKind, env: Env)
    requires Inv(n, env) && k != GmClock && k != TbcClock
    requires if k == ClockRealtime then kind == OsClockState else kind == PtpState
    requires Disciplined(n, c, k, reported, env.foreign)
    requires reported == Locked ==> Watched(n, c, env) && Closing(n, c, k)
    ensures Inv(Gen(n, c, k, offset, reported, kind), env)
  {
    hide Gen, At, Has, TraceInv, ChanInv, RangeInv, Replay, WatchInv, Closing, Watched, IsOffsetInRange;
    GenWatch(n, c, k, offset, reported, kind, env);
    if reported != Unset {
      var m := Gen(n, c, k, offset, reported, kind);
      GenTrace(n, c, k, offset, reported, kind, env.initial);
      GenChannels(n, c, k, offset, reported, kind);
      GenRange(n, c, k, offset, reported, kind);
      forall d ensures OsClockInv(m, d, env.foreign) {
        assert OsClockInv(n, d, env.foreign);
      }
    }
  }

  lemma GenChannels(n: Node, c: ConfigName, k: IFace, offset: Int64, reported: SyncState, kind: EventKind)
    requires ChanInv(n)
    ensures ChanInv(Gen(n, c, k, offset, reported, kind))
  {
    hide Gen, At, Has, IsOffsetInRange;
    var m := Gen(n, c, k, offset, reported, kind);
    forall i | 0 <= i < |m.holdovers| ensures TimerInv(m, i) {
      assert TimerInv(n, i);
    }
  }

  lemma GenRange(n: Node, c: ConfigName, k: IFace, offset: Int64, reported: SyncState, kind: EventKind)
    requires RangeInv(n)
    ensures RangeInv(Gen(n, c, k, offset, reported, kind))
  {
    hide Gen, At, Has, IsOffsetInRange;
    var m := Gen(n, c, k, offset, reported, kind);
    forall d, j ensures Ranged(m, d, j) {
      assert Ranged(n, d, j);
    }
  }

  lemma GenWatch(n: Node, c: ConfigName, k: IFace, offset: Int64, reported: SyncState, kind: EventKind, env: Env)
    requires WatchInv(n, env.watch) && ChanInv(n)
    requires reported == Locked ==> Watched(n, c, env) && Closing(n, c, k)
    ensures WatchInv(Gen(n, c, k, offset, reported, kind), env.watch)
  {
    hide WatchInv, Gen, Since, Closing, Keyed, TimerInv;
    if env.watch.Watch? {
      GenSince(n, c, k, offset, reported, kind, env.watch.entry);
    }
    WatchKept(n, Gen(n, c, k, offset, reported, kind), env.watch);
  }
}
