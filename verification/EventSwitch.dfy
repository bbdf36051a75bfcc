/** The nested switch of GenPTPEvent, case by case, on values. Module Engine has the rule behind
    it: which state follows, what is news, what is recorded. */
module EventSwitch {
  import opened SyncStates
  import opened Int64s
  import opened Engine

  /** A locked report. */
  ghost function GenLocked(n: Node, c: ConfigName, k: IFace, last: SyncState, inRange: bool, close: nat,
                           offset: Int64, kind: EventKind): (m: Node)
  {
    match last
    case FreeRun => if inRange then Record(Announce(n, c, k, Locked, offset, kind, true), c, k, offset, true) else n
    case Locked =>
      if inRange then Record(n, c, k, offset, true)
      else Record(Announce(n, c, k, FreeRun, offset, kind, true), c, k, offset, false)
    case Holdover =>
      if inRange then Record(Announce(SafeClose(n, close), c, k, Locked, offset, kind, true), c, k, offset, true)
      else n
    case Unset =>
      Record(Announce(n, c, k, if inRange then Locked else FreeRun, offset, kind, true), c, k, offset, false)
  }

  /** Any other report but none. */
  ghost function GenUnlocked(n: Node, c: ConfigName, k: IFace, last: SyncState, state: SyncState, offset: Int64,
                             kind: EventKind): (r: Node)
  {
    var m := Store(n, c, k, state);
    if state == FreeRun && last == Holdover && kind != OsClockState then m
    else Record(if last != state then Publish(m, c, k, state, offset, kind) else m, c, k, offset, true)
  }

  /** The switch does what the rule says. */
  lemma GenByCase(n: Node, c: ConfigName, k: IFace, offset: Int64, reported: SyncState, kind: EventKind)
    ensures
      var last := At(n, c, k).state;
      var t := PtpThreshold(n, ConfigOf(n, c).profile, false);
      Gen(n, c, k, offset, reported, kind) ==
      if reported == Unset then n
      else if reported == Locked then
        GenLocked(t.node, c, k, last, IsOffsetInRange(offset, t.max), t.chan, offset, kind)
      else GenUnlocked(t.node, c, k, last, reported, offset, kind)
  {
    hide At, Record, IsOffsetInRange, PtpThreshold, GenLocked, GenUnlocked, Gen, Tell, KeepsOffset, AddsValue;
    var t := PtpThreshold(n, ConfigOf(n, c).profile, false);
    var last := At(n, c, k).state;
    ThresholdFrame(n, ConfigOf(n, c).profile, false);
    SameStats(n, t.node);
    SameStats(n, SafeClose(t.node, t.chan));
    if reported == Locked {
      LockedCase(n, c, k, offset, kind);
    } else if reported != Unset {
      UnlockedCase(n, c, k, offset, reported, kind);
    } else {
      UnsetCase(n, c, k, offset, kind);
    }
  }

  lemma LockedCase(n: Node, c: ConfigName, k: IFace, offset: Int64, kind: EventKind)
    requires
      var t := PtpThreshold(n, ConfigOf(n, c).profile, false);
      At(t.node, c, k) == At(n, c, k) && At(SafeClose(t.node, t.chan), c, k) == At(n, c, k)
    ensures
      var t := PtpThreshold(n, ConfigOf(n, c).profile, false);
      Gen(n, c, k, offset, Locked, kind)
      == GenLocked(t.node, c, k, At(n, c, k).state, IsOffsetInRange(offset, t.max), t.chan, offset, kind)
  {
    var t := PtpThreshold(n, ConfigOf(n, c).profile, false);
    GenUnfolds(n, c, k, offset, Locked, kind);
    LockedSwitch(t, c, k, At(n, c, k).state, IsOffsetInRange(offset, t.max), offset, kind);
    hide At, Record, Announce, IsOffsetInRange, PtpThreshold, Gen, Tell, GenLocked, KeepsOffset, AddsValue;
  }

  lemma GenUnfolds(n: Node, c: ConfigName, k: IFace, offset: Int64, reported: SyncState, kind: EventKind)
    requires reported != Unset
    ensures
      var last := At(n, c, k).state;
      var t := PtpThreshold(n, ConfigOf(n, c).profile, false);
      var inRange := IsOffsetInRange(offset, t.max);
      var next := NextState(last, reported, inRange);
      var told := Tell(Recovered(t, last, next), c, k, next, offset, reported, kind);
      Gen(n, c, k, offset, reported, kind)
      == if KeepsOffset(last, reported, inRange, kind) then told
         else Record(told, c, k, offset, AddsValue(last, reported, inRange, kind))
  {
    hide At, Record, Tell, IsOffsetInRange, PtpThreshold, KeepsOffset, AddsValue;
  }

  lemma LockedSwitch(t: Acquired, c: ConfigName, k: IFace, last: SyncState, inRange: bool, offset: Int64,
                     kind: EventKind)
    requires At(t.node, c, k).state == last && At(SafeClose(t.node, t.chan), c, k).state == last
    ensures
      var next := NextState(last, Locked, inRange);
      var told := Tell(Recovered(t, last, next), c, k, next, offset, Locked, kind);
      GenLocked(t.node, c, k, last, inRange, t.chan, offset, kind)
      == if KeepsOffset(last, Locked, inRange, kind) then told
         else Record(told, c, k, offset, AddsValue(last, Locked, inRange, kind))
  {
    hide At, Record, Announce, SafeClose;
  }

  lemma UnlockedCase(n: Node, c: ConfigName, k: IFace, offset: Int64, reported: SyncState, kind: EventKind)
    requires reported == Holdover || reported == FreeRun
    requires At(PtpThreshold(n, ConfigOf(n, c).profile, false).node, c, k) == At(n, c, k)
    ensures
      var t := PtpThreshold(n, ConfigOf(n, c).profile, false);
      Gen(n, c, k, offset, reported, kind) == GenUnlocked(t.node, c, k, At(n, c, k).state, reported, offset, kind)
  {
    hide At, Record, Publish, Store, IsOffsetInRange, PtpThreshold;
  }

  lemma UnsetCase(n: Node, c: ConfigName, k: IFace, offset: Int64, kind: EventKind)
    ensures Gen(n, c, k, offset, Unset, kind) == n
  {
  }

  /** A node in which every clock of a config has fallen is the one ts2phc leaves behind. */
  lemma AllFallen(n: Node, m: Node, c: ConfigName)
    requires c in n.stats && m.stats.Keys == n.stats.Keys
    requires forall d, k :: Has(m, d, k) <==> Has(n, d, k)
    requires forall d, k :: Has(n, d, k) ==> At(m, d, k) == if d == c then Fallen(n, k, At(n, d, k)) else At(n, d, k)
    ensures m.stats == Silence(n, c).stats
  {
    hide Fallen;
    var next := Silence(n, c).stats;
    forall d | d in m.stats ensures d in next && m.stats[d] == next[d] {
      forall k ensures k in m.stats[d] <==> k in next[d] {
        assert Has(m, d, k) <==> Has(n, d, k);
      }
      forall k | k in m.stats[d] ensures m.stats[d][k] == next[d][k] {
        assert Has(m, d, k) && Has(n, d, k);
      }
    }
  }
}
