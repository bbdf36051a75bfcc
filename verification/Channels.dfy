/** The close channels of the threshold entries: which holdover timer waits on which, and what it
    takes to close the one that a timer waits on. */
module Channels {
  import opened SyncStates
  import opened Int64s
  import opened Options
  import opened Engine

  ghost predicate SameConfig(n: Node, m: Node, c: ConfigName) {
    ConfigOf(m, c).profile == ConfigOf(n, c).profile && ConfigOf(m, c).ptype == ConfigOf(n, c).ptype
  }

  /** A holdover timer's channel is closed or its entry's current one; of the timers started on
      one entry all but the last have a closed channel. */
  ghost predicate ChanInv(n: Node) {
    && (forall p :: p in n.thresholds ==> n.thresholds[p].close < n.nextChan)
    && Distinct(n)
    && (forall chan :: chan in n.closed ==> chan < n.nextChan)
    && (forall i :: 0 <= i < |n.holdovers| ==> TimerInv(n, i))
    && (forall i, j :: 0 <= i < j < |n.holdovers| && SameEntry(n.holdovers[i], n.holdovers[j]) ==>
          n.holdovers[i].chan in n.closed)
  }

  ghost predicate Distinct(n: Node) {
    forall p, q :: p in n.thresholds && q in n.thresholds && p != q ==> n.thresholds[p].close != n.thresholds[q].close
  }

  predicate SameEntry(a: HoldoverTimer, b: HoldoverTimer) {
    a.entry.Some? && a.entry == b.entry
  }

  ghost predicate TimerInv(n: Node, i: nat)
    requires i < |n.holdovers|
  {
    var h := n.holdovers[i];
    && h.chan < n.nextChan
    && (h.entry.Some? ==>
          && h.entry.value in n.thresholds
          && (h.chan in n.closed || h.chan == n.thresholds[h.entry.value].close))
  }

  ghost predicate SameChannels(n: Node, m: Node) {
    m.thresholds == n.thresholds && m.closed == n.closed && m.holdovers == n.holdovers && m.nextChan >= n.nextChan
  }

  lemma ChannelsKept(n: Node, m: Node)
    requires ChanInv(n) && SameChannels(n, m)
    ensures ChanInv(m)
  {
    forall i | 0 <= i < |m.holdovers| ensures TimerInv(m, i) {
      assert TimerInv(n, i);
    }
  }

  // ----- What closes the channel of an entry

  /** Clocks whose locks out of a holdover close the channel of their profile's entry. */
  predicate Closing(n: Node, c: ConfigName, k: IFace) {
    k == ClockRealtime || (k != GmClock && k != TbcClock && ConfigOf(n, c).ptype != Tbc)
  }

  /** Such a clock, of a config with this profile, locks out of a holdover. */
  predicate Closes(n: Node, e: Entry, p: Profile) {
    && e.Stored? && e.was == Holdover && e.now == Locked
    && Closing(n, e.config, e.key) && ConfigOf(n, e.config).profile == p
  }

  /** Since n some clock of a config with this profile has locked out of a holdover, or some config
      has started a holdover timer on its entry. */
  ghost predicate Cancelled(n: Node, m: Node, p: Profile) {
    Relocked(n, m, p) || Restarted(n, m, p)
  }

  ghost predicate Relocked(n: Node, m: Node, p: Profile) {
    exists i :: |n.trace| <= i < |m.trace| && Closes(n, m.trace[i], p)
  }

  ghost predicate Restarted(n: Node, m: Node, p: Profile) {
    exists i :: |n.holdovers| <= i < |m.holdovers| && m.holdovers[i].entry == Some(p)
  }

  /** Every profile of a config has a threshold entry of its own, as UpdatePTPThreshold gives it. */
  ghost predicate OwnEntries(n: Node) {
    forall c :: Keyed(n, c) || ConfigOf(n, c).profile == ""
  }

  predicate Keyed(n: Node, c: ConfigName) {
    ConfigOf(n, c).profile in n.thresholds
  }

  /** How m came of n: the channel of the entry, if it was open, is closed exactly if it has been
      cancelled since, and else still the one in force. */
  ghost predicate Since(n: Node, m: Node, p: Profile) {
    && Later(n, m)
    && (Open(n, p) ==>
          && (n.thresholds[p].close in m.closed <==> Cancelled(n, m, p))
          && (n.thresholds[p].close !in m.closed ==> m.thresholds[p].close == n.thresholds[p].close))
  }

  predicate Open(n: Node, p: Profile) {
    p in n.thresholds && n.thresholds[p].close !in n.closed
  }

  ghost predicate Later(n: Node, m: Node) {
    && n.trace <= m.trace && n.closed <= m.closed && m.thresholds.Keys == n.thresholds.Keys
    && (forall c :: SameConfig(n, m, c))
    && |n.holdovers| <= |m.holdovers|
    && forall i :: 0 <= i < |n.holdovers| ==> SameTimer(n.holdovers[i], m.holdovers[i])
  }

  /** The same timer, though it may be closer to its end. */
  predicate SameTimer(h: HoldoverTimer, g: HoldoverTimer) {
    g == h.(status := g.status)
  }

  lemma OwnEntriesKept(n: Node, m: Node)
    requires OwnEntries(n) && Later(n, m)
    ensures OwnEntries(m)
  {
    forall c ensures Keyed(m, c) || ConfigOf(m, c).profile == "" {
      assert (Keyed(n, c) || ConfigOf(n, c).profile == "") && SameConfig(n, m, c);
    }
  }

  lemma LaterStill(n: Node, m: Node, l: Node)
    requires Later(n, m) && Later(m, l)
    ensures Later(n, l)
  {
    forall c ensures SameConfig(n, l, c) {
      assert SameConfig(n, m, c) && SameConfig(m, l, c);
    }
    forall i | 0 <= i < |n.holdovers| ensures SameTimer(n.holdovers[i], l.holdovers[i]) {
      assert SameTimer(n.holdovers[i], m.holdovers[i]) && SameTimer(m.holdovers[i], l.holdovers[i]);
    }
  }

  /** What cancels in two stretches of a run together. */
  lemma CancelledParts(n: Node, m: Node, l: Node, p: Profile)
    requires Later(n, m) && Later(m, l)
    ensures Cancelled(n, l, p) <==> Cancelled(n, m, p) || Cancelled(m, l, p)
  {
    hide Closes, Closing, ConfigOf;
    RelockedParts(n, m, l, p);
    if Restarted(n, m, p) {
      var i :| |n.holdovers| <= i < |m.holdovers| && m.holdovers[i].entry == Some(p);
      assert SameTimer(m.holdovers[i], l.holdovers[i]);
    }
    if Restarted(n, l, p) && !Restarted(m, l, p) {
      var i :| |n.holdovers| <= i < |l.holdovers| && l.holdovers[i].entry == Some(p);
      assert SameTimer(m.holdovers[i], l.holdovers[i]);
    }
  }

  lemma RelockedParts(n: Node, m: Node, l: Node, p: Profile)
    requires n.trace <= m.trace <= l.trace && forall c :: SameConfig(n, m, c)
    ensures Relocked(n, l, p) <==> Relocked(n, m, p) || Relocked(m, l, p)
  {
    forall e: Entry ensures Closes(n, e, p) == Closes(m, e, p) {
      assert e.Stored? ==> SameConfig(n, m, e.config);
    }
    hide Closes, SameConfig;
    if Relocked(n, m, p) {
      var i :| |n.trace| <= i < |m.trace| && Closes(n, m.trace[i], p);
      assert l.trace[i] == m.trace[i];
    }
    if Relocked(m, l, p) {
      var i :| |m.trace| <= i < |l.trace| && Closes(m, l.trace[i], p);
      assert Closes(n, l.trace[i], p);
    }
    if Relocked(n, l, p) {
      var i :| |n.trace| <= i < |l.trace| && Closes(n, l.trace[i], p);
      assert i < |m.trace| ==> m.trace[i] == l.trace[i];
    }
  }

  lemma SinceThen(n: Node, m: Node, l: Node, p: Profile)
    requires Since(n, m, p) && Since(m, l, p)
    ensures Since(n, l, p)
  {
    hide Cancelled;
    CancelledParts(n, m, l, p);
    LaterStill(n, m, l);
    hide Later;
    assert n.closed <= m.closed <= l.closed by { LaterCloses(n, m); LaterCloses(m, l); }
  }

  lemma LaterCloses(n: Node, m: Node)
    requires Later(n, m)
    ensures n.closed <= m.closed
  {
  }

  // ----- Single changes

  /** Nothing about channels changes, and no clock that could close one locks out of a holdover. */
  lemma NothingCloses(n: Node, m: Node, p: Profile)
    requires SameChannels(n, m) && n.trace <= m.trace
    requires forall c :: SameConfig(n, m, c)
    requires forall i :: |n.trace| <= i < |m.trace| ==> !Closes(n, m.trace[i], p)
    ensures Since(n, m, p)
  {
    hide Closes, SameConfig;
  }

  /** A stored state with its events: the one entry that may close is the first. */
  lemma OneStored(n: Node, m: Node, e: Entry, p: Profile)
    requires n.trace + [e] <= m.trace
    requires forall i :: |n.trace| < i < |m.trace| ==> !m.trace[i].Stored?
    ensures Relocked(n, m, p) <==> Closes(n, e, p)
  {
    hide Closing, ConfigOf;
    assert m.trace[|n.trace|] == e;
  }

  lemma AnnounceShape(n: Node, c: ConfigName, k: IFace, state: SyncState, offset: Int64, kind: EventKind, publish: bool)
    requires state != Unset
    ensures
      var m := Announce(n, c, k, state, offset, kind, publish);
      && n.trace + [Stored(c, k, At(n, c, k).state, state)] <= m.trace
      && forall i :: |n.trace| < i < |m.trace| ==> !m.trace[i].Stored?
  {
    hide Announce, At, Has, NodeState;
  }

  lemma AnnounceSince(n: Node, c: ConfigName, k: IFace, state: SyncState, offset: Int64, kind: EventKind, publish: bool,
                      p: Profile)
    requires state != Unset && (state == Locked ==> !Closing(n, c, k))
    ensures Since(n, Announce(n, c, k, state, offset, kind, publish), p)
  {
    AnnounceShape(n, c, k, state, offset, kind, publish);
    hide Announce, At, Has, NodeState, Closing;
    var m := Announce(n, c, k, state, offset, kind, publish);
    OneStored(n, m, Stored(c, k, At(n, c, k).state, state), p);
    NothingCloses(n, m, p);
  }

  /** GenPTPEvent closes the channel of its profile's entry exactly when it stores a lock out of a
      holdover. */
  lemma GenSince(n: Node, c: ConfigName, k: IFace, offset: Int64, reported: SyncState, kind: EventKind, p: Profile)
    requires Distinct(n)
    requires reported == Locked ==> Keyed(n, c) && Closing(n, c, k)
    ensures Since(n, Gen(n, c, k, offset, reported, kind), p)
  {
    hide Gen, At, Has, Closing, Relocked, IsOffsetInRange;
    var m := Gen(n, c, k, offset, reported, kind);
    if reported != Unset {
      GenRelocks(n, c, k, offset, reported, kind, p);
    } else {
      NothingCloses(n, n, p);
    }
  }

  lemma GenRelocks(n: Node, c: ConfigName, k: IFace, offset: Int64, reported: SyncState, kind: EventKind, p: Profile)
    requires reported != Unset && (reported == Locked ==> Closing(n, c, k))
    ensures
      var m := Gen(n, c, k, offset, reported, kind);
      && n.trace <= m.trace
      && (Relocked(n, m, p) <==>
            At(n, c, k).state == Holdover && At(m, c, k).state == Locked && ConfigOf(n, c).profile == p)
  {
    hide Announce, NodeState, At, Has, IsOffsetInRange, Record, Closing, PtpThreshold;
    var last := At(n, c, k).state;
    var t := PtpThreshold(n, ConfigOf(n, c).profile, false);
    var next := NextState(last, reported, IsOffsetInRange(offset, t.max));
    var r := Recovered(t, last, next);
    ThresholdFrame(n, ConfigOf(n, c).profile, false);
    SameStats(n, r);
    var m := Gen(n, c, k, offset, reported, kind);
    AnnounceShape(r, c, k, next, offset, kind, IsNews(last, next, kind));
    if reported != Locked || next != last {
      OneStored(n, m, Stored(c, k, last, next), p);
    }
  }

  /** A new holdover timer closes the channel of the entry it is started on, and waits on a new one. */
  lemma StartSince(n: Node, c: ConfigName, p: Profile)
    requires Distinct(n)
    ensures Since(n, StartHoldover(n, c), p)
  {
    var m := StartHoldover(n, c);
    StartFrame(n, c);
    hide Lookup, StartHoldover, Closes;
    assert m.holdovers[|n.holdovers|].entry == Lookup(n, ConfigOf(n, c).profile);
  }

  lemma StartFrame(n: Node, c: ConfigName)
    ensures
      var m, entry := StartHoldover(n, c), Lookup(n, ConfigOf(n, c).profile);
      && m.trace == n.trace && m.configs == n.configs
      && m.holdovers == n.holdovers + [HoldoverTimer(c, entry, n.nextChan, Parked)]
      && if entry.None? then m.thresholds == n.thresholds && m.closed == n.closed
         else
           var p := entry.value;
           && p in n.thresholds && m.closed == n.closed + {n.thresholds[p].close}
           && m.thresholds == n.thresholds[p := n.thresholds[p].(close := n.nextChan)]
  {
  }

  lemma StatusSince(n: Node, i: nat, status: Waiting, p: Profile)
    requires i < |n.holdovers|
    ensures Since(n, SetHoldover(n, i, status), p)
  {
  }
}
