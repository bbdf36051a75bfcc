/** Reading a run off its trace: stored states, published events, and what must hold between them. */
module EventTrace {
  import opened SyncStates
  import opened Int64s
  import opened Engine

  type Trace = seq<Entry>

  /** The states stored for one clock, in order. */
  function StoredStates(t: Trace, c: ConfigName, k: IFace): (states: seq<SyncState>) {
    if t == [] then []
    else
      var before, e := StoredStates(t[..|t| - 1], c, k), t[|t| - 1];
      if e.Stored? && e.config == c && e.key == k then before + [e.now] else before
  }

  /** The states published for the CLOCK_REALTIME of a config, in order. */
  function E3Events(t: Trace, c: ConfigName): (states: seq<SyncState>) {
    if t == [] then []
    else
      var before, e := E3Events(t[..|t| - 1], c), t[|t| - 1];
      if e.Published? && e.kind == OsClockState && e.config == c then before + [e.state] else before
  }

  function LastOf(states: seq<SyncState>): (state: SyncState) {
    if states == [] then Unset else states[|states| - 1]
  }

  /** Consecutive repeats removed. */
  function DropRepeats(states: seq<SyncState>): (r: seq<SyncState>) {
    if states == [] then []
    else
      var before, s := states[..|states| - 1], states[|states| - 1];
      if s == LastOf(before) then DropRepeats(before) else DropRepeats(before) + [s]
  }

  /** The state the last SyncStateChange event carried. */
  function LastStatus(t: Trace, initial: SyncState): (s: SyncState) {
    if t == [] then initial
    else
      var e := t[|t| - 1];
      if e.Published? && e.kind == SyncStatus then e.state else LastStatus(t[..|t| - 1], initial)
  }

  /** Every SyncStateChange event carries another state than the one before it. */
  predicate StatusChanges(t: Trace, initial: SyncState) {
    t != [] ==>
      var before, e := t[..|t| - 1], t[|t| - 1];
      && StatusChanges(before, initial)
      && (e.Published? && e.kind == SyncStatus ==> e.state != LastStatus(before, initial))
  }

  /** A FREERUN event of the master of a config. */
  predicate E1FreeRun(e: Entry, c: ConfigName) {
    e.Published? && e.kind == PtpState && e.config == c && e.key == Master && e.state == FreeRun
  }

  /** The master of a config enters a holdover or locks. */
  predicate E1Recovers(e: Entry, c: ConfigName) {
    e.Stored? && e.config == c && e.key == Master && (e.now == Holdover || e.now == Locked)
  }

  /** A FREERUN event of the master was published and it has not recovered since. */
  predicate FreeRunOpen(t: Trace, c: ConfigName) {
    t != [] && (E1FreeRun(t[|t| - 1], c) || (!E1Recovers(t[|t| - 1], c) && FreeRunOpen(t[..|t| - 1], c)))
  }

  /** No FREERUN event of the master is published while one is open. */
  predicate FreeRunOnce(t: Trace, c: ConfigName) {
    t != [] ==>
      && FreeRunOnce(t[..|t| - 1], c)
      && (E1FreeRun(t[|t| - 1], c) ==> !FreeRunOpen(t[..|t| - 1], c))
  }

  /** The FREERUN event at j follows its state being stored, and that ended a holdover only
      where a holdover timer had run out. */
  predicate OutOfHoldoverByTimer(t: Trace, c: ConfigName, j: nat)
    requires j < |t|
  {
    E1FreeRun(t[j], c) ==>
      && j >= 1 && t[j - 1].Stored? && t[j - 1].config == c && t[j - 1].key == Master && t[j - 1].now == FreeRun
      && (t[j - 1].was == Holdover ==> j >= 2 && t[j - 2] == Expired(c))
  }

  /** The states published for another clock, in order. */
  function KeyEvents(t: Trace, c: ConfigName, k: IFace): (states: seq<SyncState>) {
    if t == [] then []
    else
      var before, e := KeyEvents(t[..|t| - 1], c, k), t[|t| - 1];
      if e.Published? && e.kind == PtpState && e.config == c && e.key == k then before + [e.state] else before
  }

  /** A stored state that is a change, but for two falls from holdover to freerun: that of a master
      that no timer brought about, and that of a T-BC clock whose ptp4l died. */
  predicate IsChange(before: Trace, c: ConfigName, k: IFace, was: SyncState, now: SyncState) {
    && now != was
    && !(k == Master && was == Holdover && now == FreeRun && !EndsExpired(before, c))
    && !(k == TbcClock && was == Holdover && now == FreeRun && EndsDied(before, c))
  }

  /** The ptp4l of this config has just died. */
  predicate EndsDied(t: Trace, c: ConfigName) {
    t != [] && t[|t| - 1] == Died(c)
  }

  /** The holdover timer of this config has just run out. */
  predicate EndsExpired(t: Trace, c: ConfigName) {
    t != [] && t[|t| - 1] == Expired(c)
  }

  /** The changes among the states stored for a clock, in order. */
  function Changes(t: Trace, c: ConfigName, k: IFace): (states: seq<SyncState>) {
    if t == [] then []
    else
      var before, e := t[..|t| - 1], t[|t| - 1];
      if e.Stored? && e.config == c && e.key == k && IsChange(before, c, k, e.was, e.now)
      then Changes(before, c, k) + [e.now] else Changes(before, c, k)
  }

  /** The state a clock was left in: the last one stored for it, or the freerun of a dead ts2phc. */
  function LastStored(t: Trace, c: ConfigName, k: IFace): (state: SyncState) {
    if t == [] then Unset
    else
      var e := t[|t| - 1];
      if e.Stored? && e.config == c && e.key == k then e.now
      else if e.Silenced? && e.config == c && k in e.keys then FreeRun
      else LastStored(t[..|t| - 1], c, k)
  }

  /** Every stored state says rightly which state it replaces. */
  predicate Anchored(t: Trace) {
    t != [] ==>
      var before, e := t[..|t| - 1], t[|t| - 1];
      Anchored(before) && (e.Stored? ==> e.was == LastStored(before, e.config, e.key))
  }

  lemma AnchorSnoc(t: Trace, e: Entry)
    ensures Anchored(t + [e]) <==> Anchored(t) && (e.Stored? ==> e.was == LastStored(t, e.config, e.key))
    ensures forall c, k ::
      LastStored(t + [e], c, k) == (if e.Stored? && e.config == c && e.key == k then e.now
                                    else if e.Silenced? && e.config == c && k in e.keys then FreeRun
                                    else LastStored(t, c, k))
  {
    assert (t + [e])[..|t|] == t;
  }

  /** No timer has run out, and no ptp4l has died, without the state being stored. */
  predicate Tight(t: Trace) {
    t != [] ==> !t[|t| - 1].Expired? && !t[|t| - 1].Died?
  }

  /** Clocks whose events are the changes of their stored states. */
  predicate Streamed(k: IFace, tbc: bool) {
    k == GmClock || k == TbcClock || (k == Master && !tbc)
  }

  predicate StreamsOk(t: Trace, c: ConfigName, tbc: bool) {
    && (!tbc ==> KeyEvents(t, c, Master) == Changes(t, c, Master))
    && KeyEvents(t, c, GmClock) == Changes(t, c, GmClock)
    && KeyEvents(t, c, TbcClock) == Changes(t, c, TbcClock)
  }

  lemma StreamSnoc(t: Trace, e: Entry, c: ConfigName, k: IFace)
    ensures KeyEvents(t + [e], c, k)
         == if e.Published? && e.kind == PtpState && e.config == c && e.key == k then KeyEvents(t, c, k) + [e.state]
            else KeyEvents(t, c, k)
    ensures Changes(t + [e], c, k)
         == if e.Stored? && e.config == c && e.key == k && IsChange(t, c, k, e.was, e.now)
            then Changes(t, c, k) + [e.now]
            else Changes(t, c, k)
  {
    assert (t + [e])[..|t|] == t;
  }

  /** Entries that are neither stores nor events of those clocks change no stream. */
  lemma OtherKeepsStreams(t: Trace, e: Entry, c: ConfigName, tbc: bool)
    requires StreamsOk(t, c, tbc)
    requires e.Stored? ==> e.config != c || !Streamed(e.key, tbc)
    requires e.Published? && e.kind == PtpState ==> e.config != c || !Streamed(e.key, tbc)
    ensures StreamsOk(t + [e], c, tbc)
  {
    StreamSnoc(t, e, c, Master);
    StreamSnoc(t, e, c, GmClock);
    StreamSnoc(t, e, c, TbcClock);
  }

  /** A state of one of those clocks, stored, and published exactly when it is a change. */
  lemma StoreKeepsStreams(t: Trace, c: ConfigName, k: IFace, was: SyncState, now: SyncState, offset: Int64, tbc: bool)
    requires StreamsOk(t, c, tbc) && Streamed(k, tbc)
    ensures
      var stored := t + [Stored(c, k, was, now)];
      var told := stored + [Published(PtpState, c, k, now, offset)];
      StreamsOk(if IsChange(t, c, k, was, now) then told else stored, c, tbc)
  {
    var e, p := Stored(c, k, was, now), Published(PtpState, c, k, now, offset);
    StreamSnoc(t, e, c, Master);
    StreamSnoc(t, e, c, GmClock);
    StreamSnoc(t, e, c, TbcClock);
    StreamSnoc(t + [e], p, c, Master);
    StreamSnoc(t + [e], p, c, GmClock);
    StreamSnoc(t + [e], p, c, TbcClock);
  }

  /** How each reading moves with one more entry. */
  lemma Snoc(t: Trace, e: Entry, c: ConfigName, k: IFace, initial: SyncState)
    ensures StoredStates(t + [e], c, k)
         == if e.Stored? && e.config == c && e.key == k then StoredStates(t, c, k) + [e.now] else StoredStates(t, c, k)
    ensures E3Events(t + [e], c)
         == if e.Published? && e.kind == OsClockState && e.config == c then E3Events(t, c) + [e.state]
            else E3Events(t, c)
    ensures LastStatus(t + [e], initial)
         == if e.Published? && e.kind == SyncStatus then e.state else LastStatus(t, initial)
    ensures StatusChanges(t + [e], initial)
       <==> StatusChanges(t, initial) && (e.Published? && e.kind == SyncStatus ==> e.state != LastStatus(t, initial))
    ensures FreeRunOpen(t + [e], c) <==> E1FreeRun(e, c) || (!E1Recovers(e, c) && FreeRunOpen(t, c))
    ensures FreeRunOnce(t + [e], c) <==> FreeRunOnce(t, c) && (E1FreeRun(e, c) ==> !FreeRunOpen(t, c))
  {
    assert (t + [e])[..|t|] == t;
  }

  lemma DropRepeatsSnoc(states: seq<SyncState>, s: SyncState)
    ensures DropRepeats(states + [s])
         == if s == LastOf(states) then DropRepeats(states) else DropRepeats(states) + [s]
  {
    assert (states + [s])[..|states|] == states;
  }

  /** Between two FREERUN events of a master lies a stored holdover or lock. */
  lemma {:induction false} FreeRunOnceMeans(t: Trace, c: ConfigName, i: nat, j: nat)
    requires FreeRunOnce(t, c) && i < j < |t| && E1FreeRun(t[i], c) && E1FreeRun(t[j], c)
    ensures exists m :: i < m < j && E1Recovers(t[m], c)
  {
    if j < |t| - 1 {
      FreeRunOnceMeans(t[..|t| - 1], c, i, j);
      var m :| i < m < j && E1Recovers(t[..|t| - 1][m], c);
      assert E1Recovers(t[m], c);
    } else {
      var before := t[..|t| - 1];
      assert !FreeRunOpen(before, c) && E1FreeRun(before[i], c);
      var m := ClosedBy(before, c, i);
      assert t[m] == before[m];
    }
  }

  lemma {:induction false} ClosedBy(t: Trace, c: ConfigName, i: nat) returns (m: nat)
    requires !FreeRunOpen(t, c) && i < |t| && E1FreeRun(t[i], c)
    ensures i < m < |t| && E1Recovers(t[m], c)
  {
    if E1Recovers(t[|t| - 1], c) {
      m := |t| - 1;
    } else {
      m := ClosedBy(t[..|t| - 1], c, i);
    }
  }

  // ----- The part of the invariant that speaks of one config's trace

  ghost predicate ClockOk(t: Trace, c: ConfigName, e3: SyncState, e1: SyncState) {
    && LastOf(StoredStates(t, c, ClockRealtime)) == e3
    && LastOf(StoredStates(t, c, Master)) == e1
    && E3Events(t, c) == DropRepeats(StoredStates(t, c, ClockRealtime))
    && (FreeRunOpen(t, c) ==> e1 == FreeRun)
    && FreeRunOnce(t, c)
    && forall j :: 0 <= j < |t| ==> OutOfHoldoverByTimer(t, c, j)
  }

  /** Entries that are neither stores nor events of the two clocks change nothing. */
  predicate Idle(e: Entry, c: ConfigName) {
    match e
    case Stored(config, key, _, _) => config != c || (key != ClockRealtime && key != Master)
    case Published(kind, config, key, _, _) =>
      config != c || kind == SyncStatus || (kind == PtpState && key != Master)
    case _ => true
  }

  lemma IdleKeepsClockOk(t: Trace, e: Entry, c: ConfigName, e3: SyncState, e1: SyncState)
    requires ClockOk(t, c, e3, e1) && Idle(e, c)
    ensures ClockOk(t + [e], c, e3, e1)
  {
    Snoc(t, e, c, ClockRealtime, Unset);
    Snoc(t, e, c, Master, Unset);
    HoldoverSnoc(t, e, c);
  }

  lemma HoldoverSnoc(t: Trace, e: Entry, c: ConfigName)
    requires forall j :: 0 <= j < |t| ==> OutOfHoldoverByTimer(t, c, j)
    requires OutOfHoldoverByTimer(t + [e], c, |t|)
    ensures forall j :: 0 <= j < |t + [e]| ==> OutOfHoldoverByTimer(t + [e], c, j)
  {
    forall j | 0 <= j < |t| ensures OutOfHoldoverByTimer(t + [e], c, j) {
      assert OutOfHoldoverByTimer(t, c, j);
    }
  }

  /** A state stored for CLOCK_REALTIME, and published when it is a change. */
  lemma E3KeepsClockOk(t: Trace, c: ConfigName, e3: SyncState, e1: SyncState, next: SyncState, offset: Int64)
    requires ClockOk(t, c, e3, e1) && next != Unset
    ensures
      var stored := t + [Stored(c, ClockRealtime, e3, next)];
      if next == e3 then ClockOk(stored, c, next, e1)
      else ClockOk(stored + [Published(OsClockState, c, ClockRealtime, next, offset)], c, next, e1)
  {
    var e, p := Stored(c, ClockRealtime, e3, next), Published(OsClockState, c, ClockRealtime, next, offset);
    DropRepeatsSnoc(StoredStates(t, c, ClockRealtime), next);
    Snoc(t, e, c, ClockRealtime, Unset);
    Snoc(t, e, c, Master, Unset);
    HoldoverSnoc(t, e, c);
    Snoc(t + [e], p, c, ClockRealtime, Unset);
    Snoc(t + [e], p, c, Master, Unset);
    HoldoverSnoc(t + [e], p, c);
  }

  /** A state stored for the master, published or not. */
  lemma E1KeepsClockOk(t: Trace, c: ConfigName, e3: SyncState, e1: SyncState, next: SyncState, offset: Int64,
                       publish: bool)
    requires ClockOk(t, c, e3, e1) && next != Unset
    requires publish && next == FreeRun ==> e1 != FreeRun
    requires publish && next == FreeRun && e1 == Holdover ==> t != [] && t[|t| - 1] == Expired(c)
    ensures
      var stored := t + [Stored(c, Master, e1, next)];
      if publish then ClockOk(stored + [Published(PtpState, c, Master, next, offset)], c, e3, next)
      else ClockOk(stored, c, e3, next)
  {
    var e, p := Stored(c, Master, e1, next), Published(PtpState, c, Master, next, offset);
    Snoc(t, e, c, ClockRealtime, Unset);
    Snoc(t, e, c, Master, Unset);
    HoldoverSnoc(t, e, c);
    if publish {
      Snoc(t + [e], p, c, ClockRealtime, Unset);
      Snoc(t + [e], p, c, Master, Unset);
      HoldoverSnoc(t + [e], p, c);
    }
  }
}
