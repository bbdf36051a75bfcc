/** The grandmaster and the T-BC clock: what their status lines publish, and what the death of
    ptp4l or ts2phc in between does to that. */
module StatusClocks {
  import opened SyncStates
  import opened Int64s
  import opened Options
  import opened Engine
  import opened EventTrace
  import opened Invariant
  import opened Elsewhere
  import opened Samples
  import opened Theorems
  import Steps

  /** What a step adds to the events of a clock. */
  ghost predicate Adds(n: Node, m: Node, c: ConfigName, k: IFace, states: seq<SyncState>) {
    KeyEvents(m.trace, c, k) == KeyEvents(n.trace, c, k) + states
  }

  lemma AddedLater(n: Node, m: Node, l: Node, c: ConfigName, k: IFace, states: seq<SyncState>)
    requires Adds(n, m, c, k, states)
    ensures Unread(m, l, c, k) ==> Adds(n, l, c, k, states)
  {
    if Unread(m, l, c, k) {
      QuietReads(m.trace, l.trace, c, k);
    }
  }

  lemma UnreadAdds(n: Node, m: Node, c: ConfigName, k: IFace)
    requires Unread(n, m, c, k)
    ensures Adds(n, m, c, k, [])
  {
    QuietReads(n.trace, m.trace, c, k);
  }

  lemma AnnounceAdds(n: Node, c: ConfigName, k: IFace, state: SyncState, offset: Int64, publish: bool)
    requires state != Unset
    ensures Adds(n, Announce(n, c, k, state, offset, PtpState, publish), c, k, if publish then [state] else [])
  {
    hide NodeState, At, Announce, KeyEvents;
    var store, event := Stored(c, k, At(n, c, k).state, state), Published(PtpState, c, k, state, offset);
    var told := n.trace + [store] + [event];
    var m := Announce(n, c, k, state, offset, PtpState, publish);
    StreamSnoc(n.trace, store, c, k);
    StreamSnoc(n.trace + [store], event, c, k);
    if m.trace != n.trace + [store] && m.trace != told {
      assert m.trace == told + [m.trace[|told|]];
      StreamSnoc(told, m.trace[|told|], c, k);
    }
  }

  /** The state that the last event of any grandmaster carried. */
  function LastGm(t: Trace): (state: SyncState) {
    if t == [] then Unset
    else
      var e := t[|t| - 1];
      if e.Published? && e.kind == PtpState && e.key == GmClock then e.state else LastGm(t[..|t| - 1])
  }

  lemma LastGmSnoc(t: Trace, e: Entry)
    ensures LastGm(t + [e]) == if e.Published? && e.kind == PtpState && e.key == GmClock then e.state else LastGm(t)
  {
    assert (t + [e])[..|t|] == t;
  }

  lemma {:induction false} LastGmQuiet(t: Trace, u: Trace)
    requires t <= u
    requires forall i :: |t| <= i < |u| ==> !(u[i].Published? && u[i].kind == PtpState && u[i].key == GmClock)
    ensures LastGm(u) == LastGm(t)
    decreases |u|
  {
    if |u| > |t| {
      LastGmQuiet(t, u[..|u| - 1]);
    } else {
      assert u == t;
    }
  }

  lemma AnnounceLastGm(n: Node, c: ConfigName, k: IFace, state: SyncState, offset: Int64)
    requires state != Unset
    ensures LastGm(Announce(n, c, k, state, offset, PtpState, true).trace)
         == if k == GmClock then state else LastGm(n.trace)
  {
    hide NodeState, At, Announce, LastGm;
    var store, event := Stored(c, k, At(n, c, k).state, state), Published(PtpState, c, k, state, offset);
    var told := n.trace + [store] + [event];
    var m := Announce(n, c, k, state, offset, PtpState, true);
    LastGmSnoc(n.trace, store);
    LastGmSnoc(n.trace + [store], event);
    if m.trace != told {
      assert m.trace == told + [m.trace[|told|]];
      LastGmSnoc(told, m.trace[|told|]);
    }
  }

  // ----- Status lines

  predicate IsStatus(log: LogLine, k: IFace) {
    (log.GmStatus? && k == GmClock) || (log.TbcStatus? && k == TbcClock)
  }

  function Told(log: LogLine): (state: SyncState)
    requires log.GmStatus? || log.TbcStatus?
  {
    if log.GmStatus? then log.gm else log.tbc
  }

  function OffsetSaid(log: LogLine): (offset: Int64)
    requires log.GmStatus? || log.TbcStatus?
  {
    if log.GmStatus? then log.phaseOffset else log.tbcOffset
  }

  /** The line is handled: it is not refused, and ParseGMLogs finds the stats of the interface. */
  predicate Handled(n: Node, c: ConfigName, log: LogLine)
    requires log.GmStatus? || log.TbcStatus?
  {
    Accepts(ConfigOf(n, c), log) && (log.GmStatus? ==> Has(n, c, Port(log.iface)))
  }

  /** In every run a status line adds its state to the events of its clock exactly if it is handled
      and says another state than the clock has; then it also stores it, and the grandmaster's
      becomes the state that overrules other processes. */
  lemma StatusLineAdds(r: Run, i: nat, c: ConfigName, log: LogLine, k: IFace)
    requires IsRun(r) && i < |r.inputs| && r.inputs[i] == Line(c, log) && IsStatus(log, k)
    ensures
      var n, m := r.states[i], r.states[i + 1];
      var news := Handled(n, c, log) && Told(log) != Unset && Told(log) != At(n, c, k).state;
      && Adds(n, m, c, k, if news then [Told(log)] else [])
      && At(m, c, k).state == (if news then Told(log) else At(n, c, k).state)
      && m.gmState == (if news && k == GmClock then Told(log) else n.gmState)
      && LastGm(m.trace) == (if news && k == GmClock then Told(log) else LastGm(n.trace))
  {
    hide Init, LastGm, Adds, Dispatch, ClockStatus, At, Has, Accepts;
    var n := r.states[i];
    if Accepts(ConfigOf(n, c), log) {
      var led := LineStep(r, i, c, log);
      SameStart(n, led, r.states[i + 1], c, k);
      DispatchesStatus(led, c, log, k);
      StatusAdds(led, c, k, log.iface, Told(log), if k == GmClock then log.phaseOffset else log.tbcOffset);
    } else {
      Refused(r, i, c, log, k);
      UnreadAdds(n, r.states[i + 1], c, k);
    }
  }

  lemma SameStart(n: Node, led: Node, m: Node, c: ConfigName, k: IFace)
    requires led.trace == n.trace
    ensures forall states :: Adds(led, m, c, k, states) == Adds(n, m, c, k, states)
  {
  }

  lemma Refused(r: Run, i: nat, c: ConfigName, log: LogLine, k: IFace)
    requires IsRun(r) && i < |r.inputs| && r.inputs[i] == Line(c, log) && !log.ProcessStatus?
    requires !Accepts(ConfigOf(r.states[i], c), log)
    ensures Apart(r.states[i], r.states[i + 1], c, k) && r.states[i + 1].trace == r.states[i].trace
  {
    assert Follows(r, i);
    hide Init, Dispatch, At, Accepts;
    SameEntries(r.states[i], c);
  }

  lemma DispatchesStatus(n: Node, c: ConfigName, log: LogLine, k: IFace)
    requires IsStatus(log, k)
    ensures Dispatch(n, c, log)
         == ClockStatus(n, c, k, log.iface, Told(log), if k == GmClock then log.phaseOffset else log.tbcOffset)
  {
    hide ProcessDown, ClockStatus, ChronydLine, Selection, OffsetSample, PortLine, DeviceLine, SummaryLine, CheckSource;
  }

  lemma StatusAdds(n: Node, c: ConfigName, k: IFace, iface: string, state: SyncState, offset: Int64)
    requires k == GmClock || k == TbcClock
    ensures
      var m := ClockStatus(n, c, k, iface, state, offset);
      var handled := k == GmClock ==> Has(n, c, Port(iface));
      var news := handled && state != Unset && state != At(n, c, k).state;
      && Adds(n, m, c, k, if news then [state] else [])
      && At(m, c, k).state == (if news then state else At(n, c, k).state)
      && m.gmState == (if news && k == GmClock then state else n.gmState)
      && LastGm(m.trace) == (if news && k == GmClock then state else LastGm(n.trace))
  {
    hide SetStat, CheckSource, Record, Announce, KeyEvents, LastGm;
    var m := CheckSource(n, c, k, Ts2phc);
    var named := SetStat(m, c, k, At(m, c, k).(alias := n.aliases(Port(iface))));
    var noted := Record(named, c, k, offset, false);
    if state != Unset {
      AnnounceAdds(noted, c, k, state, offset, true);
      AnnounceLastGm(noted, c, k, state, offset);
      SameStats(Announce(noted, c, k, state, offset, PtpState, true),
                Announce(noted, c, k, state, offset, PtpState, true).(gmState := state));
    }
  }

  // ----- Stretches of a run

  /** No input from i up to j touches the clock. */
  ghost predicate Untouched(r: Run, i: nat, j: nat, c: ConfigName, k: IFace)
    requires |r.states| == |r.inputs| + 1 && i <= j <= |r.inputs|
  {
    forall l :: i <= l < j ==> !Touches(r.states[l], r.inputs[l], c, k)
  }

  lemma {:induction false} UntouchedIsUnread(r: Run, i: nat, j: nat, c: ConfigName, k: IFace)
    requires IsRun(r) && i <= j <= |r.inputs| && Main(k) && Untouched(r, i, j, c, k)
    ensures Unread(r.states[i], r.states[j], c, k)
    decreases j
  {
    hide Init, Step, Touches, Unread;
    if i < j {
      UntouchedIsUnread(r, i, j - 1, c, k);
      assert Follows(r, j - 1);
      StepApart(r.states[j - 1], r.inputs[j - 1], c, k);
      UnreadThen(r.states[i], r.states[j - 1], r.states[j], c, k);
    } else {
      UnreadSelf(r.states[i], c, k);
    }
  }

  lemma UnreadSelf(n: Node, c: ConfigName, k: IFace)
    ensures Unread(n, n, c, k)
  {
  }

  // ----- The death of ts2phc and the grandmaster

  predicate Ts2phcDies(input: Input, c: ConfigName) {
    input == Line(c, ProcessStatus(Ts2phc, false))
  }

  predicate StatusLine(input: Input, c: ConfigName, k: IFace) {
    input.Line? && input.config == c && IsStatus(input.log, k)
  }

  /** It stores a freerun for the clock, if the clock has stats, and publishes nothing; what overrules
      other processes stays. */
  lemma Ts2phcDeath(r: Run, i: nat, c: ConfigName, k: IFace)
    requires IsRun(r) && i < |r.inputs| && Ts2phcDies(r.inputs[i], c) && (k == GmClock || k == TbcClock)
    ensures
      var n, m := r.states[i], r.states[i + 1];
      && Adds(n, m, c, k, []) && m.gmState == n.gmState
      && At(m, c, k).state == (if Has(n, c, k) then FreeRun else Unset)
  {
    assert Follows(r, i);
    hide Init, At, Has, Silence, KeyEvents;
    var n := r.states[i];
    var m := n.(stats := n.stats[c := StatsOf(n.stats, c)]);
    SameEntries(n, c);
    Silenced(m, c, k);
    StreamSnoc(n.trace, r.states[i + 1].trace[|n.trace|], c, k);
  }

  lemma Silenced(n: Node, c: ConfigName, k: IFace)
    requires k == GmClock || k == TbcClock
    ensures
      var m := Silence(n, c);
      && |m.trace| == |n.trace| + 1 && m.trace == n.trace + [m.trace[|n.trace|]] && m.trace[|n.trace|].Silenced?
      && m.gmState == n.gmState
      && At(m, c, k).state == (if Has(n, c, k) then FreeRun else Unset)
  {
  }

  lemma HasIfSet(n: Node, c: ConfigName, k: IFace)
    ensures At(n, c, k).state != Unset ==> Has(n, c, k)
  {
  }

  /** Between status lines of a grandmaster: its state is the one it had, or freerun if ts2phc died,
      and nothing is published for it. */
  lemma {:induction false} GmBetween(r: Run, i: nat, j: nat, c: ConfigName)
    requires IsRun(r) && i <= j <= |r.inputs|
    requires forall l :: i <= l < j ==> !StatusLine(r.inputs[l], c, GmClock)
    requires At(r.states[i], c, GmClock).state != Unset
    ensures
      var died := exists l :: i <= l < j && Ts2phcDies(r.inputs[l], c);
      At(r.states[j], c, GmClock).state == if died then FreeRun else At(r.states[i], c, GmClock).state
    ensures Adds(r.states[i], r.states[j], c, GmClock, [])
    decreases j
  {
    hide Init, Step, At, Has, Touches, Adds, Unread;
    if i < j {
      GmBetween(r, i, j - 1, c);
      var n, m, input := r.states[j - 1], r.states[j], r.inputs[j - 1];
      if Ts2phcDies(input, c) {
        Ts2phcDeath(r, j - 1, c, GmClock);
        HasIfSet(n, c, GmClock);
      } else {
        GmUntouched(n, input, c);
        assert Follows(r, j - 1);
        StepApart(n, input, c, GmClock);
        SameState(n, m, c, GmClock);
        UnreadAdds(n, m, c, GmClock);
      }
      NothingAdded(r.states[i], n, m, c, GmClock);
    } else {
      UnreadSelf(r.states[i], c, GmClock);
      UnreadAdds(r.states[i], r.states[i], c, GmClock);
    }
  }

  lemma GmUntouched(n: Node, input: Input, c: ConfigName)
    requires !StatusLine(input, c, GmClock) && !Ts2phcDies(input, c)
    ensures !Touches(n, input, c, GmClock)
  {
  }

  lemma SameState(n: Node, m: Node, c: ConfigName, k: IFace)
    requires Unread(n, m, c, k)
    ensures At(m, c, k).state == At(n, c, k).state
  {
  }

  lemma NothingAdded(n: Node, m: Node, l: Node, c: ConfigName, k: IFace)
    requires Adds(n, m, c, k, []) && Adds(m, l, c, k, [])
    ensures Adds(n, l, c, k, [])
  {
  }

  /** A freerun line of a grandmaster that was locked or in holdover is lost exactly if the ts2phc of
      its config died since the line before: no event says so, and other processes are believed as
      before. */
  lemma GmFreeRunIsLost(r: Run, i: nat, j: nat, c: ConfigName, before: LogLine, log: LogLine)
    requires IsRun(r) && i < j < |r.inputs|
    requires r.inputs[i] == Line(c, before) && IsStatus(before, GmClock) && Handled(r.states[i], c, before)
    requires before.gm == Locked || before.gm == Holdover
    requires r.inputs[j] == Line(c, log) && IsStatus(log, GmClock) && Handled(r.states[j], c, log)
    requires log.gm == FreeRun
    requires forall l :: i < l < j ==> !StatusLine(r.inputs[l], c, GmClock)
    ensures
      var died := exists l :: i < l < j && Ts2phcDies(r.inputs[l], c);
      var n, m := r.states[j], r.states[j + 1];
      && Adds(r.states[i + 1], m, c, GmClock, if died then [] else [FreeRun])
      && At(m, c, GmClock).state == FreeRun
      && m.gmState == (if died then n.gmState else FreeRun)
  {
    hide Init, Step, At, Has, Adds, Handled;
    StatusLineAdds(r, i, c, before, GmClock);
    GmBetween(r, i + 1, j, c);
    StatusLineAdds(r, j, c, log, GmClock);
    AddedThen(r.states[i + 1], r.states[j], r.states[j + 1], c, GmClock);
  }

  lemma AddedThen(n: Node, m: Node, l: Node, c: ConfigName, k: IFace)
    requires Adds(n, m, c, k, [])
    ensures forall states :: Adds(m, l, c, k, states) ==> Adds(n, l, c, k, states)
  {
  }

  /** The state that overrules other processes is the one that the last event of a grandmaster carried,
      of whatever config: a fall that no event tells does not arm it, nor does a lost line. */
  lemma {:induction false} GmStateIsTheLastEvent(r: Run)
    requires IsRun(r)
    ensures End(r).gmState == LastGm(End(r).trace)
    decreases |r.inputs|
  {
    if r.inputs == [] {
      assert Init(r.states[0]);
    } else {
      hide Init, Step, LastGm, Touches, Unread;
      var i := |r.inputs| - 1;
      OneStepLess(r);
      GmStateIsTheLastEvent(WithoutLast(r));
      var n, m, input := r.states[i], r.states[i + 1], r.inputs[i];
      assert Follows(r, i) && n == End(WithoutLast(r));
      if GmLine(input) {
        StatusLineAdds(r, i, input.config, input.log, GmClock);
      } else if input.Line? && Ts2phcDies(input, input.config) {
        Ts2phcDeath(r, i, input.config, GmClock);
      } else {
        NoGmChange(n, input);
      }
    }
  }

  lemma NoGmChange(n: Node, input: Input)
    requires !GmLine(input) && !(input.Line? && Ts2phcDies(input, input.config))
    ensures var m := Step(n, input); m.gmState == n.gmState && LastGm(m.trace) == LastGm(n.trace)
  {
    hide Step, LastGm, Touches, Unread, OneTimer;
    forall d ensures Unread(n, Step(n, input), d, GmClock) {
      GmUntouched(n, input, d);
      StepApart(n, input, d, GmClock);
    }
    GmUntouched(n, input, "");
    StepApart(n, input, "", GmClock);
    NoGmEvent(n, Step(n, input));
  }

  lemma NoGmEvent(n: Node, m: Node)
    requires forall d :: Unread(n, m, d, GmClock)
    ensures LastGm(m.trace) == LastGm(n.trace)
  {
    assert Unread(n, m, "", GmClock);
    forall i | |n.trace| <= i < |m.trace|
      ensures !(m.trace[i].Published? && m.trace[i].kind == PtpState && m.trace[i].key == GmClock)
    {
      var e := m.trace[i];
      assert e.Published? ==> Unread(n, m, e.config, GmClock) && !About(e, e.config, GmClock);
    }
    LastGmQuiet(n.trace, m.trace);
  }

  // ----- The death of ptp4l and the T-BC clock

  predicate Ptp4lDies(input: Input, c: ConfigName) {
    input == Line(c, ProcessStatus(Ptp4l, false))
  }

  /** Of the T-BC clock of a config: the death of ptp4l is to report it. */
  predicate Reported(n: Node, c: ConfigName) {
    ConfigOf(n, c).ptype == Tbc && At(n, c, TbcClock).alias != ""
  }

  /** When ptp4l dies, FREERUN is to be published for the T-BC clock so that its recovery is published
      later. It is, exactly if the clock was locked or unset: out of a holdover it falls silently. */
  lemma TbcDeathPublishes(r: Run, i: nat, c: ConfigName)
    requires IsRun(r) && i < |r.inputs| && Ptp4lDies(r.inputs[i], c)
    ensures
      var n, m := r.states[i], r.states[i + 1];
      var last := At(n, c, TbcClock).state;
      && Adds(n, m, c, TbcClock, if Reported(n, c) && last in {Locked, Unset} then [FreeRun] else [])
      && At(m, c, TbcClock).state == (if Reported(n, c) then FreeRun else last)
  {
    assert Follows(r, i);
    hide Init, Adds, ProcessDown, At, Has, Reported;
    var n := r.states[i];
    SameEntries(n, c);
    var m := n.(stats := n.stats[c := StatsOf(n.stats, c)]);
    DeathAdds(m, c);
    SameReport(n, m, c);
    SameStart(n, m, r.states[i + 1], c, TbcClock);
  }

  lemma SameReport(n: Node, m: Node, c: ConfigName)
    requires m.configs == n.configs && At(m, c, TbcClock) == At(n, c, TbcClock)
    ensures Reported(m, c) == Reported(n, c)
  {
  }

  lemma DeathAdds(n: Node, c: ConfigName)
    ensures
      var m, last := ProcessDown(n, c, Ptp4l), At(n, c, TbcClock).state;
      && Adds(n, m, c, TbcClock, if Reported(n, c) && last in {Locked, Unset} then [FreeRun] else [])
      && At(m, c, TbcClock).state == (if Reported(n, c) then FreeRun else last)
  {
    hide At, Has, Adds, Reported, TbcDown, MasterDown, RealtimeDown, Unread;
    TbcDownAdds(n, c);
    var m := TbcDown(n, c, Ptp4l);
    var e1 := MasterDown(m, c);
    var states := if Reported(n, c) && At(n, c, TbcClock).state in {Locked, Unset} then [FreeRun] else [];
    MasterDownApart(m, c, c, TbcClock);
    RealtimeDownApart(m, c, c, TbcClock);
    RealtimeDownApart(e1, c, c, TbcClock);
    UnreadThen(m, e1, RealtimeDown(e1, c), c, TbcClock);
    forall l | Unread(m, l, c, TbcClock)
      ensures Adds(n, l, c, TbcClock, states) && At(l, c, TbcClock).state == At(m, c, TbcClock).state
    {
      AddedLater(n, m, l, c, TbcClock, states);
      SameState(m, l, c, TbcClock);
    }
    UnreadSelf(m, c, TbcClock);
  }

  lemma TbcDownAdds(n: Node, c: ConfigName)
    ensures
      var m, last := TbcDown(n, c, Ptp4l), At(n, c, TbcClock).state;
      && Adds(n, m, c, TbcClock, if Reported(n, c) && last in {Locked, Unset} then [FreeRun] else [])
      && At(m, c, TbcClock).state == (if Reported(n, c) then FreeRun else last)
  {
    hide Gen, At, Announce, Record, KeyEvents;
    var m, news := Steps.Dying(n, c), At(n, c, TbcClock).state in {Locked, Unset};
    Steps.FallIsTold(n, c);
    StreamSnoc(n.trace, Died(c), c, TbcClock);
    ThresholdFrame(n, ConfigOf(n, c).profile, false);
    AnnounceAdds(m, c, TbcClock, FreeRun, FREE_RUN_OFFSET, news);
  }

  /** Once ptp4l has died, the T-BC clock stays in freerun, whatever lines and timers come, and nothing
      is published for it until its next status line. */
  lemma {:induction false} TbcBetween(r: Run, i: nat, j: nat, c: ConfigName)
    requires IsRun(r) && i <= j <= |r.inputs|
    requires forall l :: i <= l < j ==> !StatusLine(r.inputs[l], c, TbcClock)
    requires At(r.states[i], c, TbcClock).state == FreeRun
    ensures At(r.states[j], c, TbcClock).state == FreeRun && Adds(r.states[i], r.states[j], c, TbcClock, [])
    decreases j
  {
    hide Init, Step, At, Has, Touches, Adds, Unread;
    if i < j {
      TbcBetween(r, i, j - 1, c);
      var n, m, input := r.states[j - 1], r.states[j], r.inputs[j - 1];
      if Ts2phcDies(input, c) {
        Ts2phcDeath(r, j - 1, c, TbcClock);
        HasIfSet(n, c, TbcClock);
      } else if Ptp4lDies(input, c) {
        TbcDeathPublishes(r, j - 1, c);
      } else {
        TbcUntouched(n, input, c);
        assert Follows(r, j - 1);
        StepApart(n, input, c, TbcClock);
        SameState(n, m, c, TbcClock);
        UnreadAdds(n, m, c, TbcClock);
      }
      NothingAdded(r.states[i], n, m, c, TbcClock);
    } else {
      UnreadSelf(r.states[i], c, TbcClock);
      UnreadAdds(r.states[i], r.states[i], c, TbcClock);
    }
  }

  lemma TbcUntouched(n: Node, input: Input, c: ConfigName)
    requires !StatusLine(input, c, TbcClock) && !Ts2phcDies(input, c) && !Ptp4lDies(input, c)
    ensures !Touches(n, input, c, TbcClock)
  {
  }

  /** So the first status line after the death of ptp4l, whenever it comes, says nothing new in freerun
      and is published otherwise. */
  lemma TbcRecoveryPublishes(r: Run, i: nat, j: nat, c: ConfigName, log: LogLine)
    requires IsRun(r) && i < j < |r.inputs|
    requires Ptp4lDies(r.inputs[i], c) && Reported(r.states[i], c)
    requires forall l :: i < l < j ==> !StatusLine(r.inputs[l], c, TbcClock)
    requires r.inputs[j] == Line(c, log) && IsStatus(log, TbcClock) && Accepts(ConfigOf(r.states[j], c), log)
    ensures At(r.states[j], c, TbcClock).state == FreeRun
    ensures Adds(r.states[i + 1], r.states[j + 1], c, TbcClock,
                 if log.tbc in {Locked, Holdover} then [log.tbc] else [])
  {
    hide Init, Step, At, Has, Adds, Accepts;
    TbcDeathPublishes(r, i, c);
    TbcBetween(r, i + 1, j, c);
    StatusLineAdds(r, j, c, log, TbcClock);
    AddedThen(r.states[i + 1], r.states[j], r.states[j + 1], c, TbcClock);
  }
}
