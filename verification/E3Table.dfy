/** Table 37 of the O-RAN O-Cloud Notification API, version 04.00: E3 after an offset of CLOCK_REALTIME, from the
    servo of phc2sys and from what is stored of the main clock. */
module E3Table {
  import opened SyncStates
  import opened Int64s
  import opened Options
  import opened OsClock
  import opened Engine
  import opened EventTrace
  import opened Samples
  import opened Elsewhere
  import opened E3Clock
  import opened E1Clock
  import Statistics
  import Steps

  // ----- The table

  lemma SameBound(n: Node, m: Node, c: ConfigName)
    requires m.configs == n.configs && m.tbcProfiles == n.tbcProfiles
    requires forall k :: k != ClockRealtime ==> At(m, c, k) == At(n, c, k) && (Has(m, c, k) <==> Has(n, c, k))
    ensures Bound(m, c) == Bound(n, c)
  {
    hide At, Has;
  }

  /** The state reported for a sample: the worst of the servo and E1. */
  function Worst(servo: Known, e1: SyncState): (reported: Known) {
    if servo == FreeRun || e1 == FreeRun then FreeRun
    else if servo == Holdover || e1 == Holdover then Holdover
    else Locked
  }

  /** A lock that is reported: in range it counts, and out of range a holdover goes on and all else falls. */
  function Judged(was: SyncState, within: bool): (now: Known) {
    if within then Locked else if was == Holdover then Holdover else FreeRun
  }

  /** The sample is reported twice where the master has the role of a slave, or ts2phc leads. */
  predicate Twice(n: Node, c: ConfigName) {
    (Has(n, c, Master) && At(n, c, Master).role == Slave) || Leader(n, c) == Ts2phc
  }

  /** The bound that the lookup of the second report finds. */
  function MaxNext(n: Node, c: ConfigName): (max: Int64) {
    var profile, other := ConfigOf(n, c).profile, n.order(n.lookups + 1);
    if profile in n.thresholds then n.thresholds[profile].max
    else if other in n.thresholds then n.thresholds[other].max
    else 100
  }

  function Change(was: SyncState, now: SyncState): (events: seq<SyncState>) {
    if now == was then [] else [now]
  }

  /** E3 goes through these two states, and every change is an event. */
  ghost predicate Goes(n: Node, m: Node, c: ConfigName, first: SyncState, last: SyncState) {
    && At(m, c, ClockRealtime).state == last
    && E3Events(m.trace, c)
       == E3Events(n.trace, c) + Change(At(n, c, ClockRealtime).state, first) + Change(first, last)
  }

  /** E3 is in freerun if the servo or E1 is, else in holdover if one of them is, with one event exactly if that
      is another state. Otherwise the offset decides, once or twice over. */
  ghost predicate FollowsTable(n: Node, m: Node, c: ConfigName, servo: Known, offset: Int64) {
    var e1 := Bound(n, c);
    if servo == FreeRun || e1 == FreeRun then Becomes(n, m, c, FreeRun)
    else if servo == Holdover || e1 == Holdover then Becomes(n, m, c, Holdover)
    else
      var first := Judged(At(n, c, ClockRealtime).state, Within(offset, MaxFound(n, c)));
      Goes(n, m, c, first, if Twice(n, c) then Judged(first, Within(offset, MaxNext(n, c))) else first)
  }

  /** Where the profile has an entry of its own, or there is none, both reports find the same bound and the
      second changes nothing. */
  lemma JudgedOnce(n: Node, m: Node, c: ConfigName, servo: Known, offset: Int64)
    requires FollowsTable(n, m, c, servo, offset)
    requires ConfigOf(n, c).profile in n.thresholds || n.thresholds == map[]
    requires servo == Locked && Bound(n, c) in {Locked, Unset}
    ensures Becomes(n, m, c, Judged(At(n, c, ClockRealtime).state, Within(offset, MaxFound(n, c))))
  {
    hide At, Bound, Within;
  }

  /** One report. */
  lemma GenTold(n: Node, c: ConfigName, offset: Int64, reported: Known)
    ensures
      var m := Gen(n, c, ClockRealtime, offset, reported, OsClockState);
      && Becomes(n, m, c, NextState(At(n, c, ClockRealtime).state, reported, Within(offset, MaxFound(n, c))))
      && MaxFound(m, c) == MaxNext(n, c)
  {
    hide Gen, At, Becomes, IsOffsetInRange, Within;
    GenBecomes(n, c, offset, reported);
    IsOffsetInRangeExactly(offset, MaxFound(n, c));
    WithinIsInRange(n, c, offset);
  }

  /** The one or two reports of a sample. */
  lemma SampleTold(n: Node, c: ConfigName, offset: Int64, servo: Known)
    requires Leader(n, c) == n.offsetSource
    ensures
      var reported := Worst(servo, Bound(n, c));
      var first := NextState(At(n, c, ClockRealtime).state, reported, Within(offset, MaxFound(n, c)));
      Goes(n, RealtimeSample(n, c, offset, servo), c, first,
           if Twice(n, c) then NextState(first, reported, Within(offset, MaxNext(n, c))) else first)
  {
    hide Gen, At, Bound, Within, MaxFound, MaxNext, RealtimeSample, RealtimeTold, NextState, Twice, Leader, E3Events;
    SampleIsTold(n, c, offset, servo);
    var reported := Worst(servo, Bound(n, c));
    var m := if Twice(n, c) then Gen(n, c, ClockRealtime, offset, reported, OsClockState) else n;
    GenTold(n, c, offset, reported);
    ToldBecomes(m, c, offset, reported);
  }

  lemma SampleIsTold(n: Node, c: ConfigName, offset: Int64, servo: Known)
    requires Leader(n, c) == n.offsetSource
    ensures
      var reported := Worst(servo, Bound(n, c));
      var m := if Twice(n, c) then Gen(n, c, ClockRealtime, offset, reported, OsClockState) else n;
      RealtimeSample(n, c, offset, servo) == RealtimeTold(m, c, offset, reported)
  {
    hide Gen, At, Has, SetStat, E1State, Bound, Leader;
    BoundIsE1(n, c);
    assert Worst(servo, Bound(n, c)) == OverallState(servo, Bound(n, c));
  }

  lemma ToldBecomes(m: Node, c: ConfigName, offset: Int64, reported: Known)
    ensures Becomes(m, RealtimeTold(m, c, offset, reported), c,
                    NextState(At(m, c, ClockRealtime).state, reported, Within(offset, MaxFound(m, c))))
  {
    hide Gen, At, Has, SetStat, Becomes, Within, MaxFound, MaxNext;
    var alias := if Has(m, c, Master) then At(m, c, Master).alias else "ptp-ha-enabled";
    var st := At(m, c, ClockRealtime).(alias := alias);
    var named := SetStat(m, c, ClockRealtime, st);
    SameIsStays(m, named, c);
    NamedKeepsBound(m, c, st);
    GenTold(named, c, offset, reported);
    StaysThen(m, named, RealtimeTold(m, c, offset, reported), c,
              NextState(At(m, c, ClockRealtime).state, reported, Within(offset, MaxFound(m, c))));
  }

  lemma NamedKeepsBound(n: Node, c: ConfigName, st: Stat)
    ensures
      var m := SetStat(n, c, ClockRealtime, st);
      MaxFound(m, c) == MaxFound(n, c)
  {
    hide SetStat;
  }

  /** The line of a CLOCK_REALTIME offset of phc2sys. */
  predicate RealtimeLog(l: Phc2sysLine, offset: Int64, state: Known) {
    && !l.reconfiguring && !l.waiting && !l.sourceClock && l.hasOffset && l.namesRealtime
    && l.sample == Some(Sample(ClockRealtime, offset, state))
  }

  /** Only the process and the machine of CLOCK_REALTIME differ. */
  ghost predicate OnlyRealtime(n: Node, m: Node, c: ConfigName) {
    && m == n.(stats := m.stats)
    && (var was, now := At(n, c, ClockRealtime), At(m, c, ClockRealtime);
        now == was.(process := now.process, os := now.os))
    && forall k :: k != ClockRealtime ==> At(m, c, k) == At(n, c, k) && (Has(m, c, k) <==> Has(n, c, k))
  }

  lemma OnlyThen(n: Node, m: Node, l: Node, c: ConfigName)
    requires OnlyRealtime(n, m, c) && OnlyRealtime(m, l, c)
    ensures OnlyRealtime(n, l, c)
  {
    hide At, Has;
  }

  lemma OsOnly(n: Node, c: ConfigName, op: Op)
    ensures OnlyRealtime(n, OnOsClock(n, c, op), c)
  {
    hide SetStat, At, Has, Apply;
  }

  lemma SetOnly(n: Node, c: ConfigName, process: Process)
    ensures OnlyRealtime(n, CheckSource(n, c, ClockRealtime, process), c)
    ensures OnlyRealtime(n, SetStat(n, c, ClockRealtime, At(n, c, ClockRealtime).(process := process)), c)
  {
    hide SetStat, CheckSource;
  }

  /** On such a line an open window is aborted and nothing is published. */
  lemma SelectionOnly(n: Node, c: ConfigName, l: Phc2sysLine, offset: Int64, state: Known)
    requires RealtimeLog(l, offset, state)
    ensures OnlyRealtime(n, Selection(n, c, l), c)
  {
    hide OnOsClock, At, CheckSource, OnlyRealtime;
    var checked := CheckSource(n, c, ClockRealtime, Phc2sys);
    SetOnly(n, c, Phc2sys);
    OsOnly(checked, c, Abort);
    OnlyThen(n, checked, OnOsClock(checked, c, Abort), c);
  }

  /** What such a line comes to: the machine is cleared, and the sample is reported. */
  lemma RealtimeLine(n: Node, c: ConfigName, l: Phc2sysLine, offset: Int64, state: Known) returns (owned: Node)
    requires RealtimeLog(l, offset, state)
    ensures Dispatch(n, c, Phc2sysLog(l)) == RealtimeSample(owned, c, offset, Servo(n, Phc2sys, state))
    ensures OnlyRealtime(n, owned, c) && Has(owned, c, ClockRealtime)
    ensures At(owned, c, ClockRealtime).os.phase == Idle && At(owned, c, ClockRealtime).process == Phc2sys
  {
    hide SetStat, CheckSource, OnOsClock, At, Has, RealtimeSample, OnlyRealtime, Selection;
    var m := Selection(n, c, l);
    SelectionOnly(n, c, l, offset, state);
    var checked := CheckSource(m, c, ClockRealtime, Phc2sys);
    SetOnly(m, c, Phc2sys);
    OnlyThen(n, m, checked, c);
    var cleared := OnOsClock(checked, c, ClearOnRealtimeOffset);
    OsOnly(checked, c, ClearOnRealtimeOffset);
    OnlyThen(n, checked, cleared, c);
    Steps.ClearedIsIdle(checked, c);
    var known := CheckSource(cleared, c, ClockRealtime, Phc2sys);
    SetOnly(cleared, c, Phc2sys);
    OnlyThen(n, cleared, known, c);
    owned := SetStat(known, c, ClockRealtime, At(known, c, ClockRealtime).(process := Phc2sys));
    SetOnly(known, c, Phc2sys);
    OnlyThen(n, known, owned, c);
    SameServo(n, m, c, state);
  }

  lemma SameServo(n: Node, m: Node, c: ConfigName, state: Known)
    requires OnlyRealtime(n, m, c)
    ensures Servo(m, Phc2sys, state) == Servo(n, Phc2sys, state)
  {
  }

  /** A sample under the table. */
  lemma SampleFollows(n: Node, c: ConfigName, offset: Int64, servo: Known)
    requires Leader(n, c) == n.offsetSource
    ensures FollowsTable(n, RealtimeSample(n, c, offset, servo), c, servo, offset)
  {
    hide RealtimeSample, Bound, At, Within, MaxFound, MaxNext, Twice, Leader;
    SampleTold(n, c, offset, servo);
  }

  lemma SameTable(n: Node, before: Node, m: Node, c: ConfigName, servo: Known, offset: Int64)
    requires FollowsTable(before, m, c, servo, offset)
    requires Bound(before, c) == Bound(n, c) && Twice(before, c) == Twice(n, c)
    requires before == n.(stats := before.stats, offsetSource := before.offsetSource)
    requires At(before, c, ClockRealtime).state == At(n, c, ClockRealtime).state
    ensures FollowsTable(n, m, c, servo, offset)
  {
    hide At, Bound, Within, Twice;
  }

  /** In every run, whatever came before, E3 follows the table after each line with an offset of CLOCK_REALTIME,
      with the servo overruled while ts2phc leads and the grandmaster is in freerun; the discipline machine is
      idle then. */
  lemma Table37InRuns(r: Run, i: nat, c: ConfigName, l: Phc2sysLine, offset: Int64, state: Known)
    requires IsRun(r) && i < |r.inputs| && r.inputs[i] == Line(c, Phc2sysLog(l)) && RealtimeLog(l, offset, state)
    requires Serves(r.states[i], c)
    ensures
      var n, m := r.states[i], r.states[i + 1];
      FollowsTable(n, m, c, Believed(n, c, Phc2sys, state), offset) && At(m, c, ClockRealtime).os.phase == Idle
  {
    hide IsRun, FollowsTable, Dispatch, At, Has, Bound, RealtimeSample;
    var led := LineStep(r, i, c, Phc2sysLog(l));
    RunHasStates(r, i);
    var owned := RealtimeLine(led, c, l, offset, state);
    var servo := Servo(led, Phc2sys, state);
    SampleFollows(owned, c, offset, servo);
    SampleFrame(owned, c, offset, servo);
    SameBound(r.states[i], led, c);
    SameBound(led, owned, c);
    SameTable(r.states[i], owned, r.states[i + 1], c, servo, offset);
  }

  lemma SampleFrame(n: Node, c: ConfigName, offset: Int64, servo: SyncState)
    ensures At(RealtimeSample(n, c, offset, servo), c, ClockRealtime).os == At(n, c, ClockRealtime).os
  {
    hide Gen, At, Has, SetStat, E1State, OverallState;
  }

  /** So a T-BC without a state of its T-BC clock has E3 in freerun after such a line; with one, E3 is no better
      than it, and locked only if it is locked. */
  lemma TbcBoundsE3(r: Run, i: nat, c: ConfigName, l: Phc2sysLine, offset: Int64, state: Known)
    requires IsRun(r) && i < |r.inputs| && r.inputs[i] == Line(c, Phc2sysLog(l)) && RealtimeLog(l, offset, state)
    requires Serves(r.states[i], c) && BoundaryClock(r.states[i], c)
    ensures
      var n, m := r.states[i], r.states[i + 1];
      var e1, e3 := At(n, c, TbcClock).state, At(m, c, ClockRealtime).state;
      && (e1 == Unset ==> Becomes(n, m, c, FreeRun))
      && Rank(e3) >= Rank(e1) && (e3 == Locked ==> e1 == Locked)
  {
    hide IsRun, Dispatch, At, Has, Within, MaxFound;
    Table37InRuns(r, i, c, l, offset, state);
  }

  /** The same for a T-GM and its GM clock, without stats of one its T-BC clock, without either its master. */
  lemma TgmBoundsE3(r: Run, i: nat, c: ConfigName, l: Phc2sysLine, offset: Int64, state: Known)
    requires IsRun(r) && i < |r.inputs| && r.inputs[i] == Line(c, Phc2sysLog(l)) && RealtimeLog(l, offset, state)
    requires Serves(r.states[i], c) && ConfigOf(r.states[i], c).ptype == Tgm
    ensures
      var n, m := r.states[i], r.states[i + 1];
      var gm, tbc, master := At(n, c, GmClock).state, At(n, c, TbcClock).state, At(n, c, Master).state;
      var e1 := if Has(n, c, GmClock) then gm else if Has(n, c, TbcClock) then tbc else master;
      var e3 := At(m, c, ClockRealtime).state;
      && (e1 == Unset ==> Becomes(n, m, c, FreeRun))
      && Rank(e3) >= Rank(e1) && (e3 == Locked ==> e1 == Locked)
  {
    hide IsRun, Dispatch, At, Has, Within, MaxFound;
    Table37InRuns(r, i, c, l, offset, state);
  }

  /** In any other config that clock bounds E3 too, but where it has no state the servo alone decides. */
  lemma OrdinaryE3(r: Run, i: nat, c: ConfigName, l: Phc2sysLine, offset: Int64, state: Known)
    requires IsRun(r) && i < |r.inputs| && r.inputs[i] == Line(c, Phc2sysLog(l)) && RealtimeLog(l, offset, state)
    requires Serves(r.states[i], c) && ConfigOf(r.states[i], c).ptype == Plain && !BoundaryClock(r.states[i], c)
    ensures
      var n, m := r.states[i], r.states[i + 1];
      var gm, tbc, master := At(n, c, GmClock).state, At(n, c, TbcClock).state, At(n, c, Master).state;
      var e1 := if Has(n, c, GmClock) then gm else if Has(n, c, TbcClock) then tbc else master;
      var e3, servo := At(m, c, ClockRealtime).state, Believed(n, c, Phc2sys, state);
      && Rank(e3) >= Rank(e1) && (e1 in {FreeRun, Holdover} ==> e3 != Locked)
      && (e1 == Unset && servo != Locked ==> Becomes(n, m, c, servo))
      && (e1 == Unset && servo == Locked && ConfigOf(n, c).profile in n.thresholds ==>
            (e3 == Locked <==> Within(offset, n.thresholds[ConfigOf(n, c).profile].max)))
  {
    hide IsRun, Dispatch, At, Has, Within, Believed, Twice;
    Table37InRuns(r, i, c, l, offset, state);
  }

  // ----- What is recorded of a sample

  /** The stats after one report: a failed lock leaves the offset of a freerun or holdover as it was, and the
      statistics take in what TakenIn says. */
  function Reported(st: Stat, reported: Known, offset: Int64, within: bool): (after: Stat) {
    var failed := reported == Locked && !within;
    st.(state := if !failed then reported else if st.state == Holdover then Holdover else FreeRun,
        lastOffset := if failed && st.state in {FreeRun, Holdover} then st.lastOffset else offset,
        acc := TakenIn(st, reported, offset, !within, OsClockState))
  }

  lemma GenRecords(n: Node, c: ConfigName, offset: Int64, reported: Known)
    ensures At(Gen(n, c, ClockRealtime, offset, reported, OsClockState), c, ClockRealtime)
         == Reported(At(n, c, ClockRealtime), reported, offset, Within(offset, MaxFound(n, c)))
  {
    hide Gen, At, PtpThreshold, IsOffsetInRange, Within, MaxFound, TakenIn, LockCloses;
    GenTakesIn(n, c, ClockRealtime, offset, reported, OsClockState);
    WithinIsInRange(n, c, offset);
  }

  /** CLOCK_REALTIME after a sample: one or two reports, the alias of the master or the name of an HA node. */
  ghost predicate RecordsSample(n: Node, m: Node, c: ConfigName, servo: Known, offset: Int64) {
    var was, now := At(n, c, ClockRealtime), At(m, c, ClockRealtime);
    var reported := Worst(servo, Bound(n, c));
    var once := Reported(was, reported, offset, Within(offset, MaxFound(n, c)));
    var all := if Twice(n, c) then Reported(once, reported, offset, Within(offset, MaxNext(n, c))) else once;
    var alias := if Has(n, c, Master) then At(n, c, Master).alias else "ptp-ha-enabled";
    now == all.(alias := alias, process := Phc2sys, os := now.os)
  }

  lemma SampleRecords(n: Node, c: ConfigName, offset: Int64, servo: Known)
    requires Leader(n, c) == n.offsetSource && At(n, c, ClockRealtime).process == Phc2sys
    ensures RecordsSample(n, RealtimeSample(n, c, offset, servo), c, servo, offset)
  {
    hide Gen, At, Has, Bound, Within, MaxFound, MaxNext, Leader, Reported, E3Events, RealtimeSample, RealtimeTold;
    SampleIsTold(n, c, offset, servo);
    var reported := Worst(servo, Bound(n, c));
    var m := if Twice(n, c) then Gen(n, c, ClockRealtime, offset, reported, OsClockState) else n;
    GenRecords(n, c, offset, reported);
    GenTold(n, c, offset, reported);
    ToldRecords(m, c, offset, reported);
    var alias := if Has(m, c, Master) then At(m, c, Master).alias else "ptp-ha-enabled";
    NamedLater(At(n, c, ClockRealtime), reported, offset, Within(offset, MaxFound(n, c)), alias);
    NamedLater(At(m, c, ClockRealtime), reported, offset, Within(offset, MaxFound(m, c)), alias);
  }

  lemma ToldRecords(m: Node, c: ConfigName, offset: Int64, reported: Known)
    ensures
      var alias := if Has(m, c, Master) then At(m, c, Master).alias else "ptp-ha-enabled";
      At(RealtimeTold(m, c, offset, reported), c, ClockRealtime)
      == Reported(At(m, c, ClockRealtime).(alias := alias), reported, offset, Within(offset, MaxFound(m, c)))
  {
    hide Gen, At, Has, SetStat, Within, MaxFound, MaxNext, Reported;
    var alias := if Has(m, c, Master) then At(m, c, Master).alias else "ptp-ha-enabled";
    var st := At(m, c, ClockRealtime).(alias := alias);
    var named := SetStat(m, c, ClockRealtime, st);
    NamedKeepsBound(m, c, st);
    GenRecords(named, c, offset, reported);
  }

  lemma NamedLater(st: Stat, reported: Known, offset: Int64, within: bool, alias: string)
    ensures Reported(st.(alias := alias), reported, offset, within)
         == Reported(st, reported, offset, within).(alias := alias)
    ensures Reported(st, reported, offset, within).process == st.process
  {
    hide Statistics.Add64;
  }

  /** In every run a CLOCK_REALTIME offset leaves these stats. */
  lemma OffsetRecords(r: Run, i: nat, c: ConfigName, l: Phc2sysLine, offset: Int64, state: Known)
    requires IsRun(r) && i < |r.inputs| && r.inputs[i] == Line(c, Phc2sysLog(l)) && RealtimeLog(l, offset, state)
    requires Serves(r.states[i], c)
    ensures RecordsSample(r.states[i], r.states[i + 1], c, Believed(r.states[i], c, Phc2sys, state), offset)
  {
    hide IsRun, RecordsSample, Dispatch, At, Has, Bound, RealtimeSample;
    RunHasStates(r, i);
    var n := r.states[i];
    var led := LineStep(r, i, c, Phc2sysLog(l));
    var owned := RealtimeLine(led, c, l, offset, state);
    var servo := Servo(led, Phc2sys, state);
    SampleRecords(owned, c, offset, servo);
    SameBound(n, led, c);
    SameBound(led, owned, c);
    SameRecords(n, owned, r.states[i + 1], c, servo, offset);
  }

  lemma SameRecords(n: Node, before: Node, m: Node, c: ConfigName, servo: Known, offset: Int64)
    requires RecordsSample(before, m, c, servo, offset)
    requires before == n.(stats := before.stats, offsetSource := before.offsetSource)
    requires Bound(before, c) == Bound(n, c) && Leader(before, c) == Leader(n, c)
    requires forall k :: k != ClockRealtime ==> At(before, c, k) == At(n, c, k) && (Has(before, c, k) <==> Has(n, c, k))
    requires
      var was, at := At(n, c, ClockRealtime), At(before, c, ClockRealtime);
      at == was.(alias := at.alias, process := at.process, os := at.os)
    ensures RecordsSample(n, m, c, servo, offset)
  {
    hide At, Has, Bound, Within, Leader, Statistics.Add64;
  }

  // ----- chronyd

  /** What a line of chronyd makes of E3. That the source is lost means freerun. That there is one locks E3, if
      the bound is above zero, and else leaves a holdover and ends any other state in freerun. */
  function ChronydSays(n: Node, c: ConfigName, selected: Option<bool>): (state: SyncState) {
    match selected
    case None => At(n, c, ClockRealtime).state
    case Some(false) => FreeRun
    case Some(true) =>
      if MaxFound(n, c) > 0 then Locked
      else if At(n, c, ClockRealtime).state == Holdover then Holdover
      else FreeRun
  }

  /** In every run a line of chronyd for a config with a profile makes chronyd the process of CLOCK_REALTIME and E3
      what it says. */
  lemma ChronydMovesE3(r: Run, i: nat, c: ConfigName, selected: Option<bool>)
    requires IsRun(r) && i < |r.inputs| && r.inputs[i] == Line(c, ChronydStatus(selected))
    requires ConfigOf(r.states[i], c).profile != ""
    ensures
      var n, m := r.states[i], r.states[i + 1];
      At(m, c, ClockRealtime).process == Chronyd && Becomes(n, m, c, ChronydSays(n, c, selected))
  {
    hide IsRun, Dispatch, At, Has, Becomes, MaxFound, ChronydLine;
    RunHasStates(r, i);
    var n, m := r.states[i], r.states[i + 1];
    var led := LineStep(r, i, c, ChronydStatus(selected));
    SameIsStays(n, led, c);
    DispatchesChronyd(led, c, selected);
    ChronydReportsE3(led, c, selected);
    SameBoundFound(n, led, c);
    StaysThen(n, led, m, c, ChronydSays(n, c, selected));
  }

  lemma SameBoundFound(n: Node, m: Node, c: ConfigName)
    requires m == n.(stats := m.stats, offsetSource := m.offsetSource)
    ensures MaxFound(m, c) == MaxFound(n, c)
  {
  }

  lemma DispatchesChronyd(n: Node, c: ConfigName, selected: Option<bool>)
    ensures Dispatch(n, c, ChronydStatus(selected)) == ChronydLine(n, c, selected)
  {
    hide ChronydLine;
  }

  lemma ChronydReportsE3(n: Node, c: ConfigName, selected: Option<bool>)
    ensures
      var m := ChronydLine(n, c, selected);
      At(m, c, ClockRealtime).process == Chronyd && Becomes(n, m, c, ChronydSays(n, c, selected))
  {
    hide Gen, At, Has, SetStat, CheckSource, Becomes, OnlyRealtime;
    var m := CheckSource(n, c, ClockRealtime, Chronyd);
    var owned := SetStat(m, c, ClockRealtime, At(m, c, ClockRealtime).(process := Chronyd));
    SetOnly(n, c, Chronyd);
    SetOnly(m, c, Chronyd);
    OnlyThen(n, m, owned, c);
    OnlyStays(n, owned, c);
    SameBoundFound(n, owned, c);
    if selected.Some? {
      GenTold(owned, c, 0, if selected.value then Locked else FreeRun);
      StaysThen(n, owned, ChronydLine(n, c, selected), c, ChronydSays(n, c, selected));
    }
  }

  lemma OnlyStays(n: Node, m: Node, c: ConfigName)
    requires OnlyRealtime(n, m, c)
    ensures Stays(n, m, c) && m == n.(stats := m.stats)
    ensures At(m, c, ClockRealtime).state == At(n, c, ClockRealtime).state
  {
    hide At, Has;
  }
}
