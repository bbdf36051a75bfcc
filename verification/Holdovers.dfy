/** Masters that a port fault puts in holdover, and the timers that are to end it. */
module Holdovers {
  import opened SyncStates
  import opened Options
  import opened Engine
  import opened EventTrace
  import opened Channels
  import opened Invariant
  import opened Steps
  import opened Theorems
  import opened Samples

  function Prefix(r: Run, i: nat): (before: Run)
    requires |r.states| == |r.inputs| + 1 && i <= |r.inputs|
  {
    Run(r.states[..i + 1], r.inputs[..i])
  }

  lemma PrefixIsRun(r: Run, i: nat)
    requires IsRun(r) && i <= |r.inputs|
    ensures IsRun(Prefix(r, i)) && End(Prefix(r, i)) == r.states[i]
  {
    hide Init, Step;
    var before := Prefix(r, i);
    forall j | 0 <= j < |before.inputs| ensures Follows(before, j) {
      assert Follows(r, j);
    }
  }

  lemma {:induction false} WatchedRun(r: Run, i: nat, j: nat, p: Profile, env: Env)
    requires IsRun(r) && i <= j <= |r.inputs|
    requires env == Env(r.states[0].lastOverall, ConfigsOf(r.inputs), Watch(r.states[i], p))
    requires OwnEntries(r.states[i])
    ensures Inv(r.states[j], env)
    decreases j
  {
    hide Init, Step, OwnEntries, Since, TraceInv, ChanInv, RangeInv, OsInv;
    if j == i {
      PrefixIsRun(r, i);
      RunKeeps(Prefix(r, i), ConfigsOf(r.inputs));
      assert r.states[0] == Prefix(r, i).states[0];
      SinceStart(r.states[i], p);
    } else {
      WatchedRun(r, i, j - 1, p, env);
      assert Follows(r, j - 1);
      hide Inv;
      StepKeeps(r.states[j - 1], r.inputs[j - 1], env);
    }
  }

  lemma SinceStart(n: Node, p: Profile)
    ensures Since(n, n, p)
  {
  }

  lemma SinceInRun(r: Run, i: nat, j: nat, p: Profile)
    requires IsRun(r) && i <= j <= |r.inputs|
    requires OwnEntries(r.states[i])
    ensures Since(r.states[i], r.states[j], p) && OwnEntries(r.states[j]) && ChanInv(r.states[j])
  {
    hide Init, Step, Since, OwnEntries, TraceInv, ChanInv, RangeInv, OsInv, ConfigsOf;
    WatchedRun(r, i, j, p, Env(r.states[0].lastOverall, ConfigsOf(r.inputs), Watch(r.states[i], p)));
  }

  /** A timer that waits on an open channel of an entry: at any later time the channel is closed
      exactly if the entry has been cancelled in between. */
  lemma OpenUnlessCancelled(r: Run, i: nat, j: nat, t: nat)
    requires IsRun(r) && i <= j <= |r.inputs| && OwnEntries(r.states[i])
    requires
      var n := r.states[i];
      t < |n.holdovers| && n.holdovers[t].entry.Some? && n.holdovers[t].chan !in n.closed
    ensures
      var n, m := r.states[i], r.states[j];
      && t < |m.holdovers| && SameTimer(n.holdovers[t], m.holdovers[t])
      && (m.holdovers[t].chan in m.closed <==> Cancelled(n, m, n.holdovers[t].entry.value))
  {
    hide Init, Step, Cancelled;
    var n := r.states[i];
    PrefixIsRun(r, i);
    AnyRun(Prefix(r, i));
    assert TimerInv(n, t);
    SinceInRun(r, i, j, n.holdovers[t].entry.value);
  }

  /** The i-th input is a port line that puts the master of its config in holdover. */
  ghost predicate Faults(r: Run, i: nat, c: ConfigName)
    requires |r.states| == |r.inputs| + 1
  {
    && i < |r.inputs| && r.inputs[i].Line? && r.inputs[i].config == c && r.inputs[i].log.PortLog?
    && At(r.states[i], c, Master).state != Holdover && At(r.states[i + 1], c, Master).state == Holdover
  }

  /** It starts a holdover timer on the entry of its profile, with an open channel. */
  lemma FaultStartsTimer(r: Run, i: nat, c: ConfigName)
    requires IsRun(r) && Faults(r, i, c) && OwnEntries(r.states[0])
    ensures
      Fresh(r.states[i], r.states[i + 1], c) && OwnEntries(r.states[i + 1])
  {
    hide OwnEntries, Since, Dispatch, At, Has, Init, PortLine, Fresh, ChanInv;
    var n, log := r.states[i], r.inputs[i].log;
    SinceInRun(r, 0, i, "");
    SinceInRun(r, 0, i + 1, "");
    RefusedIsQuiet(r, i, c, log);
    var led := LineStep(r, i, c, log);
    ProfileIsKeyed(n, led, c, log);
    DispatchesPort(led, c, log);
    FaultStarts(led, c, log.id, log.role, log.fault);
    FreshSince(n, led, r.states[i + 1], c);
  }

  lemma RefusedIsQuiet(r: Run, i: nat, c: ConfigName, log: LogLine)
    requires IsRun(r) && i < |r.inputs| && r.inputs[i] == Line(c, log) && log.PortLog?
    ensures i + 1 < |r.states|
    ensures Accepts(ConfigOf(r.states[i], c), log) || At(r.states[i + 1], c, Master) == At(r.states[i], c, Master)
  {
    hide Init, Dispatch, At, Has;
    assert Follows(r, i);
    SameEntries(r.states[i], c);
  }

  lemma DispatchesPort(n: Node, c: ConfigName, log: LogLine)
    requires log.PortLog?
    ensures Dispatch(n, c, log) == PortLine(n, c, log.id, log.role, log.fault)
  {
    hide ProcessDown, ClockStatus, ChronydLine, Selection, OffsetSample, PortLine, DeviceLine, SummaryLine, CheckSource;
  }

  lemma ProfileIsKeyed(n: Node, led: Node, c: ConfigName, log: LogLine)
    requires OwnEntries(n) && ChanInv(n) && Accepts(ConfigOf(n, c), log) && log.PortLog?
    requires led == n.(stats := led.stats, offsetSource := led.offsetSource)
    ensures Keyed(led, c) && ChanInv(led) && SameConfig(n, led, c)
  {
    hide ChanInv;
    assert Keyed(n, c) || ConfigOf(n, c).profile == "";
    ChannelsKept(n, led);
  }

  lemma FaultStarts(n: Node, c: ConfigName, id: nat, role: Role, fault: bool)
    requires Keyed(n, c) && ChanInv(n)
    requires At(n, c, Master).state != Holdover && At(PortLine(n, c, id, role, fault), c, Master).state == Holdover
    ensures Fresh(n, PortLine(n, c, id, role, fault), c)
  {
    hide At, Has, Notice, SetRole, Fault, ChanInv, Fresh;
    NoticeFrame(n, c, role);
    NoticeState(n, c, role);
    var ports := ConfigOf(n, c).ports;
    var m := if role == Slave || n.offsetSource == Ts2phc then Notice(n, c, role) else n;
    if 0 < id <= |ports| {
      RoleFrame(m, c, id - 1, role);
    }
    var last := ports[PortIndex(ports, id)].role;
    var r := if last != role then SetRole(m, c, id - 1, role) else m;
    ChannelsKept(n, r);
    FaultIsHoldover(r, c, role, fault);
    FreshSince(n, r, PortLine(n, c, id, role, fault), c);
  }

  /** One timer more, on the entry of this config's profile, with an open channel. */
  ghost predicate Fresh(n: Node, m: Node, c: ConfigName) {
    var p := ConfigOf(n, c).profile;
    && ConfigOf(m, c).profile == p && Open(m, p)
    && m.holdovers == n.holdovers + [HoldoverTimer(c, Some(p), m.thresholds[p].close, Parked)]
  }

  lemma FreshSince(n: Node, r: Node, m: Node, c: ConfigName)
    requires Fresh(r, m, c) && SameConfig(n, r, c) && r.holdovers == n.holdovers
    ensures Fresh(n, m, c)
  {
  }

  lemma NoticeState(n: Node, c: ConfigName, role: Role)
    ensures At(Notice(n, c, role), c, Master).state == At(n, c, Master).state
  {
    hide SetStat, CheckSource;
  }

  lemma RoleFrame(n: Node, c: ConfigName, i: nat, role: Role)
    requires i < |ConfigOf(n, c).ports|
    ensures var m := SetRole(n, c, i, role); m == n.(configs := m.configs) && SameConfig(n, m, c)
    ensures forall d, k :: At(SetRole(n, c, i, role), d, k) == At(n, d, k)
  {
  }

  lemma FaultIsHoldover(n: Node, c: ConfigName, role: Role, fault: bool)
    requires Keyed(n, c) && ChanInv(n)
    requires At(n, c, Master).state != Holdover && At(Fault(n, c, role, fault), c, Master).state == Holdover
    ensures Fresh(n, Fault(n, c, role, fault), c)
  {
    hide At, Has, SetStat, Announce, StartHoldover, ChanInv, Fresh;
    var st := At(n, c, Master);
    var m := Announce(SetStat(n, c, Master, st.(role := Faulty)), c, Master, Holdover, st.lastOffset, PtpState, true);
    ChannelsKept(n, m);
    StartIsFresh(m, c);
    FreshSince(n, m, StartHoldover(m, c), c);
  }

  lemma StartIsFresh(n: Node, c: ConfigName)
    requires Keyed(n, c) && ChanInv(n)
    ensures Fresh(n, StartHoldover(n, c), c)
  {
    hide TimerInv;
  }

  /** As long as the timer of a fault has not gone off it still can, exactly unless some clock of any
      config with that profile has locked out of a holdover since, or another fault has started a timer
      on the same entry. Whether it then ends the holdover is for module HoldoverEnds. */
  lemma FaultKeepsTimer(r: Run, i: nat, j: nat, c: ConfigName)
    requires IsRun(r) && Faults(r, i, c) && OwnEntries(r.states[0])
    requires i < j <= |r.inputs|
    ensures
      var t, n, m := |r.states[i].holdovers|, r.states[i + 1], r.states[j];
      && t < |m.holdovers| && m.holdovers[t].config == c
      && (m.holdovers[t].status == Parked ==>
            (HoldoverFires(m, t) != m <==> !Cancelled(n, m, ConfigOf(n, c).profile)))
  {
    hide Init, Step, OwnEntries, Cancelled, ConfigOf, Faults;
    FaultStartsTimer(r, i, c);
    OpenUnlessCancelled(r, i + 1, j, |r.states[i].holdovers|);
    var t, m := |r.states[i].holdovers|, r.states[j];
    assert m.holdovers[t].status == Parked && m.holdovers[t].chan !in m.closed ==>
      HoldoverFires(m, t).holdovers[t].status == Expiring;
  }

  /** So of two configs with one profile that fault one after the other, only the later has a timer;
      the master of the earlier stays in holdover without one. */
  lemma FaultElsewhereCancels(r: Run, i: nat, j: nat, a: ConfigName, b: ConfigName)
    requires IsRun(r) && OwnEntries(r.states[0])
    requires Faults(r, i, a) && Faults(r, j, b) && i < j && a != b
    requires ConfigOf(r.states[i + 1], a).profile == ConfigOf(r.states[j + 1], b).profile
    ensures
      var t, m := |r.states[i].holdovers|, r.states[j + 1];
      && t < |m.holdovers| && m.holdovers[t].chan in m.closed && HoldoverFires(m, t) == m
      && At(m, a, Master) == At(r.states[j], a, Master)
  {
    hide Init, Step, OwnEntries, ConfigOf, At;
    FaultStartsTimer(r, i, a);
    FaultStartsTimer(r, j, b);
    OpenUnlessCancelled(r, i + 1, j, |r.states[i].holdovers|);
    OpenUnlessCancelled(r, i + 1, j + 1, |r.states[i].holdovers|);
    var n, m, last := r.states[i + 1], r.states[j + 1], |r.states[j].holdovers|;
    assert m.holdovers[last].entry == Some(ConfigOf(m, b).profile);
    assert Restarted(n, m, ConfigOf(n, a).profile);
    OtherMasterKept(r, j, a, b);
  }

  lemma OtherMasterKept(r: Run, i: nat, a: ConfigName, b: ConfigName)
    requires IsRun(r) && Faults(r, i, b) && a != b
    ensures At(r.states[i + 1], a, Master) == At(r.states[i], a, Master)
  {
    hide Init, Dispatch, At, Has, PortLine;
    var n, log := r.states[i], r.inputs[i].log;
    RefusedIsQuiet(r, i, b, log);
    var led := LineStep(r, i, b, log);
    DispatchesPort(led, b, log);
    PortLineElsewhere(led, b, log.id, log.role, log.fault, a);
  }

  lemma PortLineElsewhere(n: Node, c: ConfigName, id: nat, role: Role, fault: bool, d: ConfigName)
    requires d != c
    ensures At(PortLine(n, c, id, role, fault), d, Master) == At(n, d, Master)
  {
    hide SetStat, CheckSource, Announce, At, Has, SetRole, Fault, PortIndex;
    var m := if role == Slave || n.offsetSource == Ts2phc then Notice(n, c, role) else n;
    NoticeFrame(n, c, role);
    if 0 < id <= |ConfigOf(n, c).ports| {
      RoleFrame(m, c, id - 1, role);
      FaultElsewhere(SetRole(m, c, id - 1, role), c, role, fault, d);
    }
    FaultElsewhere(m, c, role, fault, d);
  }

  lemma FaultElsewhere(n: Node, c: ConfigName, role: Role, fault: bool, d: ConfigName)
    requires d != c
    ensures At(Fault(n, c, role, fault), d, Master) == At(n, d, Master)
  {
    hide SetStat, Announce, At, Has, StartHoldover;
    var st := At(n, c, Master);
    var m := Announce(SetStat(n, c, Master, st.(role := Faulty)), c, Master, Holdover, st.lastOffset, PtpState, true);
    ThresholdMaxKept(m, c);
    SameStats(m, StartHoldover(m, c));
  }
}
