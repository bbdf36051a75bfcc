/** What a line about a port of ptp4l does: the roles of the ports, the master and its holdover timer. */
module PortLines {
  import opened SyncStates
  import opened Int64s
  import opened Options
  import opened Engine
  import opened EventTrace
  import opened Samples
  import opened Holdovers
  import opened StatusClocks
  import opened E1Clock

  /** The first port with this identifier. */
  predicate FirstWithId(ports: seq<PortConfig>, id: nat, p: nat) {
    p < |ports| && ports[p].id == id && forall q :: 0 <= q < p ==> ports[q].id != id
  }

  /** The line is one about a known port, and its role can be noted. */
  predicate Notes(ports: seq<PortConfig>, id: nat, role: Role, p: nat) {
    && id != 0 && role != UnknownRole && FirstWithId(ports, id, p)
    && (ports[p].role == role || id <= |ports|)
  }

  /** A port that was a slave is lost, and the master has stats, or gets them by this line. */
  predicate LosesSlave(n: Node, c: ConfigName, role: Role, last: Role) {
    last == Slave && (Has(n, c, Master) || SetsUp(n, c, role))
  }

  /** The line sets up the stats of the config, and the master takes its role. */
  predicate SetsUp(n: Node, c: ConfigName, role: Role) {
    role == Slave || Leader(n, c) == Ts2phc
  }

  /** The master after such a line. Under T-BC a slave port that becomes faulty puts a named master in freerun,
      unannounced. Elsewhere the fault of a slave port puts a master in holdover, unless it is in one; an event
      says so and one timer starts. Nothing else changes state, event or timer. */
  ghost predicate MovesMaster(n: Node, m: Node, c: ConfigName, role: Role, last: Role, fault: bool) {
    var was, now := At(n, c, Master), At(m, c, Master);
    var tbc := ConfigOf(n, c).ptype == Tbc;
    var falls := tbc && LosesSlave(n, c, role, last) && role == Faulty && was.alias != "";
    var enters := !tbc && LosesSlave(n, c, role, last) && fault && was.state != Holdover;
    && now.state == (if falls then FreeRun else if enters then Holdover else was.state)
    && Adds(n, m, c, Master, if enters then [Holdover] else [])
    && |m.holdovers| == |n.holdovers| + (if enters then 1 else 0)
    && m.holdovers[..|n.holdovers|] == n.holdovers
    && (enters ==> m.holdovers[|n.holdovers|].config == c && m.holdovers[|n.holdovers|].status == Parked)
    && now.lastOffset == was.lastOffset && now.alias == was.alias
    && now.role == (if enters then Faulty else if SetsUp(n, c, role) then role else was.role)
    && (Has(m, c, Master) ==> now.process == Leader(n, c))
  }

  lemma FaultMoves(n: Node, c: ConfigName, role: Role, fault: bool)
    requires Has(n, c, Master) ==> At(n, c, Master).process == n.offsetSource
    requires SetsUp(n, c, role) ==> Has(n, c, Master) && At(n, c, Master).role == role
    ensures MovesMaster(n, Fault(n, c, role, fault), c, role, Slave, fault)
  {
    hide SetStat, Announce, At, Has, PtpThreshold, KeyEvents;
    var st := At(n, c, Master);
    var f := SetStat(n, c, Master, st.(role := Faulty));
    var m := Announce(f, c, Master, Holdover, st.lastOffset, PtpState, true);
    AnnounceAdds(n, c, Master, FreeRun, 0, false);
    AnnounceAdds(f, c, Master, Holdover, st.lastOffset, true);
    ThresholdFrame(m, ConfigOf(m, c).profile, true);
    SameStats(m, StartHoldover(m, c));
  }

  /** The role of the port with this identifier's position is noted, and the stats are set up. */
  ghost predicate MovesRoles(n: Node, m: Node, c: ConfigName, id: nat, role: Role, last: Role) {
    var cfg := ConfigOf(n, c);
    && (last == role ==> ConfigOf(m, c) == cfg)
    && (last != role && 0 < id <= |cfg.ports| ==>
          ConfigOf(m, c) == cfg.(ports := cfg.ports[id - 1 := cfg.ports[id - 1].(role := role)]))
    && (SetsUp(n, c, role) ==> Has(m, c, ClockRealtime) && Has(m, c, Master))
  }

  lemma PortMoves(n: Node, c: ConfigName, id: nat, role: Role, fault: bool, p: nat)
    requires Has(n, c, Master) ==> At(n, c, Master).process == n.offsetSource
    requires Notes(ConfigOf(n, c).ports, id, role, p)
    ensures
      var m, last := PortLine(n, c, id, role, fault), ConfigOf(n, c).ports[p].role;
      MovesMaster(n, m, c, role, last, fault) && MovesRoles(n, m, c, id, role, last)
  {
    hide At, Has, Notice, Fault, MovesMaster, MovesRoles, PortLine, PortIndex;
    var last := ConfigOf(n, c).ports[p].role;
    var r := Noted(n, c, id, role, p);
    PortLineIs(n, c, id, role, fault, p);
    NotedMeans(n, c, id, role, p);
    NotedRoles(n, c, id, role, p);
    var l := PortLine(n, c, id, role, fault);
    if last == Slave {
      FaultMoves(r, c, role, fault);
      FaultKeepsRoles(r, c, role, fault);
    } else {
      NothingLost(r, c, role, last, fault);
    }
    SameMoves(n, r, l, c, role, last, fault);
    RolesKept(n, r, l, c, id, role, last);
  }

  /** The stats set up and the role noted. */
  function Noted(n: Node, c: ConfigName, id: nat, role: Role, p: nat): (m: Node)
    requires Notes(ConfigOf(n, c).ports, id, role, p)
  {
    var s := if role == Slave || n.offsetSource == Ts2phc then Notice(n, c, role) else n;
    NoticeFrame(n, c, role);
    if ConfigOf(n, c).ports[p].role != role then SetRole(s, c, id - 1, role) else s
  }

  lemma PortLineIs(n: Node, c: ConfigName, id: nat, role: Role, fault: bool, p: nat)
    requires Notes(ConfigOf(n, c).ports, id, role, p)
    ensures
      var r := Noted(n, c, id, role, p);
      PortLine(n, c, id, role, fault) == if ConfigOf(n, c).ports[p].role == Slave then Fault(r, c, role, fault) else r
  {
    hide At, Has, Notice, SetRole, Fault, PortIndex;
    IndexIsFirst(ConfigOf(n, c).ports, id, p);
    NoticeFrame(n, c, role);
  }

  lemma NotedStats(n: Node, c: ConfigName, id: nat, role: Role, p: nat)
    requires Notes(ConfigOf(n, c).ports, id, role, p)
    ensures
      var m, noticed := Noted(n, c, id, role, p), role == Slave || n.offsetSource == Ts2phc;
      var was, now := At(n, c, Master), At(m, c, Master);
      && m == n.(stats := m.stats, configs := m.configs)
      && ConfigOf(m, c).ptype == ConfigOf(n, c).ptype
      && (Has(m, c, Master) <==> Has(n, c, Master) || noticed)
      && now.state == was.state && now.lastOffset == was.lastOffset && now.alias == was.alias
      && now.process == (if noticed && !Has(n, c, Master) then n.offsetSource else was.process)
      && now.role == (if noticed then role else was.role)
  {
    hide At, Has, Notice, SetRole;
    var s := if role == Slave || n.offsetSource == Ts2phc then Notice(n, c, role) else n;
    NoticeIsQuiet(n, c, role);
    RoleNoted(s, c, id - 1, role);
  }

  lemma NotedMeans(n: Node, c: ConfigName, id: nat, role: Role, p: nat)
    requires Has(n, c, Master) ==> At(n, c, Master).process == n.offsetSource
    requires Notes(ConfigOf(n, c).ports, id, role, p)
    ensures
      var m, last := Noted(n, c, id, role, p), ConfigOf(n, c).ports[p].role;
      var was, now := At(n, c, Master), At(m, c, Master);
      && m == n.(stats := m.stats, configs := m.configs)
      && ConfigOf(m, c).ptype == ConfigOf(n, c).ptype
      && LosesSlave(m, c, role, last) == LosesSlave(n, c, role, last)
      && now.state == was.state && now.lastOffset == was.lastOffset && now.alias == was.alias
      && (Has(m, c, Master) ==> now.process == n.offsetSource)
      && SetsUp(m, c, role) == SetsUp(n, c, role) && Leader(m, c) == Leader(n, c)
      && now.role == (if SetsUp(n, c, role) then role else was.role)
      && (SetsUp(m, c, role) ==> Has(m, c, Master))
  {
    hide At, Has, Noted, Notes;
    NotedStats(n, c, id, role, p);
  }

  lemma NotedRoles(n: Node, c: ConfigName, id: nat, role: Role, p: nat)
    requires Has(n, c, Master) ==> At(n, c, Master).process == n.offsetSource
    requires Notes(ConfigOf(n, c).ports, id, role, p)
    ensures MovesRoles(n, Noted(n, c, id, role, p), c, id, role, ConfigOf(n, c).ports[p].role)
  {
    hide At, Has, Notice, SetRole;
    var s := if role == Slave || n.offsetSource == Ts2phc then Notice(n, c, role) else n;
    NoticeIsQuiet(n, c, role);
    RoleNoted(s, c, id - 1, role);
  }

  lemma RolesKept(n: Node, m: Node, l: Node, c: ConfigName, id: nat, role: Role, last: Role)
    requires MovesRoles(n, m, c, id, role, last) && l.configs == m.configs
    requires forall k :: Has(m, c, k) ==> Has(l, c, k)
    ensures MovesRoles(n, l, c, id, role, last)
  {
    hide Has, At;
  }

  lemma IndexIsFirst(ports: seq<PortConfig>, id: nat, p: nat)
    requires FirstWithId(ports, id, p)
    ensures PortIndex(ports, id) == p
  {
  }

  lemma NoticeIsQuiet(n: Node, c: ConfigName, role: Role)
    ensures
      var m, was, now := Notice(n, c, role), At(n, c, Master), At(Notice(n, c, role), c, Master);
      && m == n.(stats := m.stats) && Has(m, c, Master) && Has(m, c, ClockRealtime)
      && now.state == was.state && now.lastOffset == was.lastOffset && now.alias == was.alias
      && now.process == (if Has(n, c, Master) then was.process else n.offsetSource) && now.role == role
  {
    hide SetStat, CheckSource;
  }

  lemma RoleNoted(n: Node, c: ConfigName, i: int, role: Role)
    ensures 0 <= i < |ConfigOf(n, c).ports| ==>
      var m, ports := SetRole(n, c, i, role), ConfigOf(n, c).ports;
      && m == n.(configs := m.configs)
      && ConfigOf(m, c) == ConfigOf(n, c).(ports := ports[i := ports[i].(role := role)])
      && (forall k :: At(m, c, k) == At(n, c, k) && (Has(m, c, k) <==> Has(n, c, k)))
  {
    if 0 <= i < |ConfigOf(n, c).ports| {
      SameStats(n, SetRole(n, c, i, role));
    }
  }

  lemma FaultKeepsRoles(n: Node, c: ConfigName, role: Role, fault: bool)
    ensures
      var m := Fault(n, c, role, fault);
      m.configs == n.configs && forall k :: Has(n, c, k) ==> Has(m, c, k)
  {
    hide SetStat, Announce, At, Has, PtpThreshold;
    var st := At(n, c, Master);
    var m := Announce(SetStat(n, c, Master, st.(role := Faulty)), c, Master, Holdover, st.lastOffset, PtpState, true);
    ThresholdFrame(m, ConfigOf(m, c).profile, true);
    SameStats(m, StartHoldover(m, c));
  }

  lemma NothingLost(n: Node, c: ConfigName, role: Role, last: Role, fault: bool)
    requires last != Slave
    requires Has(n, c, Master) ==> At(n, c, Master).process == n.offsetSource
    requires SetsUp(n, c, role) ==> Has(n, c, Master) && At(n, c, Master).role == role
    ensures MovesMaster(n, n, c, role, last, fault)
  {
    hide At, KeyEvents;
  }

  lemma SameMoves(n: Node, before: Node, m: Node, c: ConfigName, role: Role, last: Role, fault: bool)
    requires MovesMaster(before, m, c, role, last, fault)
    requires before.trace == n.trace && before.holdovers == n.holdovers
    requires ConfigOf(before, c).ptype == ConfigOf(n, c).ptype
    requires LosesSlave(before, c, role, last) == LosesSlave(n, c, role, last)
    requires
      var was, now := At(n, c, Master), At(before, c, Master);
      && now.state == was.state && now.lastOffset == was.lastOffset && now.alias == was.alias
      && (now.role == was.role || (SetsUp(n, c, role) && now.role == role))
    requires SetsUp(before, c, role) == SetsUp(n, c, role) && Leader(before, c) == Leader(n, c)
    ensures MovesMaster(n, m, c, role, last, fault)
  {
    hide At, LosesSlave, KeyEvents, SetsUp, Leader;
  }

  /** In every run a line about a known port moves the roles and the master by these tables. The process of
      the master always leads by then, so a holdover never starts without its timer. */
  lemma PortLineMoves(r: Run, i: nat, c: ConfigName, id: nat, role: Role, fault: bool, p: nat)
    requires IsRun(r) && i < |r.inputs| && r.inputs[i] == Line(c, PortLog(id, role, fault))
    requires Serves(r.states[i], c) && Notes(ConfigOf(r.states[i], c).ports, id, role, p)
    ensures
      var n, m := r.states[i], r.states[i + 1];
      var last := ConfigOf(n, c).ports[p].role;
      MovesMaster(n, m, c, role, last, fault) && MovesRoles(n, m, c, id, role, last)
  {
    hide IsRun, Dispatch, At, Has, MovesMaster, PortLine, Notes;
    RunHasStates(r, i);
    var n, m, log := r.states[i], r.states[i + 1], PortLog(id, role, fault);
    var led := LineStep(r, i, c, log);
    DispatchesPort(led, c, log);
    KnownPort(n, c, id, role, p);
    PortMoves(led, c, id, role, fault, p);
    SameMoves(n, led, m, c, role, ConfigOf(n, c).ports[p].role, fault);
  }

  lemma KnownPort(n: Node, c: ConfigName, id: nat, role: Role, p: nat)
    requires Notes(ConfigOf(n, c).ports, id, role, p)
    ensures p < |ConfigOf(n, c).ports|
  {
  }

  /** The line names a port of the config and a role. */
  ghost predicate AboutPort(ports: seq<PortConfig>, id: nat, role: Role) {
    id != 0 && role != UnknownRole && exists p: nat :: FirstWithId(ports, id, p)
  }

  /** A line without an identifier or a role, about an unknown port, or about one whose identifier points
      beyond the list changes no role of a port, and neither state nor events of the master. The last still sets
      up the stats, the others do nothing. */
  lemma PortLineIgnored(r: Run, i: nat, c: ConfigName, id: nat, role: Role, fault: bool)
    requires IsRun(r) && i < |r.inputs| && r.inputs[i] == Line(c, PortLog(id, role, fault))
    requires Serves(r.states[i], c)
    requires forall p: nat :: !Notes(ConfigOf(r.states[i], c).ports, id, role, p)
    ensures
      var n, m := r.states[i], r.states[i + 1];
      && m.configs == n.configs && m.trace == n.trace && m.holdovers == n.holdovers
      && At(m, c, Master).state == At(n, c, Master).state && At(m, c, Master).alias == At(n, c, Master).alias
      && (if AboutPort(ConfigOf(n, c).ports, id, role) && SetsUp(n, c, role)
          then Has(m, c, ClockRealtime) && Has(m, c, Master) && At(m, c, Master).role == role
          else forall k :: At(m, c, k) == At(n, c, k) && (Has(m, c, k) <==> Has(n, c, k)))
  {
    hide IsRun, Dispatch, At, Has, PortLine, AboutPort;
    RunHasStates(r, i);
    var n, log := r.states[i], PortLog(id, role, fault);
    var led := LineStep(r, i, c, log);
    DispatchesPort(led, c, log);
    NotNoted(led, c, id, role, fault);
  }

  lemma NotNoted(n: Node, c: ConfigName, id: nat, role: Role, fault: bool)
    requires forall p: nat :: !Notes(ConfigOf(n, c).ports, id, role, p)
    ensures
      var m := PortLine(n, c, id, role, fault);
      && m.configs == n.configs && m.trace == n.trace && m.holdovers == n.holdovers
      && At(m, c, Master).state == At(n, c, Master).state && At(m, c, Master).alias == At(n, c, Master).alias
      && (if AboutPort(ConfigOf(n, c).ports, id, role) && (role == Slave || n.offsetSource == Ts2phc)
          then Has(m, c, ClockRealtime) && Has(m, c, Master) && At(m, c, Master).role == role
          else m == n)
  {
    hide At, Has, Notice, SetRole, Fault, PortIndex;
    var ports := ConfigOf(n, c).ports;
    var p := PortIndex(ports, id);
    NoticeIsQuiet(n, c, role);
    if p >= 0 {
      IndexFound(ports, id);
      assert FirstWithId(ports, id, p) && !Notes(ports, id, role, p);
    } else {
      NoIndex(ports, id);
    }
  }

  lemma NoIndex(ports: seq<PortConfig>, id: nat)
    requires PortIndex(ports, id) < 0
    ensures forall p: nat :: !FirstWithId(ports, id, p)
  {
  }

  lemma IndexFound(ports: seq<PortConfig>, id: nat)
    requires PortIndex(ports, id) >= 0
    ensures FirstWithId(ports, id, PortIndex(ports, id))
  {
  }
}
