/** The clock-state engine of the event manager, as a function on values: what one log line, or
    one timer going off, does to the stored clock states and which events it publishes.
    EventManager.dfy holds the objects that compute it; the theorems are about runs of it. */
module Engine {
  import opened SyncStates
  import opened Int64s
  import opened Options
  import opened OsClock
  import opened Sequences
  import Statistics

  type ConfigName = string
  type Profile = string

  /** Keys of PTPStats: the four names the program reserves, and network interfaces. */
  datatype IFace = ClockRealtime | Master | GmClock | TbcClock | Port(name: string)

  datatype Process = NoProcess | Ptp4l | Phc2sys | Ts2phc | Chronyd | Other(name: string)

  datatype Role = Passive | Slave | MasterRole | Faulty | UnknownRole | Listening

  datatype ProfileType = Plain | Tbc | Tgm

  datatype PortConfig = PortConfig(name: string, id: nat, role: Role)

  /** PTP4lConfig, with `ha` for the node's HA profile. */
  datatype Config = Config(profile: Profile, ptype: ProfileType, ports: seq<PortConfig>, ha: bool)

  /** Which daemons a profile has options for. */
  datatype Opts = Opts(phc2sys: bool, chronyd: bool)

  /** A Stats object. */
  datatype Stat = Stat(process: Process, role: Role, alias: string, lastOffset: Int64, state: SyncState,
                       acc: Statistics.Accum, os: Discipline)

  function NewStat(process: Process): (st: Stat) {
    Stat(process, Passive, "", 0, Unset, Statistics.ZERO, FRESH)
  }

  /** An entry of EventThreshold. Channels are numbered in the order they are made. */
  datatype Threshold = Threshold(holdOverTimeout: Int64, max: Int64, min: Int64, close: nat)

  /** A holdover goroutine: parked on its channel and its clock, past its clock, or gone. */
  datatype Waiting = Parked | Expiring | Over

  /** `entry` is the threshold entry whose channel it was started on, if there was one. */
  datatype HoldoverTimer = HoldoverTimer(config: ConfigName, entry: Option<Profile>, chan: nat, status: Waiting)

  datatype EventKind = PtpState | OsClockState | SyncStatus

  /** What happens in a run, in order: states stored, events published, a holdover that ended
      by its timer, a ptp4l that died while its T-BC clock was reported, and the clocks that fell
      silently with a dead ts2phc. */
  datatype Entry =
    | Stored(config: ConfigName, key: IFace, was: SyncState, now: SyncState)
    | Published(kind: EventKind, config: ConfigName, key: IFace, state: SyncState, offset: Int64)
    | Expired(config: ConfigName)
    | Died(config: ConfigName)
    | Silenced(config: ConfigName, keys: set<IFace>)

  type StatsMap = map<ConfigName, map<IFace, Stat>>

  /** `order` stands for the unspecified order of Go's map iteration: the entry that the i-th
      threshold lookup would meet first. `aliases` is what the alias service answers. */
  datatype Node = Node(
    stats: StatsMap,
    configs: map<ConfigName, Config>,
    tbcProfiles: set<Profile>,
    opts: map<Profile, Opts>,
    aliases: IFace -> string,
    thresholds: map<Profile, Threshold>,
    order: nat -> Profile,
    lookups: nat,
    closed: set<nat>,
    nextChan: nat,
    holdovers: seq<HoldoverTimer>,
    offsetSource: Process,
    gmState: SyncState,
    lastOverall: SyncState,
    trace: seq<Entry>)

  // ----- Access

  function StatsOf(stats: StatsMap, c: ConfigName): (r: map<IFace, Stat>) {
    if c in stats then stats[c] else map[]
  }

  predicate Has(n: Node, c: ConfigName, k: IFace) {
    c in n.stats && k in n.stats[c]
  }

  function At(n: Node, c: ConfigName, k: IFace): (st: Stat) {
    if Has(n, c, k) then n.stats[c][k] else NewStat(NoProcess)
  }

  lemma SameStats(n: Node, m: Node)
    requires m.stats == n.stats
    ensures forall c, k :: At(m, c, k) == At(n, c, k) && (Has(m, c, k) <==> Has(n, c, k))
  {
  }

  lemma SameEntries(n: Node, c: ConfigName)
    ensures
      var m := n.(stats := n.stats[c := StatsOf(n.stats, c)]);
      forall d, k :: At(m, d, k) == At(n, d, k) && (Has(m, d, k) <==> Has(n, d, k))
  {
  }

  function SetStat(n: Node, c: ConfigName, k: IFace, st: Stat): (m: Node)
    ensures m == n.(stats := m.stats)
    ensures forall d, j :: At(m, d, j) == if d == c && j == k then st else At(n, d, j)
    ensures forall d, j :: Has(m, d, j) <==> Has(n, d, j) || (d == c && j == k)
  {
    n.(stats := n.stats[c := StatsOf(n.stats, c)[k := st]])
  }

  function ConfigOf(n: Node, c: ConfigName): (cfg: Config) {
    if c in n.configs then n.configs[c] else Config("", Plain, [], false)
  }

  /** GetProfileTypeByConfigName. */
  function ResolvedType(n: Node, c: ConfigName): (r: ProfileType) {
    var cfg := ConfigOf(n, c);
    if cfg.ptype != Plain then cfg.ptype
    else if c in n.configs && cfg.profile in n.tbcProfiles then Tbc else Plain
  }

  /** LookupPtpProcessOpts. */
  function OptsOf(n: Node, c: ConfigName): (r: Option<Opts>) {
    var profile := ConfigOf(n, c).profile;
    if profile != "" && profile in n.opts then Some(n.opts[profile]) else None
  }

  /** CheckSource. */
  function CheckSource(n: Node, c: ConfigName, k: IFace, process: Process): (m: Node)
    ensures m == n.(stats := m.stats)
    ensures forall d, j :: At(m, d, j) == if d == c && j == k && !Has(n, c, k) then NewStat(process) else At(n, d, j)
    ensures forall d, j :: Has(m, d, j) <==> Has(n, d, j) || (d == c && j == k)
  {
    if Has(n, c, k) then n else SetStat(n, c, k, NewStat(process))
  }

  // ----- Aggregation

  function MainClock(keys: set<IFace>): (r: IFace) {
    if GmClock in keys then GmClock else if TbcClock in keys then TbcClock else Master
  }

  /** ChronydActiveAsE3. */
  ghost predicate ChronydActive(stats: StatsMap) {
    exists c :: c in stats && ChronydReports(stats[c])
  }

  predicate ChronydReports(ifaces: map<IFace, Stat>) {
    && ClockRealtime in ifaces
    && ifaces[ClockRealtime].process == Chronyd
    && ifaces[ClockRealtime].state != Unset
  }

  /** The stats that make up the state of the node. */
  predicate Counted(keys: set<IFace>, chronyd: bool, k: IFace, st: Stat) {
    var main := MainClock(keys);
    && (k == ClockRealtime || k == main || (k == Master && main != TbcClock))
    && (k == ClockRealtime && chronyd ==> st.process == Chronyd)
  }

  ghost function CountedStates(stats: StatsMap): (states: set<SyncState>) {
    set c, k | c in stats && k in stats[c]
               && Counted(stats[c].Keys, ChronydActive(stats), k, stats[c][k]) :: stats[c][k].state
  }

  /** What GetNodeSyncState returns, in whatever order it walks the maps. */
  ghost function NodeState(stats: StatsMap, current: SyncState): (state: SyncState) {
    OverallState(if current == Unset then FreeRun else current, WorstOf(CountedStates(stats)))
  }

  // ----- Thresholds and their channels

  const DEFAULT_MAX_OFFSET: Int64 := 100

  /** LookupEventThreshold: the profile's own entry, else any, else none. */
  function Lookup(n: Node, profile: Profile): (r: Option<Profile>) {
    if profile in n.thresholds then Some(profile)
    else if n.order(n.lookups) in n.thresholds then Some(n.order(n.lookups))
    else None
  }

  datatype Acquired = Acquired(node: Node, entry: Option<Profile>, max: Int64, chan: nat)

  /** SafeClose. */
  function SafeClose(n: Node, chan: nat): (m: Node) {
    n.(closed := n.closed + {chan})
  }

  function PtpThreshold(n: Node, profile: Profile, reset: bool): (r: Acquired) {
    var entry := Lookup(n, profile);
    var m := n.(lookups := n.lookups + 1);
    if entry.None? then
      Acquired(m.(nextChan := n.nextChan + 1), None, DEFAULT_MAX_OFFSET, n.nextChan)
    else
      var t := n.thresholds[entry.value];
      if reset then
        var made := SafeClose(m, t.close).(thresholds := n.thresholds[entry.value := t.(close := n.nextChan)],
                                            nextChan := n.nextChan + 1);
        Acquired(made, entry, t.max, n.nextChan)
      else Acquired(m, entry, t.max, t.close)
  }

  lemma ThresholdFrame(n: Node, profile: Profile, reset: bool)
    ensures
      var m := PtpThreshold(n, profile, reset).node;
      m == n.(lookups := m.lookups, nextChan := m.nextChan, closed := m.closed, thresholds := m.thresholds)
  {
  }

  /** The offset bound in force for a config whose profile has its own entry, or none exists. */
  function MaxOffset(n: Node, c: ConfigName): (r: Int64) {
    var profile := ConfigOf(n, c).profile;
    if profile in n.thresholds then n.thresholds[profile].max else DEFAULT_MAX_OFFSET
  }

  predicate OwnThreshold(n: Node, c: ConfigName) {
    ConfigOf(n, c).profile in n.thresholds || n.thresholds == map[]
  }

  // ----- Publishing

  /** PublishEvent: the event, and the state of the node if it changed with it. */
  ghost function Publish(n: Node, c: ConfigName, k: IFace, state: SyncState, offset: Int64, kind: EventKind): (r: Node)
    ensures r == n.(trace := r.trace, lastOverall := r.lastOverall)
    ensures state != Unset && kind != SyncStatus ==> r.lastOverall == NodeState(n.stats, state)
    ensures state != Unset ==>
      r.trace == n.trace + [Published(kind, c, k, state, offset)]
               + if r.lastOverall == n.lastOverall then [] else [Published(SyncStatus, c, k, r.lastOverall, offset)]
  {
    if state == Unset then n
    else
      var m := n.(trace := n.trace + [Published(kind, c, k, state, offset)]);
      var node := NodeState(n.stats, state);
      if kind == SyncStatus || node == n.lastOverall then m
      else m.(trace := m.trace + [Published(SyncStatus, c, k, node, offset)], lastOverall := node)
  }

  function Store(n: Node, c: ConfigName, k: IFace, state: SyncState): (m: Node)
    ensures m == n.(stats := m.stats, trace := n.trace + [Stored(c, k, At(n, c, k).state, state)])
    ensures forall d, j :: At(m, d, j) == if d == c && j == k then At(n, c, k).(state := state) else At(n, d, j)
    ensures forall d, j :: Has(m, d, j) <==> Has(n, d, j) || (d == c && j == k)
  {
    var st := At(n, c, k);
    SetStat(n, c, k, st.(state := state)).(trace := n.trace + [Stored(c, k, st.state, state)])
  }

  /** SetLastSyncState, followed by PublishEvent or not. */
  ghost function Announce(n: Node, c: ConfigName, k: IFace, state: SyncState, offset: Int64, kind: EventKind,
                          publish: bool): (r: Node)
    ensures r == n.(stats := r.stats, trace := r.trace, lastOverall := r.lastOverall)
    ensures forall d, j :: At(r, d, j) == if d == c && j == k then At(n, c, k).(state := state) else At(n, d, j)
    ensures forall d, j :: Has(r, d, j) <==> Has(n, d, j) || (d == c && j == k)
    ensures !publish ==> r == Store(n, c, k, state)
    ensures publish && state != Unset ==>
      r.trace == n.trace + [Stored(c, k, At(n, c, k).state, state)] + [Published(kind, c, k, state, offset)]
               + if r.lastOverall == n.lastOverall then [] else [Published(SyncStatus, c, k, r.lastOverall, offset)]
    ensures publish && state != Unset && kind != SyncStatus ==> r.lastOverall == NodeState(r.stats, state)
  {
    var m := Store(n, c, k, state);
    if publish then Publish(m, c, k, state, offset, kind) else m
  }

  /** SetLastOffset, and AddValue when `add`. */
  function Record(n: Node, c: ConfigName, k: IFace, offset: Int64, add: bool): (m: Node)
    ensures m == n.(stats := m.stats)
    ensures At(m, c, k) == At(n, c, k).(lastOffset := offset, acc := At(m, c, k).acc)
    ensures forall d, j :: d != c || j != k ==> At(m, d, j) == At(n, d, j)
    ensures forall d, j :: Has(m, d, j) <==> Has(n, d, j) || (d == c && j == k)
  {
    var st := At(n, c, k);
    SetStat(n, c, k, st.(lastOffset := offset, acc := if add then Statistics.Add64(st.acc, offset) else st.acc))
  }

  // ----- GenPTPEvent

  /** The state a clock takes: a locked report counts only in range, and out of range it does
      not end a holdover. */
  function NextState(last: SyncState, reported: SyncState, inRange: bool): (state: SyncState) {
    if reported == Unset then last
    else if reported != Locked then reported
    else if inRange then Locked
    else if last == Holdover then Holdover
    else FreeRun
  }

  /** A change of state is published, except a master's fall from holdover to freerun, which
      the holdover timer reports. */
  predicate IsNews(last: SyncState, next: SyncState, kind: EventKind) {
    next != last && !(last == Holdover && next == FreeRun && kind != OsClockState)
  }

  /** A locked report out of range, or a freerun during a master's holdover, leaves the last
      offset as it was. */
  predicate KeepsOffset(last: SyncState, reported: SyncState, inRange: bool, kind: EventKind) {
    || (reported == Locked && !inRange && last in {FreeRun, Holdover})
    || (reported == FreeRun && last == Holdover && kind != OsClockState)
  }

  /** The statistics take in every recorded offset but that of a first or failed locked report. */
  predicate AddsValue(last: SyncState, reported: SyncState, inRange: bool, kind: EventKind) {
    && !KeepsOffset(last, reported, inRange, kind)
    && !(reported == Locked && (last == Unset || (last == Locked && !inRange)))
  }

  /** A clock that locks after a holdover closes the channel of its threshold entry. */
  function Recovered(t: Acquired, last: SyncState, next: SyncState): (m: Node) {
    if last == Holdover && next == Locked then SafeClose(t.node, t.chan) else t.node
  }

  /** Every report but one of a clock that stays as it is stores its state anew. */
  ghost function Tell(n: Node, c: ConfigName, k: IFace, next: SyncState, offset: Int64, reported: SyncState,
                      kind: EventKind): (r: Node)
    ensures r == n.(stats := r.stats, trace := r.trace, lastOverall := r.lastOverall)
    ensures forall d, j :: At(r, d, j) == if d == c && j == k then At(n, c, k).(state := next) else At(n, d, j)
    ensures forall d, j :: d != c || j != k ==> (Has(r, d, j) <==> Has(n, d, j))
    ensures Has(n, c, k) ==> Has(r, c, k)
  {
    var last := At(n, c, k).state;
    if reported == Locked && next == last then n
    else Announce(n, c, k, next, offset, kind, IsNews(last, next, kind))
  }

  ghost function Gen(n: Node, c: ConfigName, k: IFace, offset: Int64, reported: SyncState, kind: EventKind): (m: Node)
    ensures reported == Unset ==> m == n
    ensures reported != Unset ==>
      var was, now := At(n, c, k), At(m, c, k);
      var t := PtpThreshold(n, ConfigOf(n, c).profile, false);
      var inRange := IsOffsetInRange(offset, t.max);
      && now.state == NextState(was.state, reported, inRange)
      && now.lastOffset == (if KeepsOffset(was.state, reported, inRange, kind) then was.lastOffset else offset)
      && m.closed == (if was.state == Holdover && now.state == Locked then n.closed + {t.chan} else n.closed)
      && m.nextChan == t.node.nextChan && m.lookups == t.node.lookups
    ensures At(m, c, k) == At(n, c, k).(state := At(m, c, k).state, lastOffset := At(m, c, k).lastOffset,
                                        acc := At(m, c, k).acc)
    ensures m == n.(stats := m.stats, closed := m.closed, nextChan := m.nextChan, lookups := m.lookups,
                    lastOverall := m.lastOverall, trace := m.trace)
    ensures forall d, j :: d != c || j != k ==> At(m, d, j) == At(n, d, j) && (Has(m, d, j) <==> Has(n, d, j))
    ensures Has(n, c, k) ==> Has(m, c, k)
  {
    if reported == Unset then n
    else
      var last := At(n, c, k).state;
      var t := PtpThreshold(n, ConfigOf(n, c).profile, false);
      var inRange := IsOffsetInRange(offset, t.max);
      var next := NextState(last, reported, inRange);
      var told := Tell(Recovered(t, last, next), c, k, next, offset, reported, kind);
      if KeepsOffset(last, reported, inRange, kind) then told
      else Record(told, c, k, offset, AddsValue(last, reported, inRange, kind))
  }

  // ----- phc2sys selection lines

  /** What the handlers look for in a phc2sys line. */
  datatype Phc2sysLine = Phc2sysLine(reconfiguring: bool, waiting: bool, sourceClock: bool, alreadySelected: bool,
                                     hasOffset: bool, namesRealtime: bool, fields: seq<string>,
                                     sample: Option<Sample>)

  /** No interface is called as the stats of a grandmaster or boundary clock are. */
  type SampledFace = k: IFace | k != GmClock && k != TbcClock witness Master

  /** A parsed offset line with the servo state; one that cannot be parsed is skipped. */
  datatype Sample = Sample(iface: SampledFace, offset: Int64, state: Known)

  datatype LineClass = OtherLine | Reconfigure | WaitingLine | SourceLine | FinalisedLine

  /** classifyOsClockLine. */
  function Classify(l: Phc2sysLine): (r: LineClass) {
    if l.reconfiguring then Reconfigure
    else if l.waiting then WaitingLine
    else if l.sourceClock then SourceLine
    else if l.alreadySelected || l.hasOffset then FinalisedLine
    else OtherLine
  }

  function IndexOf(fields: seq<string>, word: string): (i: int)
    ensures -1 <= i < |fields|
  {
    FirstIndex(fields, field => field == word)
  }

  const CLOCK_REALTIME := "CLOCK_REALTIME"

  /** parseSelectingForSynchronization. */
  function SelectedClock(fields: seq<string>): (r: Option<string>) {
    var i := IndexOf(fields, "selecting");
    if i < 0 then None
    else if i + 3 < |fields| && fields[i + 2] == "for" && fields[i + 3] == "synchronization" then Some(fields[i + 1])
    else if i + 4 < |fields| && fields[i + 1] == "system" && fields[i + 2] == "clock"
            && fields[i + 3] == "for" && fields[i + 4] == "synchronization" then Some(CLOCK_REALTIME)
    else None
  }

  function OnOsClock(n: Node, c: ConfigName, op: Op): (m: Node) {
    var st := At(n, c, ClockRealtime);
    SetStat(n, c, ClockRealtime, st.(os := Apply(st.os, op)))
  }

  /** publishOsClockFreerunUndisciplined. */
  ghost function PublishUndisciplined(n: Node, c: ConfigName): (m: Node) {
    if !Has(n, c, ClockRealtime) || (OptsOf(n, c).Some? && OptsOf(n, c).value.chronyd) then n
    else Gen(n, c, ClockRealtime, FREE_RUN_OFFSET, FreeRun, OsClockState)
  }

  const FREE_RUN_OFFSET: Int64 := Statistics.FREE_RUN_OFFSET

  /** Finalise or a settle callback, with what it reports. */
  ghost function Settle(n: Node, c: ConfigName, op: Op): (r: Node) {
    var m := OnOsClock(n, c, op);
    if Activates(At(n, c, ClockRealtime).os, op) then PublishUndisciplined(m, c) else m
  }

  /** handlePhc2sysSyncDirection: the state after the line. */
  ghost function Selection(n: Node, c: ConfigName, l: Phc2sysLine): (r: Node) {
    var m := CheckSource(n, c, ClockRealtime, Phc2sys);
    var open := WindowOpen(At(m, c, ClockRealtime).os);
    match Classify(l)
    case Reconfigure => OnOsClock(m, c, Begin)
    case WaitingLine => if open then OnOsClock(m, c, Abort) else m
    case SourceLine => OnOsClock(m, c, ReArm)
    case FinalisedLine =>
      if !open then m
      else if l.namesRealtime && l.hasOffset then OnOsClock(m, c, Abort)
      else Settle(m, c, Finalise)
    case OtherLine =>
      var clock := SelectedClock(l.fields);
      if clock.None? then m
      else if clock.value == CLOCK_REALTIME then OnOsClock(m, c, SinkClock)
      else if open then OnOsClock(m, c, SourceClock)
      else m
  }

  /** handlePhc2sysSyncDirection: does an offset line still go to offset processing? */
  predicate Continues(l: Phc2sysLine) {
    Classify(l).FinalisedLine? && l.hasOffset
  }

  // ----- Offset lines

  /** The state of the main clock that bounds CLOCK_REALTIME: missing counts as freerun for T-BC
      and T-GM, and as no bound otherwise. */
  function E1State(n: Node, c: ConfigName): (s: SyncState) {
    var ptype := ResolvedType(n, c);
    var key := if ptype == Tbc then TbcClock else MainClock(StatsOf(n.stats, c).Keys);
    if At(n, c, key).state != Unset then At(n, c, key).state
    else if ptype == Plain then Unset else FreeRun
  }

  /** A config of a T-BC: its own type says so, or it has none and its profile is one of a T-BC's. */
  predicate BoundaryClock(n: Node, c: ConfigName) {
    && c in n.configs
    && (n.configs[c].ptype == Tbc || (n.configs[c].ptype == Plain && n.configs[c].profile in n.tbcProfiles))
  }

  predicate Grandmaster(n: Node, c: ConfigName) {
    c in n.configs && n.configs[c].ptype == Tgm
  }

  /** A T-BC looks at its T-BC clock; any other config at its GM clock, else at its T-BC clock, else at its
      master. Where no state is stored, T-BC and T-GM count as in freerun and others set no bound. */
  function Bound(n: Node, c: ConfigName): (e1: SyncState) {
    var main :=
      if BoundaryClock(n, c) then At(n, c, TbcClock).state
      else if Has(n, c, GmClock) then At(n, c, GmClock).state
      else if Has(n, c, TbcClock) then At(n, c, TbcClock).state
      else At(n, c, Master).state;
    if main == Unset && (BoundaryClock(n, c) || Grandmaster(n, c)) then FreeRun else main
  }

  /** That is the state that E1State finds. */
  lemma BoundIsE1(n: Node, c: ConfigName)
    ensures E1State(n, c) == Bound(n, c)
  {
    assert forall k :: k in StatsOf(n.stats, c).Keys <==> Has(n, c, k);
  }

  /** The CLOCK_REALTIME case: E3 is derived from the servo state and E1, and reported once or
      twice over. */
  ghost function RealtimeSample(n: Node, c: ConfigName, offset: Int64, servo: SyncState): (r: Node) {
    var reported := OverallState(servo, E1State(n, c));
    var twice := (Has(n, c, Master) && At(n, c, Master).role == Slave) || n.offsetSource == Ts2phc;
    var m := if twice then Gen(n, c, ClockRealtime, offset, reported, OsClockState) else n;
    var alias := if Has(m, c, Master) then At(m, c, Master).alias else "ptp-ha-enabled";
    var named := SetStat(m, c, ClockRealtime, At(m, c, ClockRealtime).(alias := alias));
    Gen(named, c, ClockRealtime, offset, reported, OsClockState)
  }

  function SlaveName(ports: seq<PortConfig>): (s: string) {
    if ports == [] then "" else if ports[0].role == Slave then ports[0].name else SlaveName(ports[1..])
  }

  /** The port of least index in role SLAVE. */
  predicate FirstSlave(ports: seq<PortConfig>, p: nat) {
    p < |ports| && ports[p].role == Slave && forall q :: 0 <= q < p ==> ports[q].role != Slave
  }

  predicate NoSlave(ports: seq<PortConfig>) {
    forall p :: 0 <= p < |ports| ==> ports[p].role != Slave
  }

  /** The master case. */
  ghost function MasterSample(n: Node, c: ConfigName, process: Process, offset: Int64, servo: SyncState): (r: Node) {
    var slave := if process == Ts2phc then "master" else SlaveName(ConfigOf(n, c).ports);
    if slave == "" then n
    else
      var m := MasterState(SetStat(n, c, Master, At(n, c, Master).(alias := n.aliases(Port(slave)))), c, offset, servo);
      var st := At(m, c, Master);
      SetStat(m, c, Master, st.(acc := Statistics.Add64(st.acc, offset)))
  }

  /** An event, but under T-BC only a stored state. */
  ghost function MasterState(n: Node, c: ConfigName, offset: Int64, servo: SyncState): (m: Node) {
    if ConfigOf(n, c).ptype != Tbc then Gen(n, c, Master, offset, servo, PtpState)
    else Announce(n, c, Master, servo, offset, PtpState, false)
  }

  /** A ts2phc interface: an event of its own, or under T-BC only a stored state. */
  ghost function InterfaceSample(n: Node, c: ConfigName, k: IFace, offset: Int64, servo: SyncState): (m: Node) {
    var named := SetStat(n, c, k, At(n, c, k).(alias := n.aliases(k)));
    if ConfigOf(n, c).ptype != Tbc then Gen(named, c, k, offset, servo, PtpState)
    else TbcInterface(named, c, k, offset, servo)
  }

  ghost function TbcInterface(n: Node, c: ConfigName, k: IFace, offset: Int64, servo: SyncState): (m: Node) {
    var t := PtpThreshold(n, ConfigOf(n, c).profile, false);
    var state := if servo != Holdover && !IsOffsetInRange(offset, t.max) then FreeRun else servo;
    Record(Announce(t.node, c, k, state, offset, PtpState, false), c, k, offset, true)
  }

  /** While ts2phc leads and the grandmaster is in freerun, no other process is believed. */
  function Servo(n: Node, process: Process, state: Known): (r: Known) {
    if process != Ts2phc && n.offsetSource == Ts2phc && n.gmState == FreeRun then FreeRun else state
  }

  /** A ts2phc offset makes ts2phc the process of the master. */
  function Lead(n: Node, c: ConfigName, process: Process): (r: Node) {
    if process == Ts2phc then
      var m := CheckSource(n, c, Master, Ts2phc);
      SetStat(m, c, Master, At(m, c, Master).(process := Ts2phc))
    else n
  }

  ghost function OffsetSample(n: Node, c: ConfigName, process: Process, s: Sample): (r: Node) {
    var cleared := if process == Phc2sys && s.iface == ClockRealtime
                   then OnOsClock(CheckSource(n, c, ClockRealtime, Phc2sys), c, ClearOnRealtimeOffset) else n;
    if process != Ts2phc && s.iface != Master && s.iface != ClockRealtime then cleared
    else
      var servo := Servo(n, process, s.state);
      var led := Lead(cleared, c, process);
      var known := CheckSource(led, c, s.iface, process);
      var m := SetStat(known, c, s.iface, At(known, c, s.iface).(process := process));
      SampleFor(m, c, s.iface, process, s.offset, servo)
  }

  ghost function SampleFor(n: Node, c: ConfigName, k: SampledFace, process: Process, offset: Int64,
                           servo: Known): (m: Node) {
    if k == ClockRealtime then RealtimeSample(n, c, offset, servo)
    else if k == Master then MasterSample(n, c, process, offset, servo)
    else InterfaceSample(n, c, k, offset, servo)
  }

  // ----- Status lines

  /** processDownEvent. A config without master stats makes it panic; what was done stays. */
  ghost function ProcessDown(n: Node, c: ConfigName, process: Process): (r: Node) {
    if process == Ts2phc then Silence(n, c)
    else
      var m := TbcDown(n, c, process);
      if n.offsetSource != process then RealtimeDown(m, c)
      else if !Has(m, c, Master) then m
      else RealtimeDown(MasterDown(m, c), c)
  }

  /** Without ptp4l a T-BC clock is in freerun. */
  ghost function TbcDown(n: Node, c: ConfigName, process: Process): (m: Node) {
    if ConfigOf(n, c).ptype == Tbc && process == Ptp4l && At(n, c, TbcClock).alias != ""
    then Gen(n.(trace := n.trace + [Died(c)]), c, TbcClock, FREE_RUN_OFFSET, FreeRun, PtpState) else n
  }

  ghost function MasterDown(n: Node, c: ConfigName): (m: Node) {
    if At(n, c, Master).alias != "" then Gen(n, c, Master, FREE_RUN_OFFSET, FreeRun, PtpState) else n
  }

  /** Whatever died, phc2sys no longer steers CLOCK_REALTIME, unless chronyd may. */
  ghost function RealtimeDown(n: Node, c: ConfigName): (m: Node) {
    var options := OptsOf(n, c);
    if Has(n, c, ClockRealtime) && options.Some? && options.value.phc2sys && !options.value.chronyd
    then Gen(n, c, ClockRealtime, FREE_RUN_OFFSET, FreeRun, OsClockState) else n
  }

  /** The ts2phc branch: every clock of the config but two falls to freerun, unannounced. */
  function Silence(n: Node, c: ConfigName): (m: Node) {
    var ifaces := StatsOf(n.stats, c);
    var fallen := map k | k in ifaces :: Fallen(n, k, ifaces[k]);
    n.(stats := n.stats[c := fallen], trace := n.trace + [Silenced(c, ifaces.Keys - {ClockRealtime, Master})])
  }

  function Fallen(n: Node, k: IFace, st: Stat): (r: Stat) {
    if k == ClockRealtime || k == Master then st
    else st.(lastOffset := FREE_RUN_OFFSET, state := FreeRun, alias := n.aliases(k))
  }

  /** The GM, T-BC and chronyd lines. */
  ghost function ClockStatus(n: Node, c: ConfigName, k: IFace, iface: string, state: SyncState,
                             offset: Int64): (r: Node) {
    var m := CheckSource(n, c, k, Ts2phc);
    var named := SetStat(m, c, k, At(m, c, k).(alias := n.aliases(Port(iface))));
    // ParseGMLogs reads the offset from the interface's stats and panics without them
    if k == GmClock && !Has(named, c, Port(iface)) then named
    else
      var noted := Record(named, c, k, offset, false);
      if state == Unset || state == At(noted, c, k).state then noted
      else
        var told := Announce(noted, c, k, state, offset, PtpState, true);
        if k == GmClock then told.(gmState := state) else told
  }

  ghost function ChronydLine(n: Node, c: ConfigName, selected: Option<bool>): (r: Node) {
    var m := CheckSource(n, c, ClockRealtime, Chronyd);
    var owned := SetStat(m, c, ClockRealtime, At(m, c, ClockRealtime).(process := Chronyd));
    if selected.None? then owned
    else Gen(owned, c, ClockRealtime, 0, if selected.value then Locked else FreeRun, OsClockState)
  }

  // ----- Lines that report no state of a clock, but set up its stats

  /** A DPLL or GNSS line. */
  function DeviceLine(n: Node, c: ConfigName, iface: string, readable: bool): (r: Node) {
    var m := CheckSource(n, c, Port(iface), Ts2phc);
    if readable then SetStat(m, c, Port(iface), At(m, c, Port(iface)).(alias := n.aliases(Port(iface)))) else m
  }

  /** A clock class change. */
  function ClassLine(n: Node, c: ConfigName): (m: Node) {
    CheckSource(n, c, MainClock(StatsOf(n.stats, c).Keys), Ptp4l)
  }

  /** What a " max " line summarises. */
  datatype Summary = RealtimeSummary | MasterSummary | OtherSummary

  /** It names the master, where there is one; without master stats it panics. */
  function SummaryLine(n: Node, c: ConfigName, source: Process, clock: Summary): (m: Node) {
    var slave := SlaveName(ConfigOf(n, c).ports);
    if !Has(n, c, Master) then n
    else if clock == MasterSummary && slave != "" then
      SetStat(n, c, Master, At(n, c, Master).(alias := n.aliases(Port(slave))))
    else if clock == OtherSummary && source == Ts2phc then
      SetStat(n, c, Master, At(n, c, Master).(alias := n.aliases(Port(""))))
    else n
  }

  // ----- Port lines and holdover timers

  function PortIndex(ports: seq<PortConfig>, id: nat): (i: int)
    ensures -1 <= i < |ports|
  {
    FirstIndex(ports, (port: PortConfig) => port.id == id)
  }

  function SetRole(n: Node, c: ConfigName, i: nat, role: Role): (m: Node)
    requires i < |ConfigOf(n, c).ports|
  {
    var cfg := ConfigOf(n, c);
    n.(configs := n.configs[c := cfg.(ports := cfg.ports[i := cfg.ports[i].(role := role)])])
  }

  function StartHoldover(n: Node, c: ConfigName): (m: Node) {
    var t := PtpThreshold(n, ConfigOf(n, c).profile, true);
    t.node.(holdovers := t.node.holdovers + [HoldoverTimer(c, t.entry, t.chan, Parked)])
  }

  /** A port that becomes a slave, or any port under ts2phc, sets up the stats. */
  function Notice(n: Node, c: ConfigName, role: Role): (m: Node) {
    var s := CheckSource(CheckSource(n, c, ClockRealtime, Phc2sys), c, Master, n.offsetSource);
    SetStat(s, c, Master, At(s, c, Master).(role := role))
  }

  lemma NoticeFrame(n: Node, c: ConfigName, role: Role)
    ensures Notice(n, c, role) == n.(stats := Notice(n, c, role).stats)
  {
    hide SetStat, CheckSource;
  }

  /** What the loss of a slave port does; `fault` says that it puts the master in holdover. */
  ghost function Fault(n: Node, c: ConfigName, role: Role, fault: bool): (m: Node) {
    var st := At(n, c, Master);
    if !Has(n, c, Master) then n
    else if ConfigOf(n, c).ptype == Tbc then
      if role == Faulty && st.alias != "" then Announce(n, c, Master, FreeRun, 0, PtpState, false) else n
    else if !fault || st.state == Holdover then n
    else
      var f := SetStat(n, c, Master, st.(role := Faulty));
      if st.process != n.offsetSource then f
      else StartHoldover(Announce(f, c, Master, Holdover, st.lastOffset, PtpState, true), c)
  }

  /** The port part of ParsePTP4l. */
  ghost function PortLine(n: Node, c: ConfigName, id: nat, role: Role, fault: bool): (after: Node) {
    var ports := ConfigOf(n, c).ports;
    var i := PortIndex(ports, id);
    if id == 0 || role == UnknownRole || i < 0 then n
    else
      var last := ports[i].role;
      var m := if role == Slave || n.offsetSource == Ts2phc then Notice(n, c, role) else n;
      // an identifier beyond the list of ports makes the update panic
      if last != role && id > |ports| then m
      else
        var r := if last != role then SetRole(m, c, id - 1, role) else m;
        if last == Slave then Fault(r, c, role, fault) else r
  }

  function SetHoldover(n: Node, i: nat, status: Waiting): (m: Node)
    requires i < |n.holdovers|
  {
    n.(holdovers := n.holdovers[i := n.holdovers[i].(status := status)])
  }

  lemma SetHoldoverFrame(n: Node, i: nat, status: Waiting)
    requires i < |n.holdovers|
    ensures SetHoldover(n, i, status) == n.(holdovers := SetHoldover(n, i, status).holdovers)
  {
  }

  /** handleHoldOverState wakes up: its clock can only win while its channel is open. */
  function HoldoverFires(n: Node, i: nat): (m: Node) {
    if i < |n.holdovers| && n.holdovers[i].status == Parked && n.holdovers[i].chan !in n.closed
    then SetHoldover(n, i, Expiring) else n
  }

  /** The rest of handleHoldOverState, at any later time. */
  ghost function HoldoverRuns(n: Node, i: nat): (r: Node) {
    if i >= |n.holdovers| || n.holdovers[i].status != Expiring then n
    else
      var c := n.holdovers[i].config;
      var m := SetHoldover(n, i, Over).(stats := n.stats[c := StatsOf(n.stats, c)]);
      var st := At(m, c, Master);
      if st.state != Holdover || st.alias == "" then m
      else Announce(m.(trace := m.trace + [Expired(c)]), c, Master, FreeRun, st.lastOffset, PtpState, true)
  }

  // ----- One step

  datatype LogLine =
    | ProcessStatus(process: Process, up: bool)
    | GmStatus(iface: string, gm: SyncState, phaseOffset: Int64)
    | TbcStatus(iface: string, tbc: SyncState, tbcOffset: Int64)
    | ChronydStatus(selected: Option<bool>)
    | Phc2sysLog(line: Phc2sysLine)
    | OffsetLog(source: Process, sample: Sample)
    | PortLog(id: nat, role: Role, fault: bool)
    | DeviceLog(iface: string, readable: bool)
    | SynceLog(device: string)
    | ClassLog
    | SummaryLog(source: Process, clock: Summary)

  datatype Input =
    | Line(config: ConfigName, log: LogLine)
    | HoldoverFire(timer: nat)
    | HoldoverRun(timer: nat)
    | SettleFire(config: ConfigName, timer: nat)
    | SettleRun(config: ConfigName, timer: nat)

  /** validLogToProcess, which SyncE lines need not pass. */
  predicate Accepts(cfg: Config, log: LogLine) {
    log.SynceLog? || (cfg.profile != "" && (cfg.ports != [] || cfg.ha || log.ChronydStatus?))
  }

  ghost function Dispatch(n: Node, c: ConfigName, log: LogLine): (r: Node) {
    match log
    case ProcessStatus(process, up) => if up then n else ProcessDown(n, c, process)
    case GmStatus(iface, state, offset) => ClockStatus(n, c, GmClock, iface, state, offset)
    case TbcStatus(iface, state, offset) => ClockStatus(n, c, TbcClock, iface, state, offset)
    case ChronydStatus(selected) => ChronydLine(n, c, selected)
    case Phc2sysLog(line) =>
      var m := Selection(n, c, line);
      if Continues(line) && line.sample.Some? then OffsetSample(m, c, Phc2sys, line.sample.value) else m
    case OffsetLog(source, sample) => OffsetSample(n, c, source, sample)
    case PortLog(id, role, fault) => PortLine(n, c, id, role, fault)
    case DeviceLog(iface, readable) => DeviceLine(n, c, iface, readable)
    case SynceLog(device) => CheckSource(n, c, Port(device), Other("synce4l"))
    case ClassLog => ClassLine(n, c)
    case SummaryLog(source, clock) => SummaryLine(n, c, source, clock)
  }

  /** ExtractMetrics. */
  ghost function ExtractMetrics(n: Node, c: ConfigName, log: LogLine): (r: Node) {
    var m := n.(stats := n.stats[c := StatsOf(n.stats, c)]);
    if log.ProcessStatus? then Dispatch(m, c, log)
    else if !Accepts(ConfigOf(n, c), log) then m
    else Dispatch(if Has(m, c, Master) then m.(offsetSource := At(m, c, Master).process) else m, c, log)
  }

  predicate CallbackWaits(n: Node, c: ConfigName, t: nat) {
    var timers := At(n, c, ClockRealtime).os.timers;
    Has(n, c, ClockRealtime) && t < |timers| && timers[t].status == InFlight
  }

  ghost function Step(n: Node, input: Input): (m: Node) {
    match input
    case Line(c, log) => ExtractMetrics(n, c, log)
    case HoldoverFire(i) => HoldoverFires(n, i)
    case HoldoverRun(i) => HoldoverRuns(n, i)
    case SettleFire(c, t) => if Has(n, c, ClockRealtime) then OnOsClock(n, c, Fire(t)) else n
    case SettleRun(c, t) => if CallbackWaits(n, c, t) then Settle(n, c, Callback(t)) else n
  }

  /** A started program: no stats yet, every threshold with a channel of its own, and an order
      of the entries that names entries. The last state of the node may have been loaded from
      the store. */
  ghost predicate Init(n: Node) {
    && (n.thresholds == map[] || forall i :: n.order(i) in n.thresholds)
    && n.stats == map[] && n.holdovers == [] && n.closed == {} && n.trace == [] && n.gmState == Unset
    && (forall p :: p in n.thresholds ==> n.thresholds[p].close < n.nextChan)
    && (forall p, q :: p in n.thresholds && q in n.thresholds && n.thresholds[p].close == n.thresholds[q].close ==>
          p == q)
  }

  // ----- Runs

  /** The states a program goes through, and the inputs between them: log lines and timers, in any
      interleaving. */
  datatype Run = Run(states: seq<Node>, inputs: seq<Input>)

  ghost predicate IsRun(r: Run) {
    && |r.states| == |r.inputs| + 1
    && Init(r.states[0])
    && forall i :: 0 <= i < |r.inputs| ==> Follows(r, i)
  }

  ghost predicate Follows(r: Run, i: nat)
    requires |r.states| == |r.inputs| + 1 && i < |r.inputs|
  {
    r.states[i + 1] == Step(r.states[i], r.inputs[i])
  }

  /** Where a run got to. */
  function End(r: Run): (m: Node)
    requires r.states != []
  {
    r.states[|r.states| - 1]
  }

  function WithoutLast(r: Run): (out: Run)
    requires |r.states| == |r.inputs| + 1 && r.inputs != []
  {
    Run(r.states[..|r.inputs|], r.inputs[..|r.inputs| - 1])
  }

  lemma OneStepLess(r: Run)
    requires IsRun(r) && r.inputs != []
    ensures IsRun(WithoutLast(r)) && End(r) == Step(End(WithoutLast(r)), r.inputs[|r.inputs| - 1])
  {
    hide Init, Step;
    var before := WithoutLast(r);
    forall i | 0 <= i < |before.inputs| ensures Follows(before, i) {
      assert Follows(r, i);
    }
    assert Follows(r, |r.inputs| - 1);
  }

  lemma OneStepMore(r: Run, input: Input, next: Node)
    requires IsRun(r) && next == Step(End(r), input)
    ensures IsRun(Run(r.states + [next], r.inputs + [input]))
  {
    hide Init, Step;
    var more := Run(r.states + [next], r.inputs + [input]);
    forall i | 0 <= i < |more.inputs| ensures Follows(more, i) {
      assert i < |r.inputs| ==> Follows(r, i);
    }
  }

  /** Whatever the inputs, a started program has a run on them. */
  lemma {:induction false} EveryInputRuns(n: Node, inputs: seq<Input>) returns (r: Run)
    requires Init(n)
    ensures IsRun(r) && r.states[0] == n && r.inputs == inputs
  {
    hide Init, Step;
    if inputs == [] {
      r := Run([n], []);
    } else {
      var before := EveryInputRuns(n, inputs[..|inputs| - 1]);
      r := Run(before.states + [Step(End(before), inputs[|inputs| - 1])], inputs);
      forall i | 0 <= i < |inputs| ensures Follows(r, i) {
        assert i < |before.inputs| ==> Follows(before, i);
      }
    }
  }
}
