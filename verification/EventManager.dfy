/** PTPEventManager: the object whose fields log lines and timers update. Every method computes
    what the functions of module Engine say, so the theorems about runs of those are about runs of it. */
module EventManager {
  import opened SyncStates
  import opened Int64s
  import opened Options
  import opened OsClock
  import opened Engine
  import opened PtpStats
  import opened Thresholds
  import opened Aggregation
  import opened EventSwitch
  import Statistics

  /** `thresholds`, `closed`, `nextChan` and `holdovers` are the channels and goroutines of the Go
      runtime; `offsetSource` is the package variable masterOffsetSource. The caller holds
      extractMu for every method but the two halves of a holdover timer. */
  class PTPEventManager {
    var stats: Objects
    var configs: map<ConfigName, Config>
    var tbcProfiles: set<Profile>
    var opts: map<Profile, Opts>
    const aliases: IFace -> string
    var thresholds: map<Profile, Threshold>
    const order: nat -> Profile
    var lookups: nat
    var closed: set<nat>
    var nextChan: nat
    var holdovers: seq<HoldoverTimer>
    var offsetSource: Process
    var lastOverallGMState: SyncState
    var lastOverallSyncState: SyncState
    ghost var trace: seq<Entry>
    ghost var objects: set<object>

    // ----- The objects and the value they stand for

    ghost predicate InUse(c: ConfigName, k: IFace)
      reads this`stats
    {
      c in stats && k in stats[c]
    }

    /** Every object knows its key, so no two entries share one. */
    ghost predicate Valid()
      reads this`stats, this`objects, objects
    {
      this !in objects && forall c, k :: InUse(c, k) ==> Owns(stats[c][k], c, k)
    }

    ghost predicate Owns(s: Stats, c: ConfigName, k: IFace)
      reads this`objects, objects
    {
      s in objects && s.osClock in objects && s.Valid() && s.configName == c && s.key == k
    }

    ghost function AbsStats(): (r: StatsMap)
      requires Valid()
      reads this`stats, this`objects, objects
    {
      map c | c in stats :: map k | k in stats[c] :: assert InUse(c, k); stats[c][k].View()
    }

    ghost function Abs(): (m: Node)
      requires Valid()
      reads this, objects
    {
      Node(AbsStats(), configs, tbcProfiles, opts, aliases, thresholds, order, lookups, closed, nextChan, holdovers,
           offsetSource, lastOverallGMState, lastOverallSyncState, trace)
    }

    lemma SeenAll()
      requires Valid()
      ensures Abs().stats.Keys == stats.Keys
      ensures forall d, j :: Has(Abs(), d, j) <==> InUse(d, j)
      ensures forall d, j :: InUse(d, j) ==> stats[d][j].View() == At(Abs(), d, j)
    {
    }

    lemma Seen(c: ConfigName, k: IFace)
      requires Valid()
      ensures Has(Abs(), c, k) <==> InUse(c, k)
      ensures InUse(c, k) ==> At(Abs(), c, k) == stats[c][k].View()
    {
    }

    lemma SeenConfig(c: ConfigName)
      requires Valid() && c in stats
      ensures c in Abs().stats && Abs().stats[c].Keys == stats[c].Keys
      ensures forall k :: k in stats[c] ==> Abs().stats[c][k] == stats[c][k].View()
    {
    }

    ghost predicate Holds(c: ConfigName, k: IFace, s: Stats)
      reads this`stats
    {
      InUse(c, k) && stats[c][k] == s
    }

    /** `was` is what the map of maps stood for when it had its other objects as they are now. */
    ghost predicate SameBut(was: StatsMap, c: ConfigName, k: IFace)
      requires Valid()
      reads this`stats, this`objects, objects
    {
      && (forall d :: d in stats <==> d in was || d == c)
      && (forall d, j :: InUse(d, j) <==> (d in was && j in was[d]) || (d == c && j == k))
      && forall d, j :: InUse(d, j) && (d != c || j != k) ==> stats[d][j].View() == was[d][j]
    }

    lemma NoneChanged()
      requires Valid()
      ensures forall d :: d in stats <==> d in AbsStats()
      ensures forall d, j :: InUse(d, j) <==> d in AbsStats() && j in AbsStats()[d]
      ensures forall d, j :: InUse(d, j) ==> stats[d][j].View() == AbsStats()[d][j]
    {
    }

    /** If one object changed or is new, the map of maps differs in that entry. */
    lemma OneChanged(was: StatsMap, c: ConfigName, k: IFace)
      requires Valid() && InUse(c, k) && SameBut(was, c, k)
      ensures AbsStats() == was[c := StatsOf(was, c)[k := stats[c][k].View()]]
    {
      hide Stats.View;
      var now, next := AbsStats(), was[c := StatsOf(was, c)[k := stats[c][k].View()]];
      forall d | d in stats ensures d in next && now[d] == next[d] {
        forall j ensures j in now[d] <==> j in next[d] {
          assert InUse(d, j) <==> j in stats[d];
        }
        forall j | j in now[d] ensures now[d][j] == next[d][j] {
          assert InUse(d, j);
        }
      }
    }

    // ----- Writes to one object

    method SetProcessName(ghost c: ConfigName, ghost k: IFace, s: Stats, process: Process)
      requires Valid() && Holds(c, k, s)
      modifies s
      ensures Valid() && Abs() == SetStat(old(Abs()), c, k, At(old(Abs()), c, k).(process := process))
    {
      hide Stats.View, AbsStats, Stats.Valid, At, Has;
      Seen(c, k);
      NoneChanged();
      s.SetProcessName(process);
      OneChanged(old(AbsStats()), c, k);
    }

    method SetRole(ghost c: ConfigName, ghost k: IFace, s: Stats, role: Role)
      requires Valid() && Holds(c, k, s)
      modifies s
      ensures Valid() && Abs() == SetStat(old(Abs()), c, k, At(old(Abs()), c, k).(role := role))
    {
      hide Stats.View, AbsStats, Stats.Valid, At, Has;
      Seen(c, k);
      NoneChanged();
      s.SetRole(role);
      OneChanged(old(AbsStats()), c, k);
    }

    method SetAlias(ghost c: ConfigName, ghost k: IFace, s: Stats, alias: string)
      requires Valid() && Holds(c, k, s)
      modifies s
      ensures Valid() && Abs() == SetStat(old(Abs()), c, k, At(old(Abs()), c, k).(alias := alias))
    {
      hide Stats.View, AbsStats, Stats.Valid, At, Has;
      Seen(c, k);
      NoneChanged();
      s.SetAlias(alias);
      OneChanged(old(AbsStats()), c, k);
    }

    method SetLastSyncState(ghost c: ConfigName, ghost k: IFace, s: Stats, state: SyncState)
      requires Valid() && Holds(c, k, s)
      modifies this`trace, s
      ensures Valid() && Abs() == Store(old(Abs()), c, k, state)
    {
      hide AbsStats, Stats.View, Stats.Valid, At, Has, SetStat, Owns;
      ghost var was := At(Abs(), c, k).state;
      SetState(c, k, s, state);
      trace := trace + [Stored(c, k, was, state)];
    }

    method SetState(ghost c: ConfigName, ghost k: IFace, s: Stats, state: SyncState)
      requires Valid() && Holds(c, k, s)
      modifies s
      ensures Valid() && Abs() == SetStat(old(Abs()), c, k, At(old(Abs()), c, k).(state := state))
    {
      hide Stats.View, AbsStats, Stats.Valid, At, Has;
      Seen(c, k);
      NoneChanged();
      s.SetLastSyncState(state);
      OneChanged(old(AbsStats()), c, k);
    }

    /** SetLastOffset, and AddValue when `add`. */
    method Record(ghost c: ConfigName, ghost k: IFace, s: Stats, offset: Int64, add: bool)
      requires Valid() && Holds(c, k, s)
      modifies s
      ensures Valid() && Abs() == Engine.Record(old(Abs()), c, k, offset, add)
    {
      hide Stats.View, AbsStats, Stats.Valid, At, Has, Statistics.Add64;
      Seen(c, k);
      NoneChanged();
      s.SetLastOffset(offset);
      if add {
        s.AddValue(offset);
      }
      OneChanged(old(AbsStats()), c, k);
    }

    method AddValue(ghost c: ConfigName, ghost k: IFace, s: Stats, offset: Int64)
      requires Valid() && Holds(c, k, s)
      modifies s
      ensures Valid()
      ensures var st := At(old(Abs()), c, k);
        Abs() == SetStat(old(Abs()), c, k, st.(acc := Statistics.Add64(st.acc, offset)))
    {
      hide Stats.View, AbsStats, Stats.Valid, At, Has, Statistics.Add64;
      Seen(c, k);
      NoneChanged();
      s.AddValue(offset);
      OneChanged(old(AbsStats()), c, k);
    }

    /** A call on the discipline machine. */
    method OnOsClock(ghost c: ConfigName, s: Stats, op: Op) returns (activate: bool)
      requires Valid() && Holds(c, ClockRealtime, s) && !op.Fire? && !op.Callback?
      modifies s.osClock
      ensures Valid() && Abs() == Engine.OnOsClock(old(Abs()), c, op)
      ensures activate <==> Activates(At(old(Abs()), c, ClockRealtime).os, op)
    {
      hide AbsStats, At, Has, Apply, Activates;
      Seen(c, ClockRealtime);
      NoneChanged();
      activate := s.osClock.Call(op);
      OneChanged(old(AbsStats()), c, ClockRealtime);
    }

    method CheckSource(c: ConfigName, k: IFace, process: Process)
      requires Valid()
      modifies this`stats, this`objects
      ensures Valid() && InUse(c, k) && fresh(objects - old(objects))
      ensures Abs() == Engine.CheckSource(old(Abs()), c, k, process)
    {
      hide Stats.View, Abs, Stats.Valid, SetStat, At, Has, Owns;
      Seen(c, k);
      if c !in stats || k !in stats[c] {
        var s := new Stats(c, k, process);
        Add(c, k, s);
      }
    }

    /** A new object under an unused key. */
    method Add(c: ConfigName, k: IFace, s: Stats)
      requires Valid() && !InUse(c, k) && s.Valid() && s.configName == c && s.key == k
      modifies this`stats, this`objects
      ensures Valid() && InUse(c, k) && objects == old(objects) + {s, s.osClock}
      ensures Abs() == SetStat(old(Abs()), c, k, s.View())
    {
      hide Stats.View, AbsStats, Stats.Valid, At, Has, SameBut, Owns;
      Enter(c, k, s);
      OneChanged(old(AbsStats()), c, k);
    }

    method Enter(c: ConfigName, k: IFace, s: Stats)
      requires Valid() && !InUse(c, k) && s.Valid() && s.configName == c && s.key == k
      modifies this`stats, this`objects
      ensures Valid() && Holds(c, k, s) && objects == old(objects) + {s, s.osClock}
      ensures SameBut(old(AbsStats()), c, k)
    {
      hide Stats.View, AbsStats, Stats.Valid, SameBut, With, Owns;
      NoneChanged();
      Adopt(c, k, s);
      stats := With(stats, c, k, s);
      Added(old(stats), old(AbsStats()), c, k, s);
    }

    ghost method Adopt(c: ConfigName, k: IFace, s: Stats)
      requires Valid() && s.Valid() && s.configName == c && s.key == k
      modifies this`objects
      ensures Valid() && objects == old(objects) + {s, s.osClock} && Owns(s, c, k)
    {
      hide Stats.Valid;
      objects := objects + {s, s.osClock};
    }

    lemma Added(before: Objects, was: StatsMap, c: ConfigName, k: IFace, s: Stats)
      requires stats == With(before, c, k, s)
      requires Owns(s, c, k) && forall d, j :: d in before && j in before[d] ==> Owns(before[d][j], d, j)
      requires forall d :: d in before <==> d in was
      requires forall d, j :: d in before && j in before[d] <==> d in was && j in was[d]
      requires forall d, j :: d in before && j in before[d] ==> before[d][j].View() == was[d][j]
      requires this !in objects
      ensures Valid() && Holds(c, k, s) && SameBut(was, c, k)
    {
      hide Stats.View, Owns, With;
    }

    // ----- Aggregation

    method ChronydActiveAsE3() returns (active: bool)
      requires Valid()
      ensures active == ChronydActive(Abs().stats)
    {
      hide Stats.View;
      NoneChanged();
      var left := stats.Keys;
      while left != {}
        invariant left <= stats.Keys
        invariant forall c :: c in stats && c !in left ==> !ChronydReports(Abs().stats[c])
      {
        var c :| c in left;
        left := left - {c};
        if ClockRealtime in stats[c] {
          var cr := stats[c][ClockRealtime];
          assert InUse(c, ClockRealtime);
          cr.Shows();
          if cr.process == Chronyd && cr.lastSyncState != Unset {
            return true;
          }
        }
      }
      return false;
    }

    /** In whatever order the maps are walked. */
    method GetNodeSyncState(current: SyncState) returns (state: SyncState)
      requires Valid()
      ensures state == NodeState(Abs().stats, current)
      ensures IsNodeState(Abs().stats, if current == Unset then FreeRun else current, state)
    {
      hide Stats.View, ChronydActive, StatesOf, StatesAmong, WorstOf, Abs, IsNodeState;
      NodeStateByKey(Abs().stats, current);
      SeenAll();
      var chronydActive := ChronydActiveAsE3();
      var final := Unset;
      ghost var all, done: set<ConfigName> := Abs().stats, {};
      var left := stats.Keys;
      NothingOf(all, chronydActive, Counted);
      while left != {}
        invariant left <= stats.Keys && done == stats.Keys - left
        invariant final == WorstOf(StatesOf(all, chronydActive, Counted, done))
      {
        var c :| c in left;
        left := left - {c};
        final := FoldConfig(c, chronydActive, final);
        OneMoreConfig(all, chronydActive, Counted, done, c);
        done := done + {c};
      }
      assert done == all.Keys;
      CountedAreAll(all);
      if current == Unset {
        state := OverallState(FreeRun, final);
      } else {
        state := OverallState(current, final);
      }
    }

    /** The inner loop of GetNodeSyncState. */
    method FoldConfig(c: ConfigName, chronydActive: bool, current: SyncState) returns (final: SyncState)
      requires Valid() && c in stats
      ensures
        var ifaces := Abs().stats[c];
        final == OverallState(current, WorstOf(StatesAmong(ifaces, chronydActive, Counted, ifaces.Keys)))
    {
      hide Stats.View, StatesAmong, WorstOf, Abs;
      final := current;
      SeenConfig(c);
      var mainClockName := MainClock(stats[c].Keys);
      ghost var ifaces, done: set<IFace> := Abs().stats[c], {};
      var left := stats[c].Keys;
      NothingAmong(ifaces, chronydActive, Counted);
      while left != {}
        invariant left <= stats[c].Keys && done == stats[c].Keys - left
        invariant final == OverallState(current, WorstOf(StatesAmong(ifaces, chronydActive, Counted, done)))
      {
        var k :| k in left;
        left := left - {k};
        var s := stats[c][k];
        assert InUse(c, k) && ifaces[k] == s.View();
        s.Shows();
        FoldKey(ifaces, chronydActive, Counted, done, k, current);
        done := done + {k};
        if k != ClockRealtime && k != mainClockName && (k != Master || mainClockName == TbcClock) {
          continue;
        }
        if k == ClockRealtime && chronydActive && s.process != Chronyd {
          continue;
        }
        if s.lastSyncState == Unset {
          continue;
        }
        final := OverallState(final, s.lastSyncState);
      }
      assert done == ifaces.Keys;
    }

    /** The fold of the status handler; the answer is FREERUN when it finds no state. */
    method GetCurrentSyncState() returns (state: SyncState)
      requires Valid()
      ensures state == PullState(Abs().stats) && IsPullState(Abs().stats, state)
    {
      hide Stats.View, ChronydActive, StatesOf, StatesAmong, WorstOf, Abs, IsPullState;
      PullStateByKey(Abs().stats);
      SeenAll();
      var chronydIsE3 := ChronydActiveAsE3();
      var overall := Unset;
      ghost var all, done: set<ConfigName> := Abs().stats, {};
      var left := stats.Keys;
      NothingOf(all, chronydIsE3, Pulled);
      while left != {}
        invariant left <= stats.Keys && done == stats.Keys - left
        invariant overall == WorstOf(StatesOf(all, chronydIsE3, Pulled, done))
      {
        var c :| c in left;
        left := left - {c};
        overall := PullConfig(c, chronydIsE3, overall);
        OneMoreConfig(all, chronydIsE3, Pulled, done, c);
        done := done + {c};
      }
      assert done == all.Keys;
      if overall == Unset {
        state := FreeRun;
      } else {
        state := overall;
      }
    }

    method PullConfig(c: ConfigName, chronydIsE3: bool, current: SyncState) returns (overall: SyncState)
      requires Valid() && c in stats
      ensures
        var ifaces := Abs().stats[c];
        overall == OverallState(current, WorstOf(StatesAmong(ifaces, chronydIsE3, Pulled, ifaces.Keys)))
    {
      hide Stats.View, StatesAmong, WorstOf, Abs;
      overall := current;
      SeenConfig(c);
      var mainClockName := MainClock(stats[c].Keys);
      ghost var ifaces, done: set<IFace> := Abs().stats[c], {};
      var left := stats[c].Keys;
      NothingAmong(ifaces, chronydIsE3, Pulled);
      while left != {}
        invariant left <= stats[c].Keys && done == stats[c].Keys - left
        invariant overall == OverallState(current, WorstOf(StatesAmong(ifaces, chronydIsE3, Pulled, done)))
      {
        var k :| k in left;
        left := left - {k};
        var s := stats[c][k];
        assert InUse(c, k) && ifaces[k] == s.View();
        s.Shows();
        FoldKey(ifaces, chronydIsE3, Pulled, done, k, current);
        done := done + {k};
        if k == mainClockName {
          overall := OverallState(overall, s.lastSyncState);
        } else if k == ClockRealtime && (s.process == Chronyd || !chronydIsE3) {
          overall := OverallState(overall, s.lastSyncState);
        }
      }
      assert done == ifaces.Keys;
    }

    // ----- Thresholds, channels and events

    function ProfileOf(c: ConfigName): (r: Profile)
      reads this`configs
    {
      if c in configs then configs[c].profile else ""
    }

    /** The profile's own entry, or the one that the map yields first. */
    method LookupEventThreshold(profile: Profile) returns (entry: Option<Profile>)
      requires Valid()
      modifies this`lookups
      ensures Valid() && Abs() == old(Abs()).(lookups := old(lookups) + 1)
      ensures entry == Lookup(old(Abs()), profile)
    {
      if profile in thresholds {
        entry := Some(profile);
      } else if order(lookups) in thresholds {
        entry := Some(order(lookups));
      } else {
        entry := None;
      }
      lookups := lookups + 1;
    }

    method PtpThreshold(profile: Profile, reset: bool) returns (entry: Option<Profile>, max: Int64, close: nat)
      requires Valid()
      modifies this`lookups, this`nextChan, this`closed, this`thresholds
      ensures
        var t := Engine.PtpThreshold(old(Abs()), profile, reset);
        Valid() && Abs() == t.node && entry == t.entry && max == t.max && close == t.chan
    {
      hide AbsStats;
      entry := LookupEventThreshold(profile);
      if entry.None? {
        max, close := DEFAULT_MAX_OFFSET, nextChan;
        nextChan := nextChan + 1;
        return;
      }
      if reset {
        SafeClose(thresholds[entry.value].close);
        thresholds := thresholds[entry.value := thresholds[entry.value].(close := nextChan)];
        nextChan := nextChan + 1;
      }
      max, close := thresholds[entry.value].max, thresholds[entry.value].close;
    }

    method SafeClose(close: nat)
      requires Valid()
      modifies this`closed
      ensures Valid() && Abs() == Engine.SafeClose(old(Abs()), close)
    {
      hide AbsStats;
      if close !in closed {
        CloseChannel(close);
      }
    }

    /** close(c), which panics on a closed channel. */
    method CloseChannel(channel: nat)
      requires channel !in closed
      modifies this`closed
      ensures closed == old(closed) + {channel}
    {
      closed := closed + {channel};
    }

    method PublishEvent(ghost c: ConfigName, ghost k: IFace, state: SyncState, ghost offset: Int64, kind: EventKind)
      requires Valid()
      modifies this`trace, this`lastOverallSyncState
      ensures Valid() && Abs() == Publish(old(Abs()), c, k, state, offset, kind)
      ensures state != Unset && kind != SyncStatus ==> IsNodeState(Abs().stats, state, lastOverallSyncState)
    {
      hide AbsStats, NodeState, IsNodeState;
      if state == Unset {
        return;
      }
      trace := trace + [Published(kind, c, k, state, offset)];
      if kind == PtpState || kind == OsClockState {
        var nodeState := GetNodeSyncState(state);
        if nodeState != lastOverallSyncState {
          trace := trace + [Published(SyncStatus, c, k, nodeState, offset)];
          lastOverallSyncState := nodeState;
        }
      }
    }

    /** The state stored and published. */
    method Announce(ghost c: ConfigName, ghost k: IFace, s: Stats, state: SyncState, ghost offset: Int64,
                    kind: EventKind)
      requires Valid() && Holds(c, k, s)
      modifies this`trace, this`lastOverallSyncState, s
      ensures Valid() && Abs() == Engine.Announce(old(Abs()), c, k, state, offset, kind, true)
    {
      hide Abs, Store, Publish;
      SetLastSyncState(c, k, s, state);
      PublishEvent(c, k, state, offset, kind);
    }

    method GenPTPEvent(c: ConfigName, ghost k: IFace, s: Stats, ptpOffset: Int64, clockState: SyncState,
                       kind: EventKind)
      requires Valid() && Holds(c, k, s)
      modifies this`lookups, this`nextChan, this`closed, this`thresholds, this`trace, this`lastOverallSyncState, s
      ensures Valid() && Abs() == Gen(old(Abs()), c, k, ptpOffset, clockState, kind)
    {
      hide Abs, Gen, IsOffsetInRange, Engine.Announce, Engine.Record, Engine.PtpThreshold, At, Stats.View, GenLocked,
        Store, Publish;
      GenByCase(Abs(), c, k, ptpOffset, clockState, kind);
      if clockState == Unset {
        return;
      }
      Seen(c, k);
      s.Shows();
      var lastClockState := s.lastSyncState;
      Profiled(c);
      var _, max, close := PtpThreshold(ProfileOf(c), false);
      match clockState
      case Locked => LockedEvent(c, k, s, ptpOffset, lastClockState, max, close, kind);
      case Holdover =>
        SetLastSyncState(c, k, s, Holdover);
        if lastClockState != Holdover {
          PublishEvent(c, k, Holdover, ptpOffset, kind);
        }
        Record(c, k, s, ptpOffset, true);
      case FreeRun =>
        SetLastSyncState(c, k, s, FreeRun);
        if lastClockState != Holdover || kind == OsClockState {
          if lastClockState != FreeRun {
            PublishEvent(c, k, FreeRun, ptpOffset, kind);
          }
          Record(c, k, s, ptpOffset, true);
        }
    }

    /** The LOCKED case, where the last state decides. */
    method LockedEvent(ghost c: ConfigName, ghost k: IFace, s: Stats, ptpOffset: Int64, lastClockState: SyncState,
                       max: Int64, close: nat, kind: EventKind)
      requires Valid() && Holds(c, k, s)
      modifies this`closed, this`trace, this`lastOverallSyncState, s
      ensures Valid()
      ensures Abs() == GenLocked(old(Abs()), c, k, lastClockState, IsOffsetInRange(ptpOffset, max), close, ptpOffset,
                                 kind)
    {
      hide Abs, IsOffsetInRange, Engine.Announce, Engine.Record, Engine.SafeClose;
      match lastClockState
      case FreeRun =>
        if IsOffsetInRange(ptpOffset, max) {
          Announce(c, k, s, Locked, ptpOffset, kind);
          Record(c, k, s, ptpOffset, true);
        }
      case Locked =>
        if IsOffsetInRange(ptpOffset, max) {
          Record(c, k, s, ptpOffset, true);
        } else {
          Announce(c, k, s, FreeRun, ptpOffset, kind);
          Record(c, k, s, ptpOffset, false);
        }
      case Holdover =>
        if IsOffsetInRange(ptpOffset, max) {
          SafeClose(close);
          Announce(c, k, s, Locked, ptpOffset, kind);
          Record(c, k, s, ptpOffset, true);
        }
      case Unset =>
        var state := if IsOffsetInRange(ptpOffset, max) then Locked else FreeRun;
        Announce(c, k, s, state, ptpOffset, kind);
        Record(c, k, s, ptpOffset, false);
    }

    lemma Profiled(c: ConfigName)
      requires Valid()
      ensures ProfileOf(c) == ConfigOf(Abs(), c).profile
    {
    }

    // ----- phc2sys selection lines

    function ConfigFor(c: ConfigName): (cfg: Config)
      reads this`configs
    {
      if c in configs then configs[c] else Config("", Plain, [], false)
    }

    /** LookupPtpProcessOpts. */
    function OptsFor(c: ConfigName): (r: Option<Opts>)
      reads this`configs, this`opts
    {
      var profile := ConfigFor(c).profile;
      if profile != "" && profile in opts then Some(opts[profile]) else None
    }

    lemma Configured(c: ConfigName)
      requires Valid()
      ensures ConfigFor(c) == ConfigOf(Abs(), c) && OptsFor(c) == OptsOf(Abs(), c)
    {
    }

    method PublishOsClockFreerunUndisciplined(c: ConfigName)
      requires Valid()
      modifies this, objects
      ensures Valid() && objects == old(objects) && Abs() == PublishUndisciplined(old(Abs()), c)
    {
      hide Abs, Gen, OptsOf, OptsFor;
      Seen(c, ClockRealtime);
      Configured(c);
      if c in stats && ClockRealtime in stats[c] {
        var options := OptsFor(c);
        if options.None? || !options.value.chronyd {
          GenPTPEvent(c, ClockRealtime, stats[c][ClockRealtime], FREE_RUN_OFFSET, FreeRun, OsClockState);
        }
      }
    }

    method HandlePhc2sysSyncDirection(c: ConfigName, l: Phc2sysLine) returns (handled: bool)
      requires Valid()
      modifies this, objects
      ensures Valid() && fresh(objects - old(objects))
      ensures Abs() == Selection(old(Abs()), c, l)
      ensures l.hasOffset ==> handled == !Continues(l)
    {
      hide Abs, PublishUndisciplined, Engine.CheckSource, Engine.OnOsClock, SelectedClock, IndexOf, At, Stats.View,
        Activates;
      CheckSource(c, ClockRealtime, Phc2sys);
      var cr := stats[c][ClockRealtime];
      Seen(c, ClockRealtime);
      cr.Shows();
      var open := cr.osClock.IsWindowOpen();
      var activate;
      match Classify(l)
      case Reconfigure =>
        activate := OnOsClock(c, cr, Begin);
        return true;
      case WaitingLine =>
        if open {
          activate := OnOsClock(c, cr, Abort);
        }
        return true;
      case SourceLine =>
        activate := OnOsClock(c, cr, ReArm);
        return true;
      case FinalisedLine =>
        if !open {
          return false;
        }
        if l.namesRealtime && l.hasOffset {
          activate := OnOsClock(c, cr, Abort);
          return false;
        }
        activate := OnOsClock(c, cr, Finalise);
        if activate {
          PublishOsClockFreerunUndisciplined(c);
        }
        return !l.hasOffset;
      case OtherLine =>
        var clock := SelectedClock(l.fields);
        if clock.None? {
          return false;
        }
        if clock.value == CLOCK_REALTIME {
          activate := OnOsClock(c, cr, SinkClock);
        } else if open {
          activate := OnOsClock(c, cr, SourceClock);
        }
        return true;
    }

    /** The second half of a settle timer that went off: the callback, under extractMu. */
    method OnSettle(c: ConfigName, generation: nat, timer: nat)
      requires Valid() && InUse(c, ClockRealtime)
      requires
        var os := stats[c][ClockRealtime].osClock;
        timer < |os.timers| && os.timers[timer].status == InFlight && os.timers[timer].generation == generation
      modifies this, objects
      ensures Valid() && objects == old(objects) && Abs() == Settle(old(Abs()), c, Callback(timer))
    {
      hide Abs, PublishUndisciplined, At, Activates, Apply;
      var cr := stats[c][ClockRealtime];
      Seen(c, ClockRealtime);
      cr.Shows();
      var activate := FinaliseIfGeneration(c, cr, generation, timer);
      if activate {
        PublishOsClockFreerunUndisciplined(c);
      }
    }

    /** The first half: its time has passed, and the callback is on its way to the mutex. */
    method SettleFires(ghost c: ConfigName, s: Stats, timer: nat)
      requires Valid() && Holds(c, ClockRealtime, s)
      modifies s.osClock
      ensures Valid() && Abs() == Engine.OnOsClock(old(Abs()), c, Fire(timer))
    {
      hide AbsStats, At, Has, Apply;
      Seen(c, ClockRealtime);
      NoneChanged();
      s.osClock.TimerFires(timer);
      OneChanged(old(AbsStats()), c, ClockRealtime);
    }

    method FinaliseIfGeneration(ghost c: ConfigName, s: Stats, generation: nat, timer: nat) returns (activate: bool)
      requires Valid() && Holds(c, ClockRealtime, s)
      requires
        var os := s.osClock;
        timer < |os.timers| && os.timers[timer].status == InFlight && os.timers[timer].generation == generation
      modifies s.osClock
      ensures Valid() && Abs() == Engine.OnOsClock(old(Abs()), c, Callback(timer))
      ensures activate <==> Activates(At(old(Abs()), c, ClockRealtime).os, Callback(timer))
    {
      hide AbsStats, At, Has, Apply, Activates;
      Seen(c, ClockRealtime);
      NoneChanged();
      activate := s.osClock.FinaliseIfGeneration(generation, timer);
      OneChanged(old(AbsStats()), c, ClockRealtime);
    }

    // ----- Offset lines

    /** GetProfileTypeByConfigName. */
    function TypeFor(c: ConfigName): (r: ProfileType)
      reads this`configs, this`tbcProfiles
    {
      if c !in configs then Plain
      else if configs[c].ptype != Plain then configs[c].ptype
      else if configs[c].profile in tbcProfiles then Tbc
      else Plain
    }

    method LookupE1(c: ConfigName) returns (e1State: SyncState)
      requires Valid() && c in stats
      ensures e1State == E1State(Abs(), c) == Bound(Abs(), c)
    {
      hide AbsStats, Stats.View, At, Has, Bound;
      BoundIsE1(Abs(), c);
      e1State := Unset;
      var mainClockKey := MainClock(stats[c].Keys);
      if TypeFor(c) == Tbc {
        mainClockKey, e1State := TbcClock, FreeRun;
      } else if TypeFor(c) == Tgm {
        e1State := FreeRun;
      }
      SeenConfig(c);
      Seen(c, mainClockKey);
      Absent(Abs(), c, mainClockKey);
      if mainClockKey in stats[c] {
        stats[c][mainClockKey].Shows();
        if stats[c][mainClockKey].lastSyncState != Unset {
          e1State := stats[c][mainClockKey].lastSyncState;
        }
      }
    }

    lemma SeenFields()
      requires Valid()
      ensures Abs().offsetSource == offsetSource && Abs().lastOverall == lastOverallSyncState
      ensures Abs().gmState == lastOverallGMState && Abs().aliases == aliases && Abs().holdovers == holdovers
    {
    }

    lemma Absent(n: Node, c: ConfigName, k: IFace)
      ensures !Has(n, c, k) ==> At(n, c, k) == NewStat(NoProcess)
    {
    }

    method ReportRealtime(c: ConfigName, ptpOffset: Int64, servo: SyncState)
      requires Valid() && InUse(c, ClockRealtime)
      modifies this, objects
      ensures Valid() && objects == old(objects) && Abs() == RealtimeSample(old(Abs()), c, ptpOffset, servo)
    {
      hide Abs, At, Has, Gen, E1State, SetStat, Stats.View, OverallState;
      var cr := stats[c][ClockRealtime];
      var syncState := ReportedState(c, servo);
      ReportIfLed(c, cr, ptpOffset, syncState);
      NameRealtime(c, cr);
      GenPTPEvent(c, ClockRealtime, cr, ptpOffset, syncState, OsClockState);
    }

    /** The first report of a sample: with a slave port, or under ts2phc. */
    method ReportIfLed(c: ConfigName, cr: Stats, ptpOffset: Int64, syncState: SyncState)
      requires Valid() && Holds(c, ClockRealtime, cr)
      modifies this, cr
      ensures Valid() && objects == old(objects) && stats == old(stats)
      ensures
        var n := old(Abs());
        var led := (Has(n, c, Master) && At(n, c, Master).role == Slave) || n.offsetSource == Ts2phc;
        Abs() == if led then Gen(n, c, ClockRealtime, ptpOffset, syncState, OsClockState) else n
    {
      hide Abs, At, Has, Gen, Stats.View;
      SeenFields();
      Seen(c, Master);
      if Master in stats[c] {
        stats[c][Master].Shows();
      }
      if Master in stats[c] && stats[c][Master].role == Slave {
        GenPTPEvent(c, ClockRealtime, cr, ptpOffset, syncState, OsClockState);
      } else if offsetSource == Ts2phc {
        GenPTPEvent(c, ClockRealtime, cr, ptpOffset, syncState, OsClockState);
      }
    }

    /** The servo state bounded by E1, where there is one. */
    method ReportedState(c: ConfigName, servo: SyncState) returns (syncState: SyncState)
      requires Valid() && c in stats
      ensures syncState == OverallState(servo, E1State(Abs(), c))
    {
      hide Abs, E1State, OverallState;
      var e1State := LookupE1(c);
      OverallStateIsJoin(servo, e1State, e1State);
      syncState := servo;
      if e1State != Unset {
        syncState := OverallState(syncState, e1State);
      }
    }

    /** CLOCK_REALTIME takes the alias of the master, or the name of an HA node. */
    method NameRealtime(c: ConfigName, cr: Stats)
      requires Valid() && Holds(c, ClockRealtime, cr)
      modifies cr
      ensures Valid()
      ensures
        var n := old(Abs());
        var alias := if Has(n, c, Master) then At(n, c, Master).alias else "ptp-ha-enabled";
        Abs() == SetStat(n, c, ClockRealtime, At(n, c, ClockRealtime).(alias := alias))
    {
      hide Abs, At, Has, SetStat, Stats.View;
      Seen(c, Master);
      if Master in stats[c] {
        stats[c][Master].Shows();
        SetAlias(c, ClockRealtime, cr, stats[c][Master].alias);
      } else {
        SetAlias(c, ClockRealtime, cr, "ptp-ha-enabled");
      }
    }

    /** ByRole(SLAVE): the name of the first port in that role. */
    method BySlave(c: ConfigName) returns (name: string)
      requires Valid()
      ensures name == SlaveName(ConfigOf(Abs(), c).ports)
      ensures forall p: nat :: FirstSlave(ConfigOf(Abs(), c).ports, p) ==> name == ConfigOf(Abs(), c).ports[p].name
      ensures NoSlave(ConfigOf(Abs(), c).ports) ==> name == ""
    {
      hide AbsStats;
      Configured(c);
      var ports := ConfigFor(c).ports;
      var i := 0;
      while i < |ports|
        invariant 0 <= i <= |ports| && SlaveName(ports) == SlaveName(ports[i..])
        invariant forall q :: 0 <= q < i ==> ports[q].role != Slave
      {
        if ports[i].role == Slave {
          return ports[i].name;
        }
        i := i + 1;
      }
      return "";
    }

    method ReportMaster(c: ConfigName, process: Process, ptpOffset: Int64, servo: SyncState)
      requires Valid() && InUse(c, Master)
      modifies this, objects
      ensures Valid() && objects == old(objects) && Abs() == MasterSample(old(Abs()), c, process, ptpOffset, servo)
    {
      hide Abs, At, MasterState, SetStat, Stats.View, SlaveName, Statistics.Add64;
      SeenFields();
      var slave := "master";
      if process != Ts2phc {
        slave := BySlave(c);
      }
      if slave != "" {
        var st := stats[c][Master];
        SetAlias(c, Master, st, aliases(Port(slave)));
        ReportMasterState(c, st, ptpOffset, servo);
        AddValue(c, Master, st, ptpOffset);
      }
    }

    /** An event, but under T-BC only a stored state. */
    method ReportMasterState(c: ConfigName, st: Stats, ptpOffset: Int64, servo: SyncState)
      requires Valid() && Holds(c, Master, st)
      modifies this, st
      ensures Valid() && objects == old(objects) && stats == old(stats)
      ensures Abs() == MasterState(old(Abs()), c, ptpOffset, servo)
    {
      hide Abs, Gen, Store, Stats.View;
      Configured(c);
      if ConfigFor(c).ptype != Tbc {
        GenPTPEvent(c, Master, st, ptpOffset, servo, PtpState);
      } else {
        SetLastSyncState(c, Master, st, servo);
      }
    }

    method ReportInterface(c: ConfigName, k: IFace, ptpOffset: Int64, servo: SyncState)
      requires Valid() && InUse(c, k)
      modifies this, objects
      ensures Valid() && objects == old(objects) && Abs() == InterfaceSample(old(Abs()), c, k, ptpOffset, servo)
    {
      hide Abs, At, Gen, SetStat, Stats.View, Store, Engine.Record, Engine.PtpThreshold, IsOffsetInRange;
      Configured(c);
      SeenFields();
      var s := stats[c][k];
      SetAlias(c, k, s, aliases(k));
      if ConfigFor(c).ptype != Tbc {
        GenPTPEvent(c, k, s, ptpOffset, servo, PtpState);
      } else {
        Profiled(c);
        var _, max, _ := PtpThreshold(ProfileOf(c), false);
        var syncState := servo;
        if syncState != Holdover && !IsOffsetInRange(ptpOffset, max) {
          syncState := FreeRun;
        }
        SetLastSyncState(c, k, s, syncState);
        Record(c, k, s, ptpOffset, true);
      }
    }

    /** An offset line of any process. */
    method ReportOffset(c: ConfigName, process: Process, sample: Sample)
      requires Valid()
      modifies this, objects
      ensures Valid() && fresh(objects - old(objects)) && Abs() == OffsetSample(old(Abs()), c, process, sample)
    {
      hide Abs, At, SetStat, Stats.View, Engine.CheckSource, Engine.OnOsClock, Lead, SampleFor, Owns;
      SeenFields();
      var k := sample.iface;
      HandlePhc2sysOffsetSyncDirection(c, process, k);
      if process != Ts2phc && k != Master && k != ClockRealtime {
        return;
      }
      var syncState := sample.state;
      if process != Ts2phc && offsetSource == Ts2phc && lastOverallGMState == FreeRun {
        syncState := FreeRun;
      }
      ReportTaken(c, k, process, sample.offset, syncState);
    }

    /** The offset of a clock that the process takes over. */
    method ReportTaken(c: ConfigName, k: SampledFace, process: Process, ptpOffset: Int64, servo: Known)
      requires Valid()
      modifies this, objects
      ensures Valid() && fresh(objects - old(objects))
      ensures
        var known := Engine.CheckSource(Lead(old(Abs()), c, process), c, k, process);
        var taken := SetStat(known, c, k, At(known, c, k).(process := process));
        Abs() == SampleFor(taken, c, k, process, ptpOffset, servo)
    {
      hide Abs, At, SetStat, Stats.View, Engine.CheckSource, Lead, SampleFor, Owns;
      TakeSource(c, k, process);
      ReportFor(c, k, process, ptpOffset, servo);
    }

    method ReportFor(c: ConfigName, k: SampledFace, process: Process, ptpOffset: Int64, servo: Known)
      requires Valid() && InUse(c, k)
      modifies this, objects
      ensures Valid() && objects == old(objects) && Abs() == SampleFor(old(Abs()), c, k, process, ptpOffset, servo)
    {
      hide Abs, Stats.View, RealtimeSample, MasterSample, InterfaceSample;
      if k == ClockRealtime {
        ReportRealtime(c, ptpOffset, servo);
      } else if k == Master {
        ReportMaster(c, process, ptpOffset, servo);
      } else {
        ReportInterface(c, k, ptpOffset, servo);
      }
    }

    method HandlePhc2sysOffsetSyncDirection(c: ConfigName, process: Process, k: IFace)
      requires Valid()
      modifies this`stats, this`objects, objects
      ensures Valid() && fresh(objects - old(objects))
      ensures
        var n := old(Abs());
        Abs() == if process == Phc2sys && k == ClockRealtime
                 then Engine.OnOsClock(Engine.CheckSource(n, c, ClockRealtime, Phc2sys), c, ClearOnRealtimeOffset)
                 else n
    {
      hide Abs, Engine.CheckSource, Engine.OnOsClock, Activates;
      if process == Phc2sys && k == ClockRealtime {
        CheckSource(c, ClockRealtime, Phc2sys);
        var _ := OnOsClock(c, stats[c][ClockRealtime], ClearOnRealtimeOffset);
      }
    }

    /** ts2phc takes over the master, and the process its interface. */
    method TakeSource(c: ConfigName, k: IFace, process: Process)
      requires Valid()
      modifies this`stats, this`objects, objects
      ensures Valid() && InUse(c, k) && fresh(objects - old(objects))
      ensures
        var known := Engine.CheckSource(Lead(old(Abs()), c, process), c, k, process);
        Abs() == SetStat(known, c, k, At(known, c, k).(process := process))
    {
      hide Abs, At, SetStat, Engine.CheckSource, Stats.View;
      if process == Ts2phc {
        TakeClock(c, Master, Ts2phc);
      }
      TakeClock(c, k, process);
    }

    method TakeClock(c: ConfigName, k: IFace, process: Process)
      requires Valid()
      modifies this`stats, this`objects, objects
      ensures Valid() && InUse(c, k) && fresh(objects - old(objects))
      ensures
        var known := Engine.CheckSource(old(Abs()), c, k, process);
        Abs() == SetStat(known, c, k, At(known, c, k).(process := process))
    {
      hide Abs, At, SetStat, Engine.CheckSource, Stats.View;
      CheckSource(c, k, process);
      SetProcessName(c, k, stats[c][k], process);
    }

    // ----- Status lines

    /** ParseGMLogs and ParseTBCLogs. The former panics where the interface has no stats. */
    method ReportStatus(c: ConfigName, k: IFace, iface: string, state: SyncState, ptpOffset: Int64)
      requires Valid()
      modifies this, objects
      ensures Valid() && fresh(objects - old(objects))
      ensures Abs() == ClockStatus(old(Abs()), c, k, iface, state, ptpOffset)
    {
      hide Abs, At, SetStat, Engine.CheckSource, Engine.Record, Engine.Announce, Stats.View;
      SeenFields();
      CheckSource(c, k, Ts2phc);
      var s := stats[c][k];
      SetAlias(c, k, s, aliases(Port(iface)));
      Seen(c, Port(iface));
      if k == GmClock && Port(iface) !in stats[c] {
        return;
      }
      Record(c, k, s, ptpOffset, false);
      AnnounceStatus(c, k, s, state, ptpOffset);
    }

    /** The state is published when it is a change. */
    method AnnounceStatus(c: ConfigName, k: IFace, s: Stats, state: SyncState, ptpOffset: Int64)
      requires Valid() && Holds(c, k, s)
      modifies this`trace, this`lastOverallSyncState, this`lastOverallGMState, s
      ensures Valid()
      ensures
        var noted := old(Abs());
        var told := Engine.Announce(noted, c, k, state, ptpOffset, PtpState, true);
        Abs() == if state == Unset || state == At(noted, c, k).state then noted
                 else if k == GmClock then told.(gmState := state) else told
    {
      hide AbsStats, At, Engine.Announce, Stats.View;
      Seen(c, k);
      s.Shows();
      if state != Unset && state != s.lastSyncState {
        Announce(c, k, s, state, ptpOffset, PtpState);
        if k == GmClock {
          lastOverallGMState := state;
        }
      }
    }

    method ReportChronyd(c: ConfigName, selected: Option<bool>)
      requires Valid()
      modifies this, objects
      ensures Valid() && fresh(objects - old(objects)) && Abs() == ChronydLine(old(Abs()), c, selected)
    {
      hide Abs, At, SetStat, Engine.CheckSource, Gen, Stats.View;
      CheckSource(c, ClockRealtime, Chronyd);
      var cr := stats[c][ClockRealtime];
      SetProcessName(c, ClockRealtime, cr, Chronyd);
      if selected.Some? {
        if selected.value {
          GenPTPEvent(c, ClockRealtime, cr, 0, Locked, OsClockState);
        } else {
          GenPTPEvent(c, ClockRealtime, cr, 0, FreeRun, OsClockState);
        }
      }
    }

    method ProcessDownEvent(c: ConfigName, process: Process)
      requires Valid() && c in stats
      modifies this, objects
      ensures Valid() && objects == old(objects) && Abs() == ProcessDown(old(Abs()), c, process)
    {
      hide Abs, At, Has, Silence, Stats.View, Engine.TbcDown, Engine.MasterDown, Engine.RealtimeDown;
      SeenFields();
      if process == Ts2phc {
        SilenceInterfaces(c);
        return;
      }
      TbcDown(c, process);
      Seen(c, Master);
      if offsetSource == process {
        // without master stats this panics
        if Master !in stats[c] {
          return;
        }
        MasterDown(c, stats[c][Master]);
      }
      RealtimeDown(c);
    }

    method MasterDown(c: ConfigName, s: Stats)
      requires Valid() && Holds(c, Master, s)
      modifies this, s
      ensures Valid() && objects == old(objects) && stats == old(stats)
      ensures Abs() == Engine.MasterDown(old(Abs()), c)
    {
      hide Abs, At, Has, Gen, Stats.View;
      Seen(c, Master);
      s.Shows();
      if s.alias != "" {
        GenPTPEvent(c, Master, s, FREE_RUN_OFFSET, FreeRun, PtpState);
      }
    }

    /** Without ptp4l a T-BC clock is in freerun. */
    method TbcDown(c: ConfigName, process: Process)
      requires Valid() && c in stats
      modifies this, objects
      ensures Valid() && objects == old(objects) && stats == old(stats) && offsetSource == old(offsetSource)
      ensures Abs() == Engine.TbcDown(old(Abs()), c, process)
    {
      hide Abs, At, Has, Gen, Stats.View;
      Configured(c);
      Seen(c, TbcClock);
      Absent(Abs(), c, TbcClock);
      if ConfigFor(c).ptype == Tbc && process == Ptp4l && TbcClock in stats[c] {
        stats[c][TbcClock].Shows();
        if stats[c][TbcClock].alias != "" {
          NoteDeath(c);
          GenPTPEvent(c, TbcClock, stats[c][TbcClock], FREE_RUN_OFFSET, FreeRun, PtpState);
        }
      }
    }

    ghost method NoteDeath(c: ConfigName)
      requires Valid()
      modifies this`trace
      ensures Valid() && Abs() == old(Abs()).(trace := old(Abs()).trace + [Died(c)])
    {
      hide AbsStats;
      trace := trace + [Died(c)];
    }

    /** Whatever died, phc2sys no longer steers CLOCK_REALTIME, unless chronyd may. */
    method RealtimeDown(c: ConfigName)
      requires Valid() && c in stats
      modifies this, objects
      ensures Valid() && objects == old(objects)
      ensures Abs() == Engine.RealtimeDown(old(Abs()), c)
    {
      hide Abs, At, Has, Gen, OptsOf, OptsFor, Stats.View;
      Configured(c);
      Seen(c, ClockRealtime);
      if ClockRealtime in stats[c] {
        var options := OptsFor(c);
        if options.Some? && options.value.phc2sys && !options.value.chronyd {
          GenPTPEvent(c, ClockRealtime, stats[c][ClockRealtime], FREE_RUN_OFFSET, FreeRun, OsClockState);
        }
      }
    }

    /** Every interface falls to freerun, in whatever order, and no event says so. */
    method SilenceInterfaces(c: ConfigName)
      requires Valid() && c in stats
      modifies this`trace, objects
      ensures Valid() && Abs() == Silence(old(Abs()), c)
    {
      hide Stats.View, AbsStats, At, Has, SetStat, Fallen, Silencing, Silence, Owns;
      ghost var n := Abs();
      SeenConfig(c);
      SeenAll();
      var left := stats[c].Keys;
      NoneSilenced(n, c, left);
      while left != {}
        invariant left <= stats[c].Keys && Valid() && Silencing(n, Abs(), c, left)
      {
        var k :| k in left;
        ghost var rest := left;
        left := left - {k};
        assert left + {k} == rest;
        SilenceNext(n, c, k, left);
      }
      AllSilenced(n, Abs(), c);
      trace := trace + [Silenced(c, stats[c].Keys - {ClockRealtime, Master})];
    }

    method SilenceNext(ghost n: Node, c: ConfigName, k: IFace, ghost left: set<IFace>)
      requires Valid() && InUse(c, k) && k !in left && Silencing(n, Abs(), c, left + {k})
      modifies objects
      ensures Valid() && Silencing(n, Abs(), c, left)
    {
      hide Stats.View, AbsStats, At, Has, SetStat, Fallen, Silencing;
      ghost var m := Abs();
      Seen(c, k);
      assert Owns(stats[c][k], c, k);
      if k != ClockRealtime && k != Master {
        SilenceOne(c, k, stats[c][k]);
      }
      OneMoreSilenced(n, m, Abs(), c, left, k);
    }

    /** What the loop has done when these keys of the config are left. */
    ghost predicate Silencing(n: Node, m: Node, c: ConfigName, left: set<IFace>) {
      && m == n.(stats := m.stats) && m.stats.Keys == n.stats.Keys
      && (forall d, j :: Has(m, d, j) <==> Has(n, d, j))
      && forall d, j :: Has(n, d, j) ==>
           At(m, d, j) == if d == c && j !in left then Fallen(n, j, At(n, d, j)) else At(n, d, j)
    }

    lemma OneMoreSilenced(n: Node, m: Node, next: Node, c: ConfigName, left: set<IFace>, k: IFace)
      requires Silencing(n, m, c, left + {k}) && Has(m, c, k) && k !in left
      requires next == if k == ClockRealtime || k == Master then m else SetStat(m, c, k, Fallen(m, k, At(m, c, k)))
      ensures Silencing(n, next, c, left)
    {
      SetKeepsKeys(m, c, k, Fallen(m, k, At(m, c, k)));
      hide At, Has, SetStat;
    }

    lemma SetKeepsKeys(n: Node, c: ConfigName, k: IFace, st: Stat)
      requires Has(n, c, k)
      ensures SetStat(n, c, k, st).stats.Keys == n.stats.Keys
    {
    }

    lemma NoneSilenced(n: Node, c: ConfigName, left: set<IFace>)
      requires forall k :: Has(n, c, k) ==> k in left
      ensures Silencing(n, n, c, left)
    {
      hide At, Has;
    }

    lemma AllSilenced(n: Node, m: Node, c: ConfigName)
      requires c in n.stats && Silencing(n, m, c, {})
      ensures m.(trace := m.trace + [Silenced(c, n.stats[c].Keys - {ClockRealtime, Master})]) == Silence(n, c)
    {
      hide At, Has;
      AllFallen(n, m, c);
    }

    method SilenceOne(ghost c: ConfigName, k: IFace, s: Stats)
      requires Valid() && Holds(c, k, s) && k != ClockRealtime && k != Master
      modifies s
      ensures Valid() && Abs() == SetStat(old(Abs()), c, k, Fallen(old(Abs()), k, At(old(Abs()), c, k)))
    {
      hide Stats.View, AbsStats, Stats.Valid, At, Has;
      Seen(c, k);
      NoneChanged();
      s.Fall(FREE_RUN_OFFSET, aliases(k));
      OneChanged(old(AbsStats()), c, k);
    }

    // ----- Port lines and holdover timers

    /** The index of the port with this identifier, or -1. */
    method ByPortID(c: ConfigName, portID: nat) returns (i: int)
      requires Valid()
      ensures i == PortIndex(ConfigOf(Abs(), c).ports, portID)
    {
      hide AbsStats;
      Configured(c);
      var ports := ConfigFor(c).ports;
      i := 0;
      while i < |ports|
        invariant 0 <= i <= |ports| && forall j :: 0 <= j < i ==> ports[j].id != portID
      {
        if ports[i].id == portID {
          return;
        }
        i := i + 1;
      }
      return -1;
    }

    method UpdateRole(c: ConfigName, i: nat, role: Role)
      requires Valid() && i < |ConfigFor(c).ports|
      modifies this`configs
      ensures Valid() && i < |ConfigOf(old(Abs()), c).ports| && Abs() == Engine.SetRole(old(Abs()), c, i, role)
    {
      hide AbsStats;
      var cfg := ConfigFor(c);
      configs := configs[c := cfg.(ports := cfg.ports[i := cfg.ports[i].(role := role)])];
    }

    method StartHoldoverTimer(c: ConfigName)
      requires Valid()
      modifies this
      ensures Valid() && objects == old(objects) && stats == old(stats) && Abs() == StartHoldover(old(Abs()), c)
    {
      hide AbsStats, Engine.PtpThreshold;
      Profiled(c);
      ghost var n := Abs();
      ThresholdFrame(n, ProfileOf(c), true);
      var entry, _, close := PtpThreshold(ProfileOf(c), true);
      holdovers := holdovers + [HoldoverTimer(c, entry, close, Parked)];
    }

    /** What a port that becomes a slave, or any port under ts2phc, sets up. */
    method NoticePort(c: ConfigName, role: Role)
      requires Valid()
      modifies this`stats, this`objects, objects
      ensures Valid() && c in stats && fresh(objects - old(objects)) && Abs() == Notice(old(Abs()), c, role)
    {
      hide Abs, At, SetStat, Engine.CheckSource, Stats.View;
      SeenFields();
      CheckSource(c, ClockRealtime, Phc2sys);
      CheckSource(c, Master, offsetSource);
      SetRole(c, Master, stats[c][Master], role);
    }

    method SlaveLost(c: ConfigName, role: Role, fault: bool)
      requires Valid() && c in stats
      modifies this, objects
      ensures Valid() && objects == old(objects) && Abs() == Fault(old(Abs()), c, role, fault)
    {
      hide Abs, At, Has, SetStat, Engine.Announce, Store, StartHoldover, Stats.View;
      SeenFields();
      Seen(c, Master);
      Configured(c);
      if Master !in stats[c] {
        return;
      }
      var st := stats[c][Master];
      st.Shows();
      if ConfigFor(c).ptype == Tbc {
        if role == Faulty && st.alias != "" {
          SetLastSyncState(c, Master, st, FreeRun);
        }
        return;
      }
      if fault && st.lastSyncState != Holdover {
        SetRole(c, Master, st, Faulty);
        EnterHoldover(c, st);
      }
    }

    /** Only the process that leads the master puts it in holdover. */
    method EnterHoldover(c: ConfigName, st: Stats)
      requires Valid() && Holds(c, Master, st)
      modifies this, st
      ensures Valid() && objects == old(objects)
      ensures
        var f := old(Abs());
        var was := At(f, c, Master);
        Abs() == if was.process != f.offsetSource then f
                 else StartHoldover(Engine.Announce(f, c, Master, Holdover, was.lastOffset, PtpState, true), c)
    {
      hide Abs, At, Engine.Announce, StartHoldover, Stats.View;
      SeenFields();
      Seen(c, Master);
      st.Shows();
      if st.process == offsetSource {
        Announce(c, Master, st, Holdover, st.lastOffset, PtpState);
        StartHoldoverTimer(c);
      }
    }

    /** The port part of ParsePTP4l. */
    method ParsePort(c: ConfigName, portID: nat, role: Role, fault: bool)
      requires Valid() && c in stats
      modifies this, objects
      ensures Valid() && fresh(objects - old(objects)) && Abs() == PortLine(old(Abs()), c, portID, role, fault)
    {
      hide Abs, Notice, Fault, Engine.SetRole, PortIndex;
      SeenFields();
      Configured(c);
      if portID == 0 || role == UnknownRole {
        return;
      }
      var i := ByPortID(c, portID);
      if i < 0 {
        return;
      }
      var lastRole := ConfigFor(c).ports[i].role;
      if role == Slave || offsetSource == Ts2phc {
        NoticePort(c, role);
      }
      if lastRole != role {
        if portID > |ConfigFor(c).ports| {
          return;
        }
        UpdateRole(c, portID - 1, role);
      }
      if lastRole == Slave {
        SlaveLost(c, role, fault);
      }
    }

    /** handleHoldOverState wakes up because its time has passed; a closed channel would have
        woken it first. */
    method HoldoverExpires(i: nat)
      requires Valid() && i < |holdovers| && holdovers[i].status == Parked && holdovers[i].chan !in closed
      modifies this`holdovers
      ensures Valid() && Abs() == HoldoverFires(old(Abs()), i)
    {
      hide AbsStats;
      holdovers := holdovers[i := holdovers[i].(status := Expiring)];
    }

    /** The rest of handleHoldOverState. */
    method HandleHoldOverState(i: nat)
      requires Valid() && i < |holdovers| && holdovers[i].status == Expiring
      modifies this, objects
      ensures Valid() && objects == old(objects) && Abs() == HoldoverRuns(old(Abs()), i)
    {
      hide Abs, At, Has, Stats.View, Engine.Announce, StatsOf;
      SeenFields();
      var c := holdovers[i].config;
      HoldoverOver(i);
      GetStats(c);
      Seen(c, Master);
      Absent(Abs(), c, Master);
      if Master !in stats[c] {
        return;
      }
      var mStats := stats[c][Master];
      mStats.Shows();
      if mStats.lastSyncState != Holdover {
        return;
      }
      if mStats.alias == "" {
        return;
      }
      NoteExpired(c);
      Announce(c, Master, mStats, FreeRun, mStats.lastOffset, PtpState);
    }

    /** The goroutine is past its select. */
    method HoldoverOver(i: nat)
      requires Valid() && i < |holdovers|
      modifies this`holdovers
      ensures Valid() && Abs() == SetHoldover(old(Abs()), i, Over)
    {
      hide AbsStats;
      holdovers := holdovers[i := holdovers[i].(status := Over)];
    }

    ghost method NoteExpired(c: ConfigName)
      requires Valid()
      modifies this`trace
      ensures Valid() && Abs() == old(Abs()).(trace := old(Abs()).trace + [Expired(c)])
    {
      hide AbsStats;
      trace := trace + [Expired(c)];
    }

    // ----- One line

    method GetStats(c: ConfigName)
      requires Valid()
      modifies this`stats
      ensures Valid() && c in stats
      ensures Abs() == old(Abs()).(stats := old(Abs()).stats[c := StatsOf(old(Abs()).stats, c)])
    {
      hide Stats.View, AbsStats, Owns;
      NoneChanged();
      SeenConfigs();
      if c !in stats {
        ghost var before, was := stats, AbsStats();
        stats := stats[c := map[]];
        NewConfig(before, was, c);
      }
    }

    lemma SeenConfigs()
      requires Valid()
      ensures AbsStats().Keys == stats.Keys
    {
    }

    lemma NewConfig(before: Objects, was: StatsMap, c: ConfigName)
      requires c !in before && stats == before[c := map[]] && this !in objects
      requires forall d, j :: d in before && j in before[d] ==> Owns(before[d][j], d, j)
      requires forall d :: d in before <==> d in was
      requires forall d, j :: d in before && j in before[d] <==> d in was && j in was[d]
      requires forall d, j :: d in before && j in before[d] ==> before[d][j].View() == was[d][j]
      ensures Valid() && AbsStats() == was[c := map[]]
    {
      hide Stats.View, Owns;
      assert forall d, j :: InUse(d, j) <==> d in before && j in before[d];
      forall d | d in stats ensures AbsStats()[d] == was[c := map[]][d] {
        forall j ensures j in stats[d] <==> j in was[c := map[]][d] {
          assert InUse(d, j) <==> d in was && j in was[d];
        }
        forall j | j in stats[d] ensures AbsStats()[d][j] == was[d][j] {
          assert InUse(d, j);
        }
      }
    }

    predicate ValidLogToProcess(c: ConfigName, log: LogLine)
      reads this`configs
    {
      var cfg := ConfigFor(c);
      log.SynceLog? || (cfg.profile != "" && (cfg.ports != [] || cfg.ha || log.ChronydStatus?))
    }

    /** A log line. */
    method ExtractMetrics(c: ConfigName, log: LogLine)
      requires Valid()
      modifies this, objects
      ensures Valid() && fresh(objects - old(objects)) && Abs() == Engine.ExtractMetrics(old(Abs()), c, log)
    {
      hide Abs, At, Has, Dispatch, Stats.View;
      GetStats(c);
      Configured(c);
      if log.ProcessStatus? {
        Process(c, log);
        return;
      }
      if !ValidLogToProcess(c, log) {
        return;
      }
      NoteSource(c);
      Process(c, log);
    }

    /** The master's process becomes the source of offsets. */
    method NoteSource(c: ConfigName)
      requires Valid() && c in stats
      modifies this`offsetSource
      ensures Valid()
      ensures var n := old(Abs());
        Abs() == if Has(n, c, Master) then n.(offsetSource := At(n, c, Master).process) else n
    {
      hide AbsStats, At, Has, Stats.View;
      Seen(c, Master);
      if Master in stats[c] {
        stats[c][Master].Shows();
        offsetSource := stats[c][Master].process;
      }
    }

    method Process(c: ConfigName, log: LogLine)
      requires Valid() && c in stats
      modifies this, objects
      ensures Valid() && fresh(objects - old(objects)) && Abs() == Dispatch(old(Abs()), c, log)
    {
      hide Abs, ProcessDown, ClockStatus, ChronydLine, Selection, OffsetSample, PortLine, DeviceLine, ClassLine,
        SummaryLine, Engine.CheckSource;
      match log
      case ProcessStatus(process, up) =>
        if !up {
          ProcessDownEvent(c, process);
        }
      case GmStatus(iface, state, offset) => ReportStatus(c, GmClock, iface, state, offset);
      case TbcStatus(iface, state, offset) => ReportStatus(c, TbcClock, iface, state, offset);
      case ChronydStatus(selected) => ReportChronyd(c, selected);
      case Phc2sysLog(line) =>
        var handled := HandlePhc2sysSyncDirection(c, line);
        if !handled && line.hasOffset && line.sample.Some? {
          ReportOffset(c, Phc2sys, line.sample.value);
        }
      case OffsetLog(source, sample) => ReportOffset(c, source, sample);
      case PortLog(id, role, fault) => ParsePort(c, id, role, fault);
      case DeviceLog(iface, readable) => NoteDevice(c, iface, readable);
      case SynceLog(device) => CheckSource(c, Port(device), Other("synce4l"));
      case ClassLog => NoteClass(c);
      case SummaryLog(source, clock) => NoteSummary(c, source, clock);
    }

    // ----- Lines that set up stats

    /** ParseDPLLLogs and ParseGNSSLogs. */
    method NoteDevice(c: ConfigName, iface: string, readable: bool)
      requires Valid()
      modifies this, objects
      ensures Valid() && fresh(objects - old(objects)) && Abs() == DeviceLine(old(Abs()), c, iface, readable)
    {
      hide Abs, At, SetStat, Engine.CheckSource, Stats.View;
      SeenFields();
      CheckSource(c, Port(iface), Ts2phc);
      if readable {
        SetAlias(c, Port(iface), stats[c][Port(iface)], aliases(Port(iface)));
      }
    }

    /** The clock class part of ParsePTP4l. */
    method NoteClass(c: ConfigName)
      requires Valid() && c in stats
      modifies this, objects
      ensures Valid() && fresh(objects - old(objects)) && Abs() == ClassLine(old(Abs()), c)
    {
      hide Abs, Engine.CheckSource, Stats.View;
      SeenConfig(c);
      CheckSource(c, MainClock(stats[c].Keys), Ptp4l);
    }

    /** The " max " branch of ExtractMetrics. Without master stats it panics. */
    method NoteSummary(c: ConfigName, source: Process, clock: Summary)
      requires Valid() && c in stats
      modifies this, objects
      ensures Valid() && objects == old(objects) && Abs() == SummaryLine(old(Abs()), c, source, clock)
    {
      hide Abs, At, Has, SetStat, SlaveName, Stats.View;
      SeenFields();
      Seen(c, Master);
      match clock
      case RealtimeSummary =>
      case MasterSummary =>
        var slave := BySlave(c);
        if slave != "" && Master in stats[c] {
          SetAlias(c, Master, stats[c][Master], aliases(Port(slave)));
        }
      case OtherSummary =>
        if source == Ts2phc && Master in stats[c] {
          SetAlias(c, Master, stats[c][Master], aliases(Port("")));
        }
    }

    // ----- Runs

    /** One input, if its turn has come: a log line, or half a timer. */
    method Step(input: Input)
      requires Valid()
      modifies this, objects
      ensures Valid() && fresh(objects - old(objects)) && Abs() == Engine.Step(old(Abs()), input)
    {
      hide Abs, At, Has, Engine.ExtractMetrics, Settle, Engine.OnOsClock, HoldoverRuns, SetHoldover, Stats.View;
      SeenFields();
      match input
      case Line(c, log) => ExtractMetrics(c, log);
      case HoldoverFire(i) =>
        SeenChannels();
        if i < |holdovers| && holdovers[i].status == Parked && holdovers[i].chan !in closed {
          HoldoverExpires(i);
        }
      case HoldoverRun(i) =>
        NotExpiring(Abs(), i);
        if i < |holdovers| && holdovers[i].status == Expiring {
          HandleHoldOverState(i);
        }
      case SettleFire(c, t) =>
        Seen(c, ClockRealtime);
        if c in stats && ClockRealtime in stats[c] {
          SettleFires(c, stats[c][ClockRealtime], t);
        }
      case SettleRun(c, t) =>
        Seen(c, ClockRealtime);
        if c in stats && ClockRealtime in stats[c] {
          var os := stats[c][ClockRealtime].osClock;
          stats[c][ClockRealtime].Shows();
          if t < |os.timers| && os.timers[t].status == InFlight {
            OnSettle(c, os.timers[t].generation, t);
          }
        }
    }

    lemma SeenChannels()
      requires Valid()
      ensures Abs().closed == closed
    {
    }

    lemma NotExpiring(n: Node, i: nat)
      ensures i >= |n.holdovers| || n.holdovers[i].status != Expiring ==> HoldoverRuns(n, i) == n
    {
    }

    /** A started program on any inputs goes through a run, and is where the run ends. */
    method Drive(inputs: seq<Input>) returns (ghost r: Run)
      requires Valid() && Init(Abs())
      modifies this, objects
      ensures Valid() && fresh(objects - old(objects))
      ensures IsRun(r) && r.states[0] == old(Abs()) && r.inputs == inputs && End(r) == Abs()
    {
      hide Abs, Init, Engine.Step;
      r := Run([Abs()], []);
      for i := 0 to |inputs|
        invariant Valid() && fresh(objects - old(objects))
        invariant IsRun(r) && r.states[0] == old(Abs()) && r.inputs == inputs[..i] && End(r) == Abs()
      {
        Step(inputs[i]);
        OneStepMore(r, inputs[i], Abs());
        assert inputs[..i + 1] == inputs[..i] + [inputs[i]];
        r := Run(r.states + [Abs()], r.inputs + [inputs[i]]);
      }
      assert inputs[..|inputs|] == inputs;
    }

    // ----- A started program

    /** NewPTPEventManager, with what the program learns of its node. */
    constructor (configs: map<ConfigName, Config>, tbcProfiles: set<Profile>, opts: map<Profile, Opts>,
                 aliases: IFace -> string, order: nat -> Profile, saved: SyncState)
      ensures Valid() && fresh(objects) && Init(Abs()) && Abs().lastOverall == saved
      ensures this.order == order && this.aliases == aliases && thresholds == map[]
    {
      this.configs, this.tbcProfiles, this.opts, this.aliases, this.order := configs, tbcProfiles, opts, aliases, order;
      stats, thresholds, lookups, closed, nextChan, holdovers := map[], map[], 0, {}, 0, [];
      offsetSource, lastOverallGMState, lastOverallSyncState, trace, objects := NoProcess, Unset, saved, [], {};
    }

    /** Each profile, the last of a name counting, gets an entry with a channel of its own. */
    method UpdatePTPThreshold(profiles: seq<NodeProfile>)
      requires Valid() && Init(Abs()) && thresholds == map[]
      requires profiles != [] ==> forall i :: Named(profiles, order(i))
      modifies this`thresholds, this`nextChan
      ensures Valid() && Init(Abs()) && ThresholdsOf(profiles, thresholds, nextChan)
    {
      hide AbsStats, ThresholdsOf;
      var i := 0;
      var holdOverTh: Int64, maxOffsetTh: Int64, minOffsetTh: Int64 := 0, 0, 0;
      NoThresholds(nextChan);
      while i < |profiles|
        invariant 0 <= i <= |profiles| && Valid()
        invariant Abs() == old(Abs()).(thresholds := thresholds, nextChan := nextChan)
        invariant ThresholdsOf(profiles[..i], thresholds, nextChan)
        invariant minOffsetTh == MinAfter(profiles[..i])
      {
        var profile := profiles[i];
        holdOverTh, maxOffsetTh := DEFAULT_HOLDOVER_TIMEOUT, DEFAULT_MAX_OFFSET;
        if profile.threshold.Some? {
          if profile.threshold.value.max > 0 {
            maxOffsetTh := profile.threshold.value.max;
          }
          if profile.threshold.value.min > maxOffsetTh {
            minOffsetTh := maxOffsetTh - 1;
          } else {
            minOffsetTh := profile.threshold.value.min;
          }
          if profile.threshold.value.holdOverTimeout > 0 {
            holdOverTh := profile.threshold.value.holdOverTimeout;
          }
        } else if profile.ntpFailover {
          maxOffsetTh := 1000;
        }
        OneMoreThreshold(profiles[..i], profile, thresholds, nextChan);
        assert profiles[..i + 1] == profiles[..i] + [profile] && profiles[..i + 1][..i] == profiles[..i];
        thresholds := thresholds[profile.name := Threshold(holdOverTh, maxOffsetTh, minOffsetTh, nextChan)];
        nextChan := nextChan + 1;
        i := i + 1;
      }
      assert profiles[..i] == profiles;
      ThresholdsStart(profiles, thresholds, nextChan, order);
    }
  }

  type Objects = map<ConfigName, map<IFace, Stats>>

  function With(before: Objects, c: ConfigName, k: IFace, s: Stats): (after: Objects)
    ensures forall d :: d in after <==> d in before || d == c
    ensures forall d, j :: (d in after && j in after[d]) <==> (d in before && j in before[d]) || (d == c && j == k)
    ensures forall d, j :: d in before && j in before[d] && (d != c || j != k) ==> after[d][j] == before[d][j]
    ensures after[c][k] == s
  {
    var ofConfig: map<IFace, Stats> := if c in before then before[c] else map[];
    before[c := ofConfig[k := s]]
  }
}
