/** The objects that log lines and timers update in place: a clock's OsClockDiscipline and Stats. */
module PtpStats {
  import opened SyncStates
  import opened Int64s
  import opened Options
  import opened OsClock
  import opened Engine
  import Statistics

  /** The discipline machine. `settle` is the number of the settle timer it holds; `timers` are its
      timers in the Go runtime, each with the count of windows `begun` before it; it belongs to the
      clock of this key. Every method holds the mutex from start to end. */
  class OsClockDiscipline {
    ghost const configName: ConfigName
    ghost const key: IFace
    var phase: Phase
    var settle: Option<nat>
    var selectGen: nat
    var begun: nat
    var timers: seq<Timer>
    ghost var log: seq<Op>

    ghost predicate Valid()
      reads this
    {
      begun == Begins(log)
    }

    ghost function View(): (d: Discipline)
      reads this
    {
      Discipline(phase, settle, selectGen, timers, log)
    }

    constructor (ghost configName: ConfigName, ghost key: IFace)
      ensures Valid() && View() == FRESH && this.configName == configName && this.key == key
    {
      this.configName, this.key := configName, key;
      phase, settle, selectGen, begun, timers, log := Idle, None, 0, 0, [], [];
    }

    method IsWindowOpen() returns (open: bool)
      ensures open == WindowOpen(View())
    {
      open := phase == Selecting || phase == SourceSelected;
    }

    method Begin()
      requires Valid()
      modifies this
      ensures Valid() && View() == Apply(old(View()), Op.Begin)
    {
      hide Begins, SetStatus;
      StopSettleLocked();
      selectGen := (selectGen + 1) % TWO64;
      phase := Selecting;
      begun := begun + 1;
      BeginsSnoc(log, Op.Begin);
      log := log + [Op.Begin];
    }

    method Abort()
      requires Valid()
      modifies this
      ensures Valid() && View() == Apply(old(View()), Op.Abort)
    {
      hide Begins, SetStatus;
      StopSettleLocked();
      if phase == Selecting || phase == SourceSelected {
        phase := Idle;
      }
      BeginsSnoc(log, Op.Abort);
      log := log + [Op.Abort];
    }

    method SourceClockSelected()
      requires Valid()
      modifies this
      ensures Valid() && View() == Apply(old(View()), SourceClock)
    {
      hide Begins, SetStatus;
      if phase == Selecting || phase == SourceSelected {
        phase := SourceSelected;
        ArmSettleLocked();
      }
      BeginsSnoc(log, SourceClock);
      log := log + [SourceClock];
    }

    method SinkClockSelected()
      requires Valid()
      modifies this
      ensures Valid() && View() == Apply(old(View()), SinkClock)
    {
      hide Begins, SetStatus;
      StopSettleLocked();
      phase := Idle;
      BeginsSnoc(log, SinkClock);
      log := log + [SinkClock];
    }

    method ReArmSettle()
      requires Valid()
      modifies this
      ensures Valid() && View() == Apply(old(View()), ReArm)
    {
      hide Begins, SetStatus;
      if phase == SourceSelected {
        ArmSettleLocked();
      }
      BeginsSnoc(log, ReArm);
      log := log + [ReArm];
    }

    method Finalise() returns (activate: bool)
      requires Valid()
      modifies this
      ensures Valid() && View() == Apply(old(View()), Op.Finalise)
      ensures activate == Activates(old(View()), Op.Finalise)
    {
      hide Begins, SetStatus;
      activate := FinaliseLocked();
      BeginsSnoc(log, Op.Finalise);
      log := log + [Op.Finalise];
    }

    /** The callback of a timer that went off, with the generation it captured. */
    method FinaliseIfGeneration(generation: nat, timer: nat) returns (activate: bool)
      requires Valid() && timer < |timers|
      requires timers[timer].status == InFlight && timers[timer].generation == generation
      modifies this
      ensures Valid() && View() == Apply(old(View()), Callback(timer))
      ensures activate == Activates(old(View()), Callback(timer))
    {
      hide Begins, SetStatus;
      timers := SetStatus(timers, timer, InFlight, Done);
      if selectGen != generation {
        activate := false;
      } else {
        activate := FinaliseLocked();
      }
      BeginsSnoc(log, Callback(timer));
      log := log + [Callback(timer)];
    }

    method ClearOnRealtimeOffset()
      requires Valid()
      modifies this
      ensures Valid() && View() == Apply(old(View()), Op.ClearOnRealtimeOffset)
    {
      hide Begins, SetStatus;
      StopSettleLocked();
      phase := Idle;
      BeginsSnoc(log, Op.ClearOnRealtimeOffset);
      log := log + [Op.ClearOnRealtimeOffset];
    }

    method Reset()
      requires Valid()
      modifies this
      ensures Valid() && View() == Apply(old(View()), Op.Reset)
    {
      hide Begins, SetStatus;
      StopSettleLocked();
      phase := Idle;
      BeginsSnoc(log, Op.Reset);
      log := log + [Op.Reset];
    }

    method StopSettleLocked()
      requires Valid()
      modifies this
      ensures Valid() && View() == StopSettle(old(View()))
    {
      if settle.Some? {
        timers := SetStatus(timers, settle.value, Armed, Stopped);
        settle := None;
      }
    }

    method ArmSettleLocked()
      requires Valid()
      modifies this
      ensures Valid() && View() == ArmSettle(old(View()))
    {
      StopSettleLocked();
      settle := Some(|timers|);
      timers := timers + [Timer(selectGen, begun, Armed)];
    }

    method FinaliseLocked() returns (activate: bool)
      requires Valid()
      modifies this
      ensures Valid() && View() == OsClock.FinaliseLocked(old(View()))
      ensures activate <==> old(phase) == SourceSelected
    {
      StopSettleLocked();
      if phase != Selecting && phase != SourceSelected {
        return false;
      }
      activate := phase == SourceSelected;
      if activate {
        phase := Undisciplined;
      } else {
        phase := Idle;
      }
    }

    method Call(op: Op) returns (activate: bool)
      requires Valid() && !op.Fire? && !op.Callback?
      modifies this
      ensures Valid() && View() == Apply(old(View()), op)
      ensures activate == Activates(old(View()), op)
    {
      hide Effect;
      activate := false;
      match op
      case Begin => this.Begin();
      case Abort => this.Abort();
      case SourceClock => SourceClockSelected();
      case ReArm => ReArmSettle();
      case SinkClock => SinkClockSelected();
      case Finalise => activate := this.Finalise();
      case ClearOnRealtimeOffset => this.ClearOnRealtimeOffset();
      case Reset => this.Reset();
    }

    /** The clock of a timer runs out, if nobody stopped it first. */
    method TimerFires(timer: nat)
      requires Valid()
      modifies this`timers, this`log
      ensures Valid() && View() == Apply(old(View()), Fire(timer))
    {
      hide Begins, SetStatus;
      timers := SetStatus(timers, timer, Armed, InFlight);
      BeginsSnoc(log, Fire(timer));
      log := log + [Fire(timer)];
    }
  }

  /** A clock, with the key it is stored under. */
  class Stats {
    const configName: ConfigName
    ghost const key: IFace
    var process: Process
    var role: Role
    var alias: string
    var lastOffset: Int64
    var lastSyncState: SyncState
    var num: nat
    var max: Int64
    var min: Int64
    var mean: Int64
    var sumSqr: Int64
    var sumDiffSqr: Int64
    const osClock: OsClockDiscipline

    ghost predicate Valid()
      reads osClock
    {
      osClock.Valid() && osClock.configName == configName && osClock.key == key
    }

    ghost function Counters(): (r: Statistics.Accum)
      reads this
    {
      Statistics.Accum(num, max, min, mean, sumSqr, sumDiffSqr)
    }

    ghost function View(): (st: Stat)
      reads this, osClock
    {
      Stat(process, role, alias, lastOffset, lastSyncState, Counters(), osClock.View())
    }

    lemma Shows()
      ensures var st := View();
        && st.process == process && st.role == role && st.alias == alias && st.lastOffset == lastOffset
        && st.state == lastSyncState && st.os == osClock.View()
    {
    }

    constructor (configName: ConfigName, ghost key: IFace, process: Process)
      ensures Valid() && View() == NewStat(process) && fresh(osClock)
      ensures this.configName == configName && this.key == key
    {
      this.configName, this.key := configName, key;
      this.process, role, alias, lastOffset, lastSyncState := process, Passive, "", 0, Unset;
      num, max, min, mean, sumSqr, sumDiffSqr := 0, 0, 0, 0, 0, 0;
      osClock := new OsClockDiscipline(configName, key);
    }

    method SetProcessName(process: Process)
      modifies this
      ensures View() == old(View()).(process := process)
    {
      this.process := process;
    }

    method SetRole(role: Role)
      modifies this
      ensures View() == old(View()).(role := role)
    {
      this.role := role;
    }

    method SetAlias(alias: string)
      modifies this
      ensures View() == old(View()).(alias := alias)
    {
      this.alias := alias;
    }

    method SetLastOffset(offset: Int64)
      modifies this
      ensures View() == old(View()).(lastOffset := offset)
    {
      lastOffset := offset;
    }

    method SetLastSyncState(state: SyncState)
      modifies this
      ensures View() == old(View()).(state := state)
    {
      lastSyncState := state;
    }

    /** What the death of ts2phc leaves of an interface. */
    method Fall(offset: Int64, alias: string)
      modifies this
      ensures View() == old(View()).(lastOffset := offset, state := FreeRun, alias := alias)
    {
      SetLastOffset(offset);
      SetLastSyncState(FreeRun);
      SetAlias(alias);
    }

    method AddValue(val: Int64)
      modifies this
      ensures Counters() == Statistics.Add64(old(Counters()), val)
      ensures View() == old(View()).(acc := Statistics.Add64(old(View()).acc, val))
    {
      hide Plus, Minus, Times, Div;
      var oldMean := mean;
      if max < val {
        max := val;
      }
      if num == 0 || min > val {
        min := val;
      }
      num := num + 1;
      mean := Plus(oldMean, Div(Minus(val, oldMean), num));
      sumSqr := Plus(sumSqr, Times(val, val));
      sumDiffSqr := Plus(sumDiffSqr, Times(Minus(val, oldMean), Minus(val, mean)));
    }

    method MaxAbs() returns (r: Int64)
      ensures r == Statistics.MaxAbs(Counters())
    {
      r := if max > min then max else min;
    }

    /** reset, which keeps the state. */
    method Reset()
      requires Valid()
      modifies this, osClock
      ensures Valid()
      ensures View() == Stat(NoProcess, UnknownRole, "", 0, old(lastSyncState), Statistics.ZERO,
                             Apply(old(osClock.View()), Op.Reset))
    {
      hide Apply;
      ResetFields();
      osClock.Reset();
    }

    method ResetFields()
      modifies this
      ensures View() == Stat(NoProcess, UnknownRole, "", 0, old(lastSyncState), Statistics.ZERO, osClock.View())
      ensures lastSyncState == old(lastSyncState)
    {
      process, role, alias, lastOffset := NoProcess, UnknownRole, "", 0;
      num, max, min, mean, sumSqr, sumDiffSqr := 0, 0, 0, 0, 0, 0;
    }
  }
}
