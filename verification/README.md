# The clock-state engine of the PTP operator plugin

The plugin reads the logs of ptp4l, phc2sys, ts2phc, chronyd and the status daemons of one node and
publishes cloud events about three states: the network clock (E1, `PtpStateChange`), the clock of
the operating system (E3, `OsClockSyncStateChange`) and the node as a whole (`SyncStateChange`).
Log lines are handled one at a time; holdover timers and the settle timer of the selection window
run on goroutines of their own, and Go maps are walked in no particular order. This project models
that engine and proves what its comments promise for every run of it.

How the files fit together:

- `SyncStates`, `Int64s`, `Options`, `Sequences`: states and their join, Go's int64, optional values, searching.
- `OsClock`: the discipline machine of CLOCK_REALTIME as calls that interleave freely, each half of a
  timer going off among them.
- `Statistics`: the running offset statistics, on integers and as int64 computes them.
- `Engine`: what one log line or timer does to the stored states, the channels of the thresholds, the
  cached node state, and a trace of stored states and published events. A `Run` is a sequence of such states
  from a started program, with any inputs between them.
- `Thresholds`: what the profiles of a node make of its thresholds at start.
- `EventTrace`, `Channels`: readings of a trace; the close channels of the thresholds and what closes them.
- `Invariant`, `Steps`: the invariant, and that every step keeps it.
- `Elsewhere`: which inputs touch which clock, and that all others leave it alone.
- `Theorems`, `Agreement`, `Samples`: what follows for whole runs, for the cache, for single reports.
- `E3Clock`, `E3Table`, `Selections`: E3 in runs. The deaths that end in FREERUN, Table 37 of the O-RAN notification
  API and chronyd, and the selection lines of phc2sys with the window from end to end.
- `E1Clock`, `PortLines`: E1 in runs. The offsets and the death of their process; the lines about ports.
- `StatusClocks`, `SetUps`, `NodeStatus`: the grandmaster and the T-BC clock, their status lines and the deaths in
  between; lines that only set up stats; the offset and the state of the node that an event brings with it.
- `Holdovers`, `HoldoverEnds`, `FaultRuns`: the timers of masters in holdover, what ends a holdover, and two runs
  in which nothing does.
- `Aggregation`: the two computations of the node state compared.
- `PtpStats`, `EventSwitch`, `EventManager`: the objects. Every method of `PTPEventManager` is proved to
  change the value the objects stand for (`Abs`) as the functions of `Engine` say, and `Drive` puts them together:
  an object that handles any inputs goes through a run of `Engine`, which the theorems are about.
- `Gate`, `IniSections`, `SyncELog`, `DependentState`: the blocking gate, the configuration sections,
  the SyncE log line, the states of dependent clocks.

Assumptions of the engine: a log line, a settle callback and the body of an expired holdover timer are
each one step (the first two share a mutex, the third does not); a timer that fired may run its body at
any later step; a callback that fired before `Stop` is still in flight. Thresholds stay loaded during a run.
Which entry an unsorted threshold lookup yields, and what the alias service answers, are arbitrary.

Results that contradict a comment or an expectation, each with the exact condition:

- The repeated `GenPTPEvent` calls of one sample equal one call exactly when the report is none of a lock or both
  threshold lookups judge the offset alike; a profile without its own entry can lock and fall on one sample
  (`Samples.SecondCallRepeats`, `Samples.BorrowedEntriesFlap`).
- A holdover is to end by a lock or by its timer. When the clock of the timer that a fault started runs out and its
  body runs, that ends the holdover exactly if nothing cancelled the timer before its clock ran out, the master is
  still in holdover and the name that an offset or summary line gave it last is not empty
  (`HoldoverEnds.FaultEndsByTimer`). Cancelled it is
  exactly if a clock of any config with the same profile locked out of a holdover or another such config faulted
  (`Holdovers.OpenUnlessCancelled`); so two faults on one entry leave the earlier master without a timer
  (`Holdovers.FaultElsewhereCancels`, `FaultRuns.TwoFaultsOnOneProfile`), and so does a lock report of chronyd exactly
  when CLOCK_REALTIME was itself in holdover (`Samples.ChronydStopsMasterTimer`). A master without a name outlives its
  timer (`FaultRuns.NamelessHoldover`), and a holdover that a sample reports has none
  (`HoldoverEnds.TimersComeFromFaults`, `HoldoverEnds.SampleHoldover`). Until an offset of the master, the death of its
  process or such a timer comes, a master outside T-BC stays in holdover (`HoldoverEnds.HoldoverStays`).
- A fault that is to put the master in holdover starts no timer where the process of the master does not lead. That
  branch is never taken: a handled line makes that process lead first (`PortLines.PortLineMoves`,
  `E1Clock.LeaderMoves`).
- The statistics of a master outside T-BC take in each offset once more than its report does, so most offsets
  count twice; those of CLOCK_REALTIME count twice under ts2phc and beside a slave port (`E1Clock.OffsetMovesE1`,
  `E3Table.OffsetRecords`).
- A dead process takes E3 down only if phc2sys may steer the clock and chronyd may not. Without stats of the master
  the death of the leading process is not handled that far, and E3 stays as it is (`E3Clock.DeathMovesE3`).
- A grandmaster's FREERUN after LOCKED or HOLDOVER is lost exactly if ts2phc of its config died since: the death stores
  FREERUN without an event, the status line then says nothing new, and the override by which a grandmaster in FREERUN
  overrules other processes is not armed (`StatusClocks.GmFreeRunIsLost`, `StatusClocks.GmStateIsTheLastEvent`).
- The FREERUN that the death of ptp4l is to publish for a T-BC clock is published exactly when the clock was locked or
  unset, not out of a holdover; the next status line, whatever comes before it, is published exactly if it says LOCKED
  or HOLDOVER (`StatusClocks.TbcDeathPublishes`, `StatusClocks.TbcRecoveryPublishes`).
- A fall of the master from holdover by a sample leaves the cached node state behind exactly when that was not
  already FREERUN (`Agreement.FallLeavesCacheBehind`).
- The status handler and `GetNodeSyncState(LOCKED)` differ exactly by masters beside a GM clock that are worse
  (`Aggregation.PullAgainstNode`).
- The state of several dependent processes does not depend on the order of the map exactly unless one that is not
  locked is in holdover and another that is not locked is not (`DependentState.OrderFreeUnlessContested`).
- `isOffsetInRange` errs exactly at the smallest int64 (`Int64s.IsOffsetInRangeExactly`).
- The int64 statistics are those on integers exactly while the sum of squares and the spread stay below 2^63; any
  values with a `FreeRunOffsetValue` among them break that (`Statistics.OverflowsExactly`,
  `Statistics.FreeRunOffsetOverflows`), and one after a zero leaves a negative spread.
- A profile that sets no threshold takes over the deprecated minimum of the last profile that did, where a comment
  has it zero (`Thresholds.MinimumCarriesOver`).
- SyncE ranks a holdover above a freerun, where events rank it below (`SyncELog.DeviceAgainstWorst`).

## Model

| member | source | states |
|---|---|---|
| OsClock.ReplayOk | plugins/ptp_operator/stats/os_clock_discipline.go:57-166 | In every interleaving of calls and callbacks a settle timer is held exactly in phase SourceSelected, the held timer captured the generation in force, and no other timer is armed |
| OsClock.UndisciplinedNeedsSource | plugins/ptp_operator/stats/os_clock_discipline.go:57-166 | The clock becomes undisciplined only by a finalise or settle callback, in a window in which a source clock was selected and that no sink selection, abort, offset, reset or new window ended |
| OsClock.SourceWindowFinalises | plugins/ptp_operator/stats/os_clock_discipline.go:76-128 | The converse: such a window is reported as undisciplined by the next Finalise if and only if no callback of its own timers ran in it; callbacks of superseded windows may |
| OsClock.OncePerWindow | plugins/ptp_operator/stats/os_clock_discipline.go:111-128 | Between two reports of an undisciplined clock lies a Begin, so Finalise and FinaliseIfGeneration together report at most once per window |
| OsClock.CallbackOfCurrentWindowOnly | plugins/ptp_operator/stats/os_clock_discipline.go:119-128 | With fewer than 2^64 windows since its timer was armed, a callback decides the clock if and only if its window is the current one and awaits a decision |
| OsClock.AtMostOneArmed | plugins/ptp_operator/stats/os_clock_discipline.go:147-152 | At most one settle timer can still go off, and only in phase SourceSelected |
| PtpStats.OsClockDiscipline.Begin | plugins/ptp_operator/stats/os_clock_discipline.go:57-65 | The object moves as the machine does when a window opens |
| PtpStats.OsClockDiscipline.Abort | plugins/ptp_operator/stats/os_clock_discipline.go:67-75 | An open window ends as idle; every other phase stays |
| PtpStats.OsClockDiscipline.SourceClockSelected | plugins/ptp_operator/stats/os_clock_discipline.go:77-89 | In an open window the source is noted and one settle timer armed for the current generation; else nothing |
| PtpStats.OsClockDiscipline.SinkClockSelected | plugins/ptp_operator/stats/os_clock_discipline.go:91-97 | Window and undisciplined state are cleared |
| PtpStats.OsClockDiscipline.ReArmSettle | plugins/ptp_operator/stats/os_clock_discipline.go:99-109 | After a source selection the timer is replaced by a new one; else nothing |
| PtpStats.OsClockDiscipline.Finalise | plugins/ptp_operator/stats/os_clock_discipline.go:111-117 | The new state, and true exactly when the machine reports an undisciplined clock |
| PtpStats.OsClockDiscipline.FinaliseIfGeneration | plugins/ptp_operator/stats/os_clock_discipline.go:119-128 | The same for a callback in flight, decided by the generation it captured |
| PtpStats.OsClockDiscipline.ClearOnRealtimeOffset | plugins/ptp_operator/stats/os_clock_discipline.go:130-137 | Window and undisciplined state are cleared |
| PtpStats.Stats.AddValue | plugins/ptp_operator/stats/stats.go:72-84 | The six counters become the int64 sum the model defines, with every intermediate result wrapped, and nothing else changes |
| PtpStats.Stats.Reset | plugins/ptp_operator/stats/stats.go:153-170 | All is cleared but the sync state |
| Statistics.MeanDrift | plugins/ptp_operator/stats/stats.go:72-84 | After any values the sum is count times mean plus all truncated remainders, which lie within n(n-1)/2 of zero |
| Statistics.MeanDriftBound | plugins/ptp_operator/stats/stats.go:72-84 | The drift bound in closed form |
| Statistics.MeanDriftIsTight | plugins/ptp_operator/stats/stats.go:72-84 | The bound is reached for every n: on 0, 1, ..., n-1 the mean never leaves 0 |
| Statistics.Extremes | plugins/ptp_operator/stats/stats.go:72-100 | min is the least value, max the greatest of 0 and the values, min <= mean <= some value, and MaxAbs reports max |
| Statistics.SpreadNeverShrinks | plugins/ptp_operator/stats/stats.go:82-92 | sumDiffSqr never decreases, so StDev never takes the root of a negative number; sumSqr is the sum of squares |
| Statistics.SpreadIdentity | plugins/ptp_operator/stats/stats.go:82-83 | sumDiffSqr is the sum of squared distances to the current mean plus an error made only where the mean moved while truncation had lost something |
| Statistics.ExactRun | plugins/ptp_operator/stats/stats.go:72-84 | Where no division had a remainder, mean and spread are exact |
| Statistics.OnlySumsWrap | plugins/ptp_operator/stats/stats.go:72-84 | For values of magnitude below 2^62 the int64 counters are those on integers with sumSqr and sumDiffSqr reduced modulo 2^64 |
| Statistics.OverflowsExactly | plugins/ptp_operator/stats/stats.go:72-84 | For all values: the int64 counters are those on integers if and only if the sum of squares and the spread stay below 2^63 |
| Statistics.NoOverflow | plugins/ptp_operator/stats/stats.go:72-84 | A bound that is easy to check and enough: values of magnitude B with 4nB^2 < 2^63 give the same counters on int64 as on integers |
| Statistics.FreeRunOffsetOverflows | plugins/ptp_operator/metrics/metrics.go:46 | Any values with FreeRunOffsetValue among them leave other counters on int64 than on integers |
| Statistics.FreeRunOffsetSpoilsSpread | plugins/ptp_operator/metrics/metrics.go:46 | After one zero offset it leaves a negative sumDiffSqr, of which StDev takes the root |
| Int64s.WrapOfSum | plugins/ptp_operator/stats/stats.go:72-84 | A sum of wrapped int64 terms wraps to the same number however often it was wrapped in between |
| Int64s.IsOffsetInRangeExactly | plugins/ptp_operator/metrics/logparser.go:342-351 | isOffsetInRange is the mathematical comparison for every int64 but the smallest, and what it is there |
| SyncStates.OverallStateIsJoin | plugins/ptp_operator/metrics/manager.go:758-778 | OverallState is a commutative, associative, idempotent join with identity unset |
| SyncStates.OverallState | plugins/ptp_operator/metrics/manager.go:758-778 | It is the worse of the two states |
| Aggregation.PullAgainstNode | plugins/ptp_operator/ptp_operator_plugin.go:326-426 | A pulled state is never worse than GetNodeSyncState(LOCKED), and equal exactly when no master beside a GM clock is worse |
| Aggregation.PullWithoutState | plugins/ptp_operator/ptp_operator_plugin.go:425-443 | Without a known state the handler answers FREERUN, and what GetNodeSyncState(LOCKED) says then |
| Aggregation.PullIsNodeState | plugins/ptp_operator/ptp_operator_plugin.go:326-363 | The two agree where no config has a master beside a GM clock |
| Aggregation.NodeStateByKey | plugins/ptp_operator/metrics/manager.go:715-756 | The node state is the worst of the given state and of those that enter: each GM clock, a T-BC clock where there is no GM clock, a master unless a T-BC clock stands for its config, and CLOCK_REALTIME unless another config's chronyd reports it |
| Aggregation.PullStateByKey | plugins/ptp_operator/ptp_operator_plugin.go:326-443 | The pulled state is the worst known of the same without masters beside a GM clock, and FREERUN if none is known |
| EventManager.PTPEventManager.GetNodeSyncState | plugins/ptp_operator/metrics/manager.go:717-756 | Whatever the order of both map loops, the worst of the current state, FREERUN if none, and of the states that enter by key |
| EventManager.PTPEventManager.GetCurrentSyncState | plugins/ptp_operator/ptp_operator_plugin.go:326-426 | Whatever the order of both map loops, the worst known state that enters by key, or FREERUN |
| EventManager.PTPEventManager.ChronydActiveAsE3 | plugins/ptp_operator/metrics/manager.go:784-795 | True exactly when some config has a CLOCK_REALTIME of chronyd with a state |
| EventSwitch.GenByCase | plugins/ptp_operator/metrics/manager.go:428-533 | The nested switch does in every case what the rule of module Engine says: next state, what is news, what is recorded, when the channel closes |
| EventManager.PTPEventManager.GenPTPEvent | plugins/ptp_operator/metrics/manager.go:428-533 | The objects change as that rule says: states, offsets, statistics, channels, events, cached state |
| EventManager.PTPEventManager.PublishEvent | plugins/ptp_operator/metrics/manager.go:370-407 | One event, and a SyncStateChange exactly when the recomputed node state differs from the cached one, which it then is; that is the worst of the state of the event and of those that enter by key |
| EventManager.PTPEventManager.PtpThreshold | plugins/ptp_operator/metrics/manager.go:71-86 | The entry found, and on reset its old channel closed and a new one in force |
| EventManager.PTPEventManager.LookupEventThreshold | plugins/ptp_operator/config/config.go:250-260 | The profile's own entry, else the one the map yields, else none |
| EventManager.PTPEventManager.SafeClose | plugins/ptp_operator/config/config.go:139-155 | The channel is closed afterwards, and is never closed twice, which CloseChannel demands |
| EventManager.PTPEventManager.UpdatePTPThreshold | plugins/ptp_operator/config/config.go:295-343 | An entry per profile name with the bound, timeout and minimum that the last profile of that name settles on, and a channel of its own |
| Thresholds.SettledValues | plugins/ptp_operator/config/config.go:295-334 | The maximum, timeout and minimum that the last profile of a name gives its entry, case by case |
| Thresholds.MinimumCarriesOver | plugins/ptp_operator/config/config.go:295-325 | A profile without a threshold takes over the minimum of the last profile before it that has one |
| Thresholds.NoMinimum | plugins/ptp_operator/config/config.go:295-325 | It is zero, as the comment says, where no profile sets one |
| EventManager.PTPEventManager.HandlePhc2sysSyncDirection | plugins/ptp_operator/metrics/os_clock_discipline.go:55-124 | The state after a selection line, which Selections.LineMoves spells out by kind of line, and whether an offset line still goes to offset processing |
| EventManager.PTPEventManager.OnSettle | plugins/ptp_operator/metrics/os_clock_discipline.go:60-67 | A settle callback finalises the machine and publishes FREERUN exactly when it reports the clock undisciplined |
| EventManager.PTPEventManager.SettleFires | plugins/ptp_operator/stats/os_clock_discipline.go:84-88 | A settle timer that nobody stopped puts its callback in flight, which Stop no longer catches |
| EventManager.PTPEventManager.PublishOsClockFreerunUndisciplined | plugins/ptp_operator/metrics/os_clock_discipline.go:141-153 | FREERUN for CLOCK_REALTIME, unless it has no stats or chronyd is configured |
| EventManager.PTPEventManager.HandlePhc2sysOffsetSyncDirection | plugins/ptp_operator/metrics/os_clock_discipline.go:126-139 | A CLOCK_REALTIME offset of phc2sys clears the machine; no other offset touches it |
| EventManager.PTPEventManager.ReportOffset | plugins/ptp_operator/metrics/metrics.go:221-393 | The state after an offset line of any process and interface |
| EventManager.PTPEventManager.LookupE1 | plugins/ptp_operator/metrics/metrics.go:289-304 | The E1 state that bounds E3, by what is stored under which key, with the defaults of T-BC and T-GM |
| EventManager.PTPEventManager.ReportRealtime | plugins/ptp_operator/metrics/metrics.go:284-332 | The CLOCK_REALTIME case: E3 from servo and E1, the alias, and one or two reports |
| EventManager.PTPEventManager.ReportMaster | plugins/ptp_operator/metrics/metrics.go:333-356 | The master case: an event, under T-BC a stored state only, and the statistics |
| EventManager.PTPEventManager.BySlave | plugins/ptp_operator/ptp4lconf/ptp4lConfig.go:158-165 | The name of the port of least index in role SLAVE, and none where no port has it |
| EventManager.PTPEventManager.ReportInterface | plugins/ptp_operator/metrics/metrics.go:356-390 | The ts2phc case: an event, under T-BC a stored state that is in range if locked |
| EventManager.PTPEventManager.ReportStatus | plugins/ptp_operator/metrics/logparser.go:373-434 | A GM or T-BC status line: offset noted, a change of state stored and published, the GM state remembered |
| EventManager.PTPEventManager.AnnounceStatus | plugins/ptp_operator/metrics/logparser.go:436-528 | Nothing is published unless the state changed |
| EventManager.PTPEventManager.ReportChronyd | plugins/ptp_operator/metrics/metrics.go:168-180 | chronyd takes over CLOCK_REALTIME and reports LOCKED or FREERUN for it |
| EventManager.PTPEventManager.ProcessDownEvent | plugins/ptp_operator/metrics/metrics.go:420-466 | Which clocks fall to FREERUN when a process dies, in which order, and where it panics half done |
| EventManager.PTPEventManager.TbcDown | plugins/ptp_operator/metrics/metrics.go:441-451 | Without ptp4l the T-BC clock of a T-BC config is reported in FREERUN, if it has an alias |
| EventManager.PTPEventManager.MasterDown | plugins/ptp_operator/metrics/metrics.go:452-457 | The master of the process that died is reported in FREERUN, if it has an alias |
| EventManager.PTPEventManager.RealtimeDown | plugins/ptp_operator/metrics/metrics.go:458-464 | CLOCK_REALTIME is reported in FREERUN where it has stats, phc2sys is configured and chronyd is not; E3Clock.DeathMovesE3 says what that does to E3 |
| EventManager.PTPEventManager.SilenceInterfaces | plugins/ptp_operator/metrics/metrics.go:422-440 | Whatever the order of the map, every clock but two falls to FREERUN and no event says so |
| EventManager.PTPEventManager.ByPortID | plugins/ptp_operator/ptp4lconf/ptp4lConfig.go:210-217 | The first port with the identifier, or none |
| EventManager.PTPEventManager.ParsePort | plugins/ptp_operator/metrics/ptp4lParse.go:56-152 | The state after a port line: stats set up, role updated, holdover entered |
| EventManager.PTPEventManager.SlaveLost | plugins/ptp_operator/metrics/ptp4lParse.go:108-151 | What the loss of a slave port does: under T-BC a silent FREERUN, else a holdover with its timer, once |
| EventManager.PTPEventManager.StartHoldoverTimer | plugins/ptp_operator/metrics/ptp4lParse.go:155-169 | Earlier timers of the entry are cancelled and one is started on the new channel |
| EventManager.PTPEventManager.HoldoverExpires | plugins/ptp_operator/metrics/ptp4lParse.go:171-184 | A timer whose channel is open may pass its clock; a cancelled one may not |
| EventManager.PTPEventManager.HandleHoldOverState | plugins/ptp_operator/metrics/ptp4lParse.go:185-208 | The expired timer publishes FREERUN if the master is still in holdover and has an alias, and else does nothing |
| EventManager.PTPEventManager.CheckSource | plugins/ptp_operator/stats/stats.go:393-398 | A missing clock is added with a fresh object, a known one is left alone |
| EventManager.PTPEventManager.NoteDevice | plugins/ptp_operator/metrics/logparser.go:532-672 | A DPLL or GNSS line gives its interface stats, and an alias if it can be read |
| EventManager.PTPEventManager.NoteClass | plugins/ptp_operator/metrics/ptp4lParse.go:27-55 | A clock class change gives the main clock stats |
| EventManager.PTPEventManager.NoteSummary | plugins/ptp_operator/metrics/metrics.go:181-203 | A summary line names the master after its slave port, under ts2phc after nothing; without master stats it panics |
| EventManager.PTPEventManager.ExtractMetrics | plugins/ptp_operator/metrics/metrics.go:94-395 | The state after a log line of any kind: the step that the theorems are about |
| EventManager.PTPEventManager.Process | plugins/ptp_operator/metrics/metrics.go:157-395 | Which handler a line goes to, and when a selection line goes on to the offset handler |
| EventManager.PTPEventManager.Step | plugins/ptp_operator/metrics/metrics.go:94-395 | One input of any kind, a line or half a timer, moves the object as the engine says |
| EventManager.PTPEventManager.Drive | plugins/ptp_operator/metrics/metrics.go:94-395 | An object that starts and handles any inputs goes through a run of the engine and stands for the state the run ends in |
| Engine.EveryInputRuns | plugins/ptp_operator/metrics/metrics.go:94-395 | A started program has a run on whatever inputs: the theorems below are about all of them |
| Steps.RunKeeps | plugins/ptp_operator/metrics/metrics.go:94-395 | In every run from a started node, with any lines and timers interleaved, the invariant holds: trace, channels, ranges, discipline |
| Theorems.E3EventsAreTheChanges | plugins/ptp_operator/metrics/manager.go:428-533 | The E3 events of a config are exactly the states stored for its CLOCK_REALTIME with consecutive repeats removed |
| Theorems.UndisciplinedMeansFreeRun | plugins/ptp_operator/metrics/os_clock_discipline.go:60-119 | Where phc2sys alone reports CLOCK_REALTIME and chronyd is not configured, E3 is FREERUN for as long as the clock is undisciplined |
| Theorems.DisciplineIsReplayed | plugins/ptp_operator/metrics/os_clock_discipline.go:55-153 | In every run the machine is where its own calls take it, so what is proved of those calls in every order holds in it |
| Theorems.E1EventsAreTheChanges | plugins/ptp_operator/metrics/manager.go:428-533 | For a master outside T-BC every stored state names the one it replaces, the last one is its state, and its events are exactly the changes among them, but for the falls from HOLDOVER to FREERUN before which no timer ran out |
| Theorems.GmEventsAreTheChanges | plugins/ptp_operator/metrics/logparser.go:373-434 | For a grandmaster the same, and its events are exactly the changes that status lines store; the FREERUN of a dead ts2phc is a state of its own in that chain, and no event |
| Theorems.TbcEventsAreTheChanges | plugins/ptp_operator/metrics/metrics.go:420-451 | For a T-BC clock the same, but for a fall from HOLDOVER by the death of ptp4l, which is stored without an event |
| StatusClocks.StatusLineAdds | plugins/ptp_operator/metrics/logparser.go:373-528 | Every GM or T-BC status line of every run adds its state to the events of its clock if and only if it is handled and says another state than the clock has; it is then stored, and remembered for a GM |
| StatusClocks.Ts2phcDeath | plugins/ptp_operator/metrics/metrics.go:422-440 | The death of ts2phc leaves both clocks in FREERUN if they have stats, adds no event for them and leaves the remembered GM state |
| StatusClocks.GmFreeRunIsLost | plugins/ptp_operator/metrics/logparser.go:421-433 | A GM line in FREERUN after one in LOCKED or HOLDOVER adds no event and leaves the remembered GM state if and only if ts2phc of the config died in between |
| StatusClocks.GmStateIsTheLastEvent | plugins/ptp_operator/metrics/metrics.go:249-252 | In every run the remembered GM state, which overrules other processes, is the one that the last GM event of any config carried |
| Theorems.OneFreeRunPerHoldover | plugins/ptp_operator/metrics/ptp4lParse.go:135-209 | Between two FREERUN events of a master it stored HOLDOVER or LOCKED, however many timers are live |
| Theorems.HoldoverEndsByTimer | plugins/ptp_operator/metrics/manager.go:501-520 | A FREERUN event that ends a holdover of the master is the work of an expired timer |
| Theorems.StatusEventsAlternate | plugins/ptp_operator/metrics/manager.go:388-406 | The cached node state is the one the last SyncStateChange event carried, or the one loaded at start |
| Theorems.ConsecutiveStatusDiffers | plugins/ptp_operator/metrics/manager.go:388-406 | Consecutive SyncStateChange events never carry the same state, in any configuration |
| Theorems.LockedMeansInRange | plugins/ptp_operator/metrics/manager.go:442-533 | In every reachable state a locked CLOCK_REALTIME, interface, or master outside T-BC had its last offset in range |
| Theorems.EarlierTimerCancelled | plugins/ptp_operator/metrics/ptp4lParse.go:155-169 | Of two holdover timers started on one threshold entry the earlier has a closed channel |
| Theorems.OpenTimerIsCurrent | plugins/ptp_operator/metrics/manager.go:71-86 | A timer with an open channel waits on the channel its entry holds now |
| Theorems.RecoveryCancelsAll | plugins/ptp_operator/metrics/manager.go:466-480 | A clock that locks in range after a holdover leaves no timer of its entry able to expire |
| Holdovers.FaultStartsTimer | plugins/ptp_operator/metrics/ptp4lParse.go:130-169 | A port line that puts a master in holdover starts one timer, on the entry of its profile and with an open channel |
| Holdovers.OpenUnlessCancelled | plugins/ptp_operator/metrics/manager.go:71-86 | The open channel of a timer is closed later in a run if and only if a clock of a config with its profile locked out of a holdover since, or a timer was started on its entry |
| Holdovers.FaultKeepsTimer | plugins/ptp_operator/metrics/manager.go:466-480 | Until the clock of a fault's timer has run out, it can exactly unless the timer was cancelled in one of these ways |
| Holdovers.FaultElsewhereCancels | plugins/ptp_operator/metrics/ptp4lParse.go:155-169 | Of two configs with one profile that fault one after the other the earlier is left in holdover with a timer that cannot go off |
| FaultRuns.TwoFaultsOnOneProfile | plugins/ptp_operator/metrics/ptp4lParse.go:155-169 | A run of a started program in which two configs with one profile fault, and the first stays in HOLDOVER without a timer |
| HoldoverEnds.AliasIsLastName | plugins/ptp_operator/metrics/metrics.go:181-342 | In every run the alias of a master is the name that an offset or summary of it gave it last, or empty |
| HoldoverEnds.ExpiredTimerEnds | plugins/ptp_operator/metrics/ptp4lParse.go:181-208 | The body of a timer ends the holdover of its master with exactly one FREERUN event if and only if the timer expired, the master is still in HOLDOVER and its alias is not empty |
| HoldoverEnds.FaultEndsByTimer | plugins/ptp_operator/metrics/ptp4lParse.go:171-208 | The timer of a fault ends the holdover if and only if nothing cancelled it before its clock ran out, the master is still in HOLDOVER and something has named it |
| FaultRuns.NamelessHoldover | plugins/ptp_operator/metrics/ptp4lParse.go:198-202 | A run of a started program in which nothing cancels the timer of a fault and it runs, yet the master stays in HOLDOVER |
| HoldoverEnds.HoldoverStays | plugins/ptp_operator/metrics/ptp4lParse.go:128-208 | A master outside T-BC stays in HOLDOVER and nothing is published for it until an offset of it comes, the process of its offsets dies, or a timer of its config expires and it has an alias |
| HoldoverEnds.TimersComeFromFaults | plugins/ptp_operator/metrics/ptp4lParse.go:128-169 | Every timer of every run was started by a port line that put the master of its config in HOLDOVER |
| HoldoverEnds.SampleHoldover | plugins/ptp_operator/metrics/logparser.go:191-204 | An offset line that says HOLDOVER, of ts2phc or beside a named slave port, puts the master in HOLDOVER and starts no timer |
| Agreement.RunAgrees | plugins/ptp_operator/metrics/manager.go:370-407 | For nodes of ordinary and boundary clocks every step keeps the cache equal to the worst stored state while settled |
| Agreement.CacheAgrees | plugins/ptp_operator/metrics/manager.go:359-407 | From the first event on, and save between a fall and the next event, the cached state is what GetNodeSyncState recomputes and the worst of the stored states |
| Agreement.FallLeavesCacheBehind | plugins/ptp_operator/metrics/manager.go:505-520 | After a fall the cache agrees exactly when it already said FREERUN |
| E3Table.Table37InRuns | plugins/ptp_operator/metrics/metrics.go:94-332 | Table 37 of the O-RAN O-Cloud Notification API v04.00, for every phc2sys CLOCK_REALTIME line of every run: FREERUN if the servo or E1 is, else HOLDOVER if one is, else the offset decides, once or twice over: LOCKED in range, and out of range a holdover stays and all else falls; every change is an event; the machine is idle |
| E3Table.JudgedOnce | plugins/ptp_operator/metrics/metrics.go:308-326 | Where the profile has a threshold entry, or there is none, the second report of a line changes nothing, so there is at most one event |
| E3Table.TbcBoundsE3 | plugins/ptp_operator/metrics/metrics.go:291-306 | After such a line E3 of a T-BC, by its own type or its profile, is FREERUN where the T-BC clock has no state, never better than that clock, and LOCKED only if it is |
| E3Table.TgmBoundsE3 | plugins/ptp_operator/metrics/metrics.go:291-306 | The same of a T-GM and its GM clock, without one its T-BC clock, without either its master |
| E3Table.OrdinaryE3 | plugins/ptp_operator/metrics/metrics.go:291-306 | In other configs that clock bounds E3 too, but where it has no state the servo alone decides |
| E3Table.OffsetRecords | plugins/ptp_operator/metrics/metrics.go:308-326 | All stats of CLOCK_REALTIME after such a line: last offset, statistics, alias and process, with one report or two |
| E3Table.ChronydMovesE3 | plugins/ptp_operator/metrics/metrics.go:168-180 | In every run a line of chronyd makes it the process of CLOCK_REALTIME, and E3 FREERUN, LOCKED if the bound is above zero, or leaves it, with one event exactly if the state is another one |
| E3Clock.DeathMovesE3 | plugins/ptp_operator/metrics/metrics.go:420-466 | In every run the death of a process makes E3 of its config FREERUN, with one event if it was another state, if and only if it is not ts2phc, CLOCK_REALTIME has stats, phc2sys is configured and chronyd is not, and the master has stats or the process did not lead; else E3 of every config stays |
| E1Clock.LeaderMoves | plugins/ptp_operator/metrics/metrics.go:152-156 | The leading process is that of the master whose config had a line handled last; nothing else changes it |
| E1Clock.DeathMovesE1 | plugins/ptp_operator/metrics/metrics.go:452-457 | In every run the death of a process makes the master FREERUN if and only if it is not ts2phc, leads and the master has an alias; an event says so exactly if the master was LOCKED or UNSET; else the master of every config stays |
| E1Clock.SlaveNameIsFirst | plugins/ptp_operator/ptp4lconf/ptp4lConfig.go:158-165 | The port that speaks for the master is the one of least index in role SLAVE |
| E1Clock.NamelessHasNoName | plugins/ptp_operator/ptp4lconf/ptp4lConfig.go:158-165 | An offset has no port to speak for it exactly if no port is in role SLAVE or the first one has no name |
| E1Clock.OffsetMovesE1 | plugins/ptp_operator/metrics/metrics.go:333-362 | In every run, after a master offset line of a config outside T-BC with a named slave port: when E1 is LOCKED, HOLDOVER and FREERUN by servo, override, offset and prior state, which event was added, the last offset, the alias, the process, the statistics and the channel that a lock closes |
| E1Clock.OffsetKeepsE1 | plugins/ptp_operator/metrics/metrics.go:333-362 | Without a named slave port such a line changes nothing of the master but its process; under T-BC it stores the state without an event |
| E1Clock.OffsetMovesInterface | plugins/ptp_operator/metrics/metrics.go:246-387 | A ts2phc offset makes ts2phc the process of the master and moves its interface by the same rule; under T-BC the state is stored without an event, FREERUN out of range |
| E1Clock.OtherOffsetIsDropped | plugins/ptp_operator/metrics/metrics.go:231-233 | Offsets of an interface from any other process change no stats and no events |
| E1Clock.GenTakesIn | plugins/ptp_operator/metrics/manager.go:428-533 | Which reports the statistics take in: not a lock out of range or as the first report, nor a freerun in a holdover, but for CLOCK_REALTIME |
| Selections.SelectedByTokens | plugins/ptp_operator/metrics/os_clock_discipline.go:155-171 | The clock that a line selects, by the words after its first "selecting" |
| Selections.LineMoves | plugins/ptp_operator/metrics/os_clock_discipline.go:35-153 | In every run, for each kind of phc2sys line by its flags and tokens: the phase afterwards, the calls added to the log of the machine, and that E3 becomes FREERUN exactly if the line ends a window on its source and chronyd may not steer the clock |
| Selections.SettleMoves | plugins/ptp_operator/metrics/os_clock_discipline.go:60-67 | A settle callback ends an open window exactly if it is in flight with the generation in force, and makes E3 FREERUN exactly if a source was selected and chronyd may not steer the clock |
| Selections.OthersKeepOs | plugins/ptp_operator/metrics/os_clock_discipline.go:55-139 | All other inputs leave the machine as it is |
| Selections.SinkWindow | plugins/ptp_operator/metrics/os_clock_discipline.go:104-115 | A window whose last selection is CLOCK_REALTIME publishes no FREERUN: until phc2sys reconfigures the machine is idle, and no line or callback that it handles moves E3 |
| Selections.SourceWindow | plugins/ptp_operator/metrics/os_clock_discipline.go:86-118 | A window with a source selection only stays with its source through all inputs but those that decide about it, none of which moves E3 before; the finalising line or its settle callback then makes E3 FREERUN |
| Selections.UndisciplinedByEnd | plugins/ptp_operator/metrics/os_clock_discipline.go:86-153 | Nothing else makes the clock undisciplined |
| PortLines.PortLineMoves | plugins/ptp_operator/metrics/ptp4lParse.go:57-169 | In every run, after a line about a known port: the roles of the ports and of the master, the silent FREERUN under T-BC when a slave port becomes faulty, the HOLDOVER, its event and its one timer elsewhere, and exactly when each comes |
| PortLines.PortLineIgnored | plugins/ptp_operator/metrics/ptp4lParse.go:57-66 | Lines without identifier or role and of unknown ports do nothing; one with an identifier beyond the list sets up the stats and changes no role of a port, state, event or timer |
| SetUps.DeviceSetsUp | plugins/ptp_operator/metrics/metrics.go:157-161 | A DPLL or GNSS line sets up and names the stats of its interface and touches nothing else |
| SetUps.SynceSetsUp | plugins/ptp_operator/metrics/metrics.go:143-167 | A SyncE line sets up the stats of its device, even in a config without a profile |
| SetUps.ClassSetsUp | plugins/ptp_operator/metrics/ptp4lParse.go:19-56 | A clock class line sets up the stats of the main clock: GM clock, else T-BC clock, else master |
| SetUps.SummaryNamesMaster | plugins/ptp_operator/metrics/metrics.go:181-203 | A summary names the master after its first slave port, after nothing under ts2phc, or leaves it |
| SetUps.StatusLineNames | plugins/ptp_operator/metrics/logparser.go:386-423 | The alias, last offset and process of a clock after its status line |
| SetUps.Ts2phcSilences | plugins/ptp_operator/metrics/metrics.go:422-439 | The death of ts2phc leaves every clock of its config but two in FREERUN with the free-run offset, without an event |
| Samples.RefusedLine | plugins/ptp_operator/metrics/metrics.go:142-150 | A line of a config without a profile, or without ports and HA, changes nothing |
| NodeStatus.StatusLineTells | plugins/ptp_operator/metrics/manager.go:370-407 | A GM or T-BC event carries the offset of its line, and the cached node state is then the worst of its state and of those that enter by key |
| NodeStatus.OffsetTells | plugins/ptp_operator/metrics/manager.go:370-407 | The same of an E1 event by an offset, and without an event the cached state stays |
| NodeStatus.RealtimeTells | plugins/ptp_operator/metrics/manager.go:370-407 | The same of the last E3 event of an offset, be it reported once or twice |
| NodeStatus.PortLineTells | plugins/ptp_operator/metrics/ptp4lParse.go:146-155 | The HOLDOVER event of a port fault carries the last offset of the master |
| NodeStatus.TimerTells | plugins/ptp_operator/metrics/ptp4lParse.go:203-207 | So does the FREERUN event of an expired timer |
| Samples.SecondCallRepeats | plugins/ptp_operator/metrics/metrics.go:308-326 | A second call for a sample keeps the state exactly when the report is none of a lock or both lookups judge it alike, and then adds no event |
| Samples.SampleIsOneCall | plugins/ptp_operator/metrics/metrics.go:308-326 | A sample reported twice comes out as after one call in state, offset, events, cache and channels |
| Samples.BorrowedEntriesFlap | plugins/ptp_operator/config/config.go:250-260 | With two foreign threshold entries one sample locks the clock and lets it fall again |
| Samples.ChronydStopsMasterTimer | plugins/ptp_operator/metrics/metrics.go:168-180 | chronyd's lock report disables the master's holdover timer exactly when CLOCK_REALTIME was in holdover |
| StatusClocks.TbcDeathPublishes | plugins/ptp_operator/metrics/metrics.go:441-451 | In every run, the line that ptp4l died adds a FREERUN event for the T-BC clock exactly when that is reported at all and was LOCKED or UNSET, and stores FREERUN |
| StatusClocks.TbcRecoveryPublishes | plugins/ptp_operator/metrics/logparser.go:436-528 | The next status line, with any inputs before it, finds the clock in FREERUN and adds its state as an event exactly if that is LOCKED or HOLDOVER |
| Gate.ClosedIffRan | plugins/ptp_operator/gate/gate.go:19-54 | In every interleaving no channel is closed twice, and the channel in force is closed exactly when its once-function has run |
| Gate.NotReplacedDuringWait | plugins/ptp_operator/gate/gate.go:19-54 | A Wait in progress waits on the channel in force, which no step replaces |
| Gate.OpenReleasesAll | plugins/ptp_operator/gate/gate.go:33-54 | After one Open by any caller every current waiter can wake, and stays able to whatever happens next |
| Gate.BlocksUntilOpened | plugins/ptp_operator/gate/gate.go:19-54 | From a Reset until some Open nobody who waits can wake |
| Gate.ResetYields | plugins/ptp_operator/gate/gate.go:19-23 | While anyone waits or opens, Reset does nothing |
| IniSections.GetAllSections | plugins/ptp_operator/ptp4lconf/ptp4lConfig.go:100-138 | The scan loop computes the fold of the lines |
| IniSections.ParseMeans | plugins/ptp_operator/ptp4lconf/ptp4lConfig.go:118-135 | The sections are the headers; repeated headers merge; each key has the value set last under its section |
| IniSections.LastValueIsLast | plugins/ptp_operator/ptp4lconf/ptp4lConfig.go:127-135 | That value is on the one line that sets the key and has none after it that does |
| IniSections.NoiseIsIgnored | plugins/ptp_operator/ptp4lconf/ptp4lConfig.go:108-113 | Blank lines and comments change nothing, wherever they are |
| IniSections.RoundTrip | plugins/ptp_operator/ptp4lconf/ptp4lConfig.go:100-138 | Every well-formed map comes back from its printed text with any blank and comment lines put between |
| SyncELog.SyncELogData.Parse | plugins/ptp_operator/metrics/logData.go:28-79 | The two errors and when they arise, the object unchanged by them, and else the record of the token list, with numbers as strconv reads them: the first failure in a token decides |
| SyncELog.OrderIsIrrelevant | plugins/ptp_operator/metrics/logData.go:49-76 | Pairs with distinct known keys may come in any order |
| SyncELog.PermutedLines | plugins/ptp_operator/metrics/logData.go:28-79 | Lines of at least three pairs that differ in their order give the same record |
| SyncELog.RoundTrip | plugins/ptp_operator/metrics/logData.go:28-79 | A record comes back from its printed line, numbers included, with its pairs in any order |
| SyncELog.UpdateSyncEClockState | plugins/ptp_operator/stats/stats.go:280-297 | Whatever the order of the ports, the device state is a function of the set of their states |
| SyncELog.DeviceAgainstWorst | plugins/ptp_operator/stats/stats.go:280-297 | That is the worst state as events rank it exactly unless ports are in both holdover and freerun, or none has a state |
| DependentState.PTPEventState.UpdateCurrentEventState | plugins/ptp_operator/event/event.go:99-218 | The upsert, and a state that is LOCKED exactly when every dependent is, for every order of the map |
| DependentState.RecordsTheLast | plugins/ptp_operator/event/event.go:76-135 | After any updates a process holds exactly what was said last of each interface, once |
| DependentState.FoldIsLocked | plugins/ptp_operator/event/event.go:200-218 | For every order: LOCKED exactly when all are locked |
| DependentState.LastUnlockedDecides | plugins/ptp_operator/event/event.go:200-218 | Otherwise the last process of the order that is not locked decides, on HOLDOVER if it has one |
| DependentState.OrderFreeUnlessContested | plugins/ptp_operator/event/event.go:200-218 | All orders of the map give the same state if and only if no process in holdover stands beside one that is neither locked nor in holdover |
| DependentState.OrderDecides | plugins/ptp_operator/event/event.go:200-218 | An instance: two processes for which two orders of the map give different states |

## Left out

- Log tokenising: lines are taken as parsed. An offset line whose fields are out of order, for which extractRegularMetrics returns a name without a state, is left out with it.
- Lines of nmea and PTP HA, and what DPLL, GNSS, SyncE and clock class lines do beyond the stats they set up: they write metrics and dependent states, or publish events of other kinds, which the trace does not hold.
- Prometheus metrics, HTTP publishing and its failures, mock mode, the store of metrics.json, alias lookup, Kubernetes and sockets: output and libraries; events are kept as a trace.
- Threshold reloads between two steps of a run: UpdatePTPThreshold is modelled as the start of a run, and the theorems speak of runs between reloads.
- Clock durations: a timer may go off at any step after it was armed, whatever its timeout.
- HoldoverEnds.FaultEndsByTimer: speaks of nodes whose profiles all have a threshold entry of their own; a borrowed entry is whichever the map yields. The same holds of Holdovers.FaultKeepsTimer and Holdovers.OpenUnlessCancelled.
- The delay field of an offset line: a sample carries the state the line comes to, which is HOLDOVER where a line of ptp4l or phc2sys breaks off before the delay.
- Expiry of a holdover timer as more than one step: its body takes no lock in the source, and is modelled as if nothing ran between its check and its event.
- Theorems.LockedMeansInRange: speaks of profiles with a threshold entry of their own, or of nodes without entries; another profile is judged by whichever entry the map yields.
- Agreement.CacheAgrees: speaks of ordinary and boundary clocks without chronyd and without ts2phc offsets; elsewhere stored states change without an event by design (T-BC masters, a dead ts2phc).
- Theorems.UndisciplinedMeansFreeRun: does not cover configs in which chronyd or another process also reports CLOCK_REALTIME, because their reports overrule the forced FREERUN.
- Sync states other than the four: no writer stores one.
- HasProcessEnabled(GM) on the master: GM states are kept under the GM clock, so the test is never true and its branch is not modelled.
- LookupOrEnsurePtpProcessOpts, which may load options on demand: options are fixed for a run.
- An interface named like one of the four reserved keys of the stats map.
- The width of the sample counter `num`: it would take 2^63 samples to wrap.
- processConfigCreate and its port numbering: ports and identifiers are taken as they are configured.
- The line-length limit of the scanner in GetAllSections, and invalid UTF-8.
- Metrics, offsets and values of dependent clocks: only process, interface and state are kept.
