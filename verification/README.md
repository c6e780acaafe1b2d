# Serving simulator: verified model

This project models, in Dafny, the parts of an LLM serving simulator where a wrong step is silent: the
controller loop that exchanges callbacks and commands with a network-simulator backend, the two file
protocols that publish experiment results, and the exact arithmetic that turns rows into published
decisions. It proves what each of them keeps over every run, every crash point and every input.

`dafny verify dfyconfig.toml` checks the whole project.

## What is modelled

**The event loop with the full-model HBF runtime** (`TieCommit`, `TieBoundary`, `HbfLoop`, `HbfLoopSafety`,
`HbfLoopOutcomes`, `HbfLoopBoundary`, `HbfLoopRequests`, `HbfLoopAnswers`, `HbfServing`, `Controls`). GPU, prefill and HBF completions that report at
one timestamp are deferred and committed together when the callback of a same-time barrier arrives.
`TieCommit` is the commit itself with the slice of the router it consults, `TieBoundary` says when it freezes and
what it releases, `HbfLoop` is the loop as a state machine over values, `HbfLoopSafety`, `HbfLoopOutcomes`,
`HbfLoopBoundary` and `HbfLoopRequests` hold the theorems about every run, `HbfLoopAnswers` says exactly when it does
what, and `HbfServing` the objects whose methods take those steps in place.

**The event loop without that runtime** (`DpWaves`, `WaveSafety`, `WaveTables`, `BatchPadding`, `Serving`,
`ServingSafety`, `ServingRuns`, `ServingAnswers`, `ServingDrain`, `ServingExit`, `ServingStranded`, `ServingBooks`,
`ServingClock`, `ServingPolls`, `ServingLimits`, `ServingLoop`, `IdleWakeup`). Data-parallel waves are assembled before they are
dispatched, idle endpoint groups are parked until the backend wakes them, a measurement freeze is followed by a
drain, and instances shut down one by one. `ServingLimits` holds the concrete runs, evaluated with `ServingPolls`,
that show where a guard or a caller's discipline is needed.

**Commit protocols on a file system** (`StagedPublish`; `SweepCells`, `SweepRuns`, `SweepSafety`,
`SweepResume`, `SweepDirectory`). The file system is a mutable map with atomic renames. Every operation may
fail, workers interleave freely, and a crash may come between any two writes.

**Exact decisions over collections** (`ParetoFrontier`, `TieSelection`, `NearestRank`, `RequestRows`,
`SloCounts`, `SessionOrder`, `PrefillDrain`, on top of `Sorting` and `Sets`). Floating-point values are exact reals.

## Assumptions

What the schedulers, the router, the KV manager and the HBF adapter decide on their own reaches a step of a
loop through its environment, and a theorem holds for every environment unless it names a contract.
`ServingSafety` and what builds on it rely on `ServingSafety.Contract`, which says what the loop's call sites
take for granted:

- an endpoint reports a batch in flight only if the backend, and this endpoint, were given its graph;
- a completed transfer is consumed by the routing pass of the callback that reports it.

`ServingLimits.UnconsumedTransferParks` and `ServingLimits.LeftoverTransferNeverDrains` show that the loop does
depend on the second one. Theorems about exits add that a finished instance reports no more (`ServingExit.Awake`).
`HbfLoopOutcomes` relies on `HbfLoopOutcomes.RoutesWell`: routing keeps at most one live request per session and
does not freeze the source. `HbfLoopBoundary` adds that it numbers the calls of its sessions in separate blocks,
completes no session itself, and that the requests that complete are live (`HbfLoopBoundary.Contract`). The
backend's side of parking is part of the state: a completion generation opens at the first endpoint report of a
batch, and it wakes every parked group. Wave theorems are about groups whose members are single NPUs, as
`DpWaves.Config.SingleEndpointMembers` says; `ServingLimits.PipelinedMemberLosesABatch` and
`ServingLimits.LostForever` show what goes wrong with a second pipeline stage. A hash is modelled by the content it
hashes, so it is injective.

## Where the code and its description differ

- The idle offset adjustment for polling backends is described as never moving logical time backward. It
  does: a report `d` cycles after the one that adjusted the offset is taken at an earlier time exactly when
  `d` and the way to the target together are less than one polling quantum (`ServingClock.ClockRunsBack`;
  `ServingClock.TimeGoesBack` is a run). The poll one quantum later lands on the target exactly when the
  adjustments that others make in between cancel out (`ServingClock.NextPollLandsOnTarget`).
- The drain exit waits for every callback that is owed, but normal completion does not ask for exact-time
  controls or transfers. A callback leaves something behind exactly when it is the poll that finishes the last
  instance and a control or a transfer is pending at that moment (`ServingExit.ExitOwesNoBatch`;
  `ServingLimits.NormalExitAbandonsControls` is a run).
- A batch of an instance with two endpoints is given to the second one when that endpoint polls. Once the
  source is frozen the loop no longer asks the scheduler, so a batch whose second endpoint had not polled by
  then never ends, and the run is never left (`ServingStranded.StrandedNeverLeaves`;
  `ServingStranded.FreezeCanStrand` is a run). A frozen run can drain exactly when there is no such batch at the
  freeze (`ServingStranded.FrozenDrainsExactly`).
- A drain report with no candidates but with drained tokens passes the collector and fails the plotter
  (`PrefillDrain.PlotterAgreesWithCollector` gives the exact condition).
- A worker that crashes or fails between the two renames of its cell leaves a directory that no later run
  accepts, with or without the resume flag (`SweepResume.CrashLeaves`, `SweepResume.WedgeIsFinal`;
  `SweepResume.EmptyRootCanWedge` is a history from an empty output root).

## Model

| member | source | states |
|---|---|---|
| TieCommit.CommitIgnoresArrivalOrder | serving/__main__.py:1571-1703 | the whole commit of a tie - outcome per request, freeze decision, counters, router, or the duplicate error - is the same for every arrival order of the tied GPU, HBF and prefill completions |
| TieCommit.FreezeDecisionIgnoresOrder | serving/core/router.py:1884-1923 | whether the measurement boundary is reached depends only on the set of tied completions, for both cohort rules |
| TieCommit.FrozenCommitReleasesNothing | serving/core/router.py:1740-1833 | from a router as every run has it (HbfLoopOutcomes.RouterIsSound), a frozen commit releases no successor call and completes exactly as many sessions as the boundary test counted final calls |
| HbfLoopOutcomes.CommitSettles | serving/__main__.py:1641-1699 | from such a router, a commit settles each tied completion exactly once, in id order, with the outcome its class and its place in its session demand: under a freeze only final calls publish, others are censored |
| HbfLoopOutcomes.RouterIsSound | serving/core/router.py:1740-1833 | in every reachable state a session has at most one live request, and the router is frozen exactly when the source is |
| HbfLoopOutcomes.OutcomesFollowHistory | serving/__main__.py:1641-1699 | in every run the outcomes are one per commit of the history, in order, each decided by the completion's class, whether the source had frozen, and whether it ended its session |
| HbfLoopOutcomes.FreezeMeetsBoundary | serving/core/router.py:1865-1923 | in every run with a freeze the prediction that froze the source has come true: the measured cohort is complete, by count or by required sessions |
| HbfLoopOutcomes.FrozenRunReleasesNothing | serving/core/router.py:1925-1935 | in every run, no successor call is released after the freeze |
| HbfLoopOutcomes.AFreezingRun | serving/__main__.py:1571-1711 | a run in which one HBF completion is deferred, freezes the source, is committed with its outcome and lets the loop leave |
| HbfLoopOutcomes.LeavingSettlesAll | serving/__main__.py:2474-2531 | when a run has left, by either exit, each completion was committed as often as it was deferred and has exactly one outcome |
| TieCommit.CommitConserves | serving/__main__.py:1676-1688 | a commit adds the same tokens to the open bucket and the total, and counts HBF and terminal prefill completions once |
| TieBoundary.CommitCounts | serving/__main__.py:1676-1688 | a commit adds exactly the input and the generated tokens of the tied HBF completions, lists their ids in id order, and counts every HBF and terminal prefill completion once |
| TieBoundary.SettledByTokens | serving/__main__.py:1642-1699 | what is committed of one completion: a prefill with tokens left to generate only moves on or is censored, anything else finishes |
| TieBoundary.FreezeIsExact | serving/core/router.py:1884-1923 | while the cohort is incomplete a commit freezes the source if and only if committing the tied completions under a freeze completes the cohort, by count and by required sessions: no freeze is missed and none is early |
| TieBoundary.OpenCommitReleases | serving/core/router.py:1740-1833 | a commit without a freeze ends exactly the sessions whose last call is tied, and releases the next numbered call of every other tied session, in id order |
| HbfLoopBoundary.FrozenExactlyAtBoundary | serving/__main__.py:1598-1640 | in every reachable state the source is frozen if and only if the measured cohort is complete |
| HbfLoopBoundary.AFreezingRunObeys | serving/__main__.py:1571-1711 | the freezing run keeps everything that FrozenExactlyAtBoundary relies on |
| HbfServing.MeasurementTally.CommitInOrder | serving/__main__.py:1642-1699 | the loop over sorted ids, updating the counters in place, computes the specified commit |
| HbfServing.MeasurementTally.CommitTied | serving/__main__.py:1598-1703 | the freeze decision and the commit in place are the specified ones, or a duplicate is refused |
| HbfServing.HbfServingLoop.ProcessTieBarrier | serving/__main__.py:1571-1711 | empties the three deferred lists, commits them, and routes arrivals only when the source is not frozen |
| HbfServing.HbfServingLoop.RecordReport | serving/core/scheduler.py:1485-1512 | the second endpoint report takes the batch out and defers what it finished to the list of its role |
| HbfServing.HbfServingLoop.WriteFlush | serving/__main__.py:1413-1502 | an ordinary answer carries the queued barrier commands and at most one new exact-time control, none once frozen |
| HbfServing.HbfServingLoop.ModelComplete | serving/__main__.py:1871-2690 | the in-place handling of a model report is one step of the state machine |
| HbfServing.HbfServingLoop.HbfBackgroundComplete | serving/__main__.py:1837-1869 | the in-place handling of an HBF completion is one step of the state machine |
| HbfServing.HbfServingLoop.ControlEvent | serving/__main__.py:1766-1802 | the in-place handling of a control callback is one step of the state machine |
| HbfServing.HbfServingLoop.Serve | serving/__main__.py:1723-2694 | the loop over callbacks is a run of the state machine, so every theorem about runs holds of it |
| HbfLoopAnswers.AnswersExactly | serving/__main__.py:2078-2683 | after its report is recorded a poll dispatches, puts an endpoint to sleep, leaves, jumps to the next known source, or goes on: each exactly under its condition on the state |
| HbfLoopAnswers.Dispatches | serving/__main__.py:2078-2106 | the scheduler forms the next numbered batch for the first endpoint, or hands the batch in flight to an endpoint that has not been given it, exactly when no tie is open and the source runs |
| HbfLoopAnswers.ReportEffect | serving/core/scheduler.py:1485-1512 | the batch ends exactly when its first and its last endpoint have reported, and what it finished then waits in the list of its role, GPU completions counted |
| HbfLoopAnswers.CommitsExactly | serving/__main__.py:1571-1711 | the barrier's callback commits what waits, empties the three lists, and routes arrivals exactly when the source is not frozen by then |
| HbfLoopAnswers.ControlsExactly | serving/__main__.py:1766-1802 | any other control callback closes its exact-time control and arms the barrier at its time, or is an error |
| HbfLoopAnswers.FencesExactly | serving/__main__.py:1923-1945 | every first report of an endpoint arms the barrier at its time, whether or not it ends the batch |
| HbfLoopAnswers.HbfWaitsExactly | serving/__main__.py:1837-1869 | an HBF completion routes older arrivals if nothing is open, waits with the others, and arms the barrier at its time |
| HbfLoopAnswers.RoutesWhenOpen | serving/__main__.py:333-390 | older arrivals are routed exactly when the source runs, no tie is open and time has begun |
| HbfLoopAnswers.LeavesWhenDrained | serving/__main__.py:299-330 | the drain exit is taken exactly when the source is frozen and nothing that was issued is owed |
| HbfLoopAnswers.FlushArms | serving/__main__.py:1481-1555 | an ordinary answer arms a known later wakeup whenever the source runs and the backend has something else to do, and only then |
| HbfLoopSafety.StepKeepsSafe | serving/__main__.py:1923-2002 | every callback keeps: a completion waits only while the barrier is pending at its own timestamp, and the history agrees with the three lists about what waits |
| HbfLoopSafety.WaitingMeansPending | serving/__main__.py:1713-1718 | in every reachable state a non-empty deferred list implies a pending barrier |
| HbfLoopSafety.TiesAreFenced | serving/__main__.py:333-356 | at every routing, dispatch, jump in time and exit of every run all deferred completions have been committed; a commit follows its own deferral at the same timestamp; after the freeze nothing is routed or dispatched |
| HbfLoopRequests.PendingBarrierIsRequested | serving/__main__.py:1713-1718 | in every reachable state the backend was asked for the callback of a pending barrier exactly once, so no tie waits for a callback nobody requested |
| HbfLoopSafety.LeavingLosesNothing | serving/__main__.py:2474-2531 | on either exit path every completion was committed exactly as often as it was deferred, at the timestamp of its deferral, although the shutdown test never looks at the prefill list |
| Controls.ArmIsIdempotent | serving/core/controller.py:31-45 | arming an armed time changes nothing; a later time is always armed afterwards |
| Controls.CallbacksAreOneShot | serving/core/controller.py:47-67 | over any run of calls each callback id is reported as first at most once |
| Controls.ArmedIsOwedOnce | serving/core/controller.py:31-67 | an armed time is owed one callback: its id at that time comes first once, a repeat changes nothing, another time is an error; completing undoes the arming |
| Controls.BarrierIsOwedOnce | serving/core/controller.py:85-129 | the same for the barrier, which may be armed again at its own time only, and which only its own callback closes |
| Controls.ExactControlSchedule.Complete | serving/core/controller.py:47-67 | in-place completion of an exact-time control: new, duplicate, unknown or at another time |
| Controls.SameTimeControlBarrier.Complete | serving/core/controller.py:111-129 | in-place completion of the barrier: new, duplicate, unknown or at another time |
| WaveSafety.ReportKeeps | serving/core/scheduler.py:1485-1512 | a report from an endpoint that was given the batch keeps the wave invariant |
| WaveSafety.DispatchKeeps | serving/__main__.py:2078-2345 | scheduling keeps: a table entry is the only batch of its instance, unreported and not handed over, in one table only; every batch in flight is handed over or waits; no wave is complete; no graph is handed over twice |
| WaveSafety.FullMeansAll | serving/__main__.py:2152-2152 | the count of waiting members equals the size of the group exactly when every member waits |
| WaveSafety.WaveFires | serving/__main__.py:2123-2227 | a fired wave is one batch per member, all at the length of the longest, with kv_len and num_decode minus total_len kept; one member runs, the others are ready, nothing else is touched |
| ServingRuns.FiringsAreWhole | serving/__main__.py:2123-2227 | whenever, in any reachable state, a poll completes a wave, the wave fires in that way, whatever the callback is then answered |
| WaveTables.Tables.FireWave | serving/__main__.py:2152-2217 | the padding and hand-out loops compute the specified firing in place |
| WaveTables.Tables.Schedule | serving/__main__.py:2078-2345 | the branches of the scheduling section, in place, are the specified dispatch |
| BatchPadding.LiveBatch.PadToMax | serving/__main__.py:62-89 | padding one batch object in place |
| BatchPadding.PadWave | serving/__main__.py:2157-2159 | padding distinct batch objects in place: all end at the longest length, which one of them had, with the differences of the other counters kept |
| ServingRuns.WavesEverywhere | serving/__main__.py:2123-2345 | the wave invariant in every reachable state, and no graph handed over twice in any run |
| ServingRuns.NoLostWakeup | serving/__main__.py:135-183 | in every reachable state with a parked group the backend owes an event whose wake has not fired |
| ServingSafety.ParkIsSafe | serving/__main__.py:2538-2587 | the half-report guard and the wave guard together imply that a wake is owed when a group parks, with and without a KV manager |
| ServingSafety.AnsweredIsBusy | serving/__main__.py:2472-2485 | a callback answered with a workload, or whose batch waits, cannot also be answered by the shutdown or idle tests |
| ServingSafety.StepKeeps | serving/__main__.py:1764-2690 | every callback keeps the wave, transfer, control and parking invariants |
| ServingAnswers.ReportAnswers | serving/__main__.py:2105-2683 | every report that does not end the run gets one answer: the workload scheduling hands out, an order to wait for the wave, or the answer to a poll with nothing to run |
| ServingAnswers.RestAnswers | serving/__main__.py:2468-2683 | a poll with nothing to run sleeps, leaves, waits for its group, jumps to the next known source, parks or passes: each exactly under its condition on the state, on both kinds of backend |
| ServingAnswers.SchedulesExactly | serving/__main__.py:2078-2345 | scheduling runs a new batch, hands over a ready one, fills an open wave with a one-token decode, or does nothing: each exactly under its condition, with the whole new state |
| ServingAnswers.ConsultsExactly | serving/__main__.py:2080-2092 | the scheduler is consulted while the source runs, and in a frozen run only for a member that an open wave waits for; transfers and the fabric hold an instance only with a KV manager |
| ServingAnswers.RecordsExactly | serving/__main__.py:1894-2009 | what a report changes: the batch, its tokens and the freeze when both endpoints have reported, older arrivals, and the wake of the parked groups at its first report |
| ServingAnswers.RoutesExactly | serving/__main__.py:333-390 | a routing pass makes the jobs it issues pending and takes out the answered ones it consumes, unless the source is frozen |
| ServingAnswers.ReportLeaves | serving/__main__.py:299-330 | the report after which a frozen run holds and owes nothing is answered by the exit |
| ServingAnswers.JumpsToNextSource | serving/__main__.py:2661-2678 | an analytical loop with nothing to run, held or outstanding that knows a later source of work is advanced to exactly that time |
| ServingAnswers.AnswerArms | serving/__main__.py:1481-1555 | an answer other than an exit or an advance arms a known later wakeup exactly while the source runs and the backend has something else to do |
| ServingAnswers.ContinuesOrLeaves | serving/__main__.py:1558-1569 | after a control or a transfer the run leaves exactly when the source is frozen and nothing is owed or held |
| ServingAnswers.TransferWakes | serving/__main__.py:1804-1835 | an accepted transfer callback takes its time, and the first one wakes the parked groups |
| ServingAnswers.CallsExactly | serving/__main__.py:1804-1835 | a transfer callback is accepted exactly when it reports what was issued, in causal order, or repeats an accepted one |
| ServingLimits.HalfReportedGuardIsNeeded | serving/__main__.py:169-183 | a reachable state in which dropping the half-report guard would park a group that nothing wakes |
| ServingLimits.WaveGuardIsNeeded | serving/__main__.py:2538-2538 | a reachable state in which dropping the wave guard would do the same without a KV manager |
| ServingLimits.UnconsumedTransferParks | serving/__main__.py:2561-2587 | a run in which a completed transfer that routing did not consume still counts as a wakeup, so a group parks with nothing left to wake it |
| ServingLimits.LeftoverIsReachable | serving/__main__.py:1804-1835 | a run that freezes with a transfer completed but unconsumed |
| ServingLimits.LeftoverTransferNeverDrains | serving/__main__.py:299-330 | from any such state, every later run without a second callback for that transfer stays undrained |
| ServingLimits.NormalExitAbandonsControls | serving/__main__.py:2506-2529 | a run that keeps every contract and exits by normal completion at time 5 with the control of time 100 still owed |
| ServingExit.ExitsOwing | serving/__main__.py:2472-2529 | every exit is a drain exit with nothing owed or the last poll of the last instance; something stays behind exactly when it is that poll and something is outstanding then, and that is what stays behind |
| ServingExit.ExitOwesNoBatch | serving/__main__.py:2486-2529 | in every run in which finished instances report no more, an exit never leaves a batch behind, and it leaves something behind exactly when the last instance finishes while a control or a transfer is pending |
| ServingLimits.PipelinedMemberLosesABatch | serving/__main__.py:2237-2237 | a run of two polls in which a member with two pipeline stages overwrites the batch that waits for its wave |
| ServingLimits.LostForever | serving/__main__.py:2105-2345 | a batch so lost is never handed over and never ends in any later run that keeps the contract, so such a run never drains |
| ServingLimits.ColocatedBreaksTheCount | serving/__main__.py:2503-2504 | a run in which counting finished instances lets a decode instance finish before the prefill instance, because the lists do not partition the instances |
| ServingDrain.DispatchRemains | serving/__main__.py:2080-2102 | in a frozen run every change scheduling makes strictly lowers the remaining work: missing members, held batches, owed reports |
| ServingDrain.NoNewWave | serving/__main__.py:2133-2138 | a frozen run opens no wave that was not open |
| ServingDrain.StepDrains | serving/__main__.py:1558-1569 | every callback of a frozen run arms no control, issues no transfer, opens no wave; it takes the drain exit exactly when nothing is owed, and any other exit only with every instance done |
| ServingDrain.DrainFalls | serving/__main__.py:299-330 | what is to come never grows and falls with every productive callback |
| ServingDrain.FrozenRunEnds | serving/__main__.py:1558-1569 | a frozen run has no more productive callbacks than there were things to come |
| ServingStranded.NeverStuck | serving/__main__.py:299-330 | while a frozen run with no stranded batch is not drained, an endpoint that was given a batch owes its report, the backend owes a control or a transfer, or some instance's poll makes progress |
| ServingDrain.PollAdvances | serving/__main__.py:2094-2147 | the poll promised by NeverStuck lowers the remaining work, by a hand-over or by a dummy batch |
| ServingStranded.FrozenDrainsExactly | serving/__main__.py:299-330 | after any run from a frozen state it is drained exactly when nothing is left to come and no batch was stranded at the freeze |
| ServingStranded.StrandedNeverLeaves | serving/__main__.py:2080-2106 | a run that freezes with a batch whose last endpoint was never given it is never left, by either exit |
| ServingStranded.FreezeCanStrand | serving/__main__.py:2080-2106 | a run that keeps every contract and freezes with such a batch: the report that freezes comes at the time of the report that woke the batch's instance, before its last endpoint polls again |
| ServingBooks.TokensAreConserved | serving/__main__.py:2348-2366 | flushed buckets plus the open bucket equal the totals in every reachable state |
| ServingAnswers.TotalsAreSums | serving/__main__.py:1945-1949 | in every run the totals are the prompt tokens and the generated tokens of the batches whose last endpoint reported |
| ServingAnswers.BucketsAreIntervals | serving/__main__.py:2348-2366 | in every run each closed bucket stands for one logging interval, and the next starts where it ended |
| ServingBooks.PrefillFinishesFirst | serving/__main__.py:2497-2504 | when the lists partition the instances no decode instance is done before every prefill instance |
| ServingBooks.NormalExitIsComplete | serving/__main__.py:2506-2529 | a run that was not cut short ends after each instance was done exactly once |
| ServingBooks.AnsweredOnce | serving/__main__.py:2105-2690 | every accepted callback is answered with exactly one endpoint command |
| ServingBooks.TimeMovesForward | serving/__main__.py:213-224 | on an analytical backend logical time never decreases over any run, and a freeze is never undone |
| ServingClock.AdvanceSkipsNothing | serving/__main__.py:2661-2678 | an absolute advance goes to the earliest known source of work and happens only when nothing is in flight, transferring or controlled |
| ServingClock.ReportTimes | serving/__main__.py:186-201 | between any two reports of a polling run logical time passes as the cycles do plus the adjustments made in between, so it runs back exactly when these outweigh the cycles |
| ServingClock.NextPollLandsOnTarget | serving/__main__.py:186-201 | a report one quantum after an offset adjustment is taken at exactly the target if and only if the adjustments in between cancel out, as when there is none |
| ServingClock.ClockRunsBack | serving/__main__.py:186-201 | with no other adjustment, a report d cycles after the adjusting one is taken before it exactly when d plus the way to the target is less than a quantum |
| ServingClock.TimeGoesBack | serving/__main__.py:186-201 | a run whose second report of cycle 1000 is taken at 950, although both know of the arrival at 1050, and whose next poll lands on 1050 |
| ServingLoop.EventLoop.ModelComplete | serving/__main__.py:1871-2690 | the in-place handling of a model report is one step of the state machine |
| ServingLoop.EventLoop.ControlEvent | serving/__main__.py:1766-1802 | the in-place handling of a control callback is one step of the state machine |
| ServingLoop.EventLoop.TransferComplete | serving/__main__.py:1804-1835 | the in-place handling of a transfer completion is one step of the state machine: a first callback must carry what was issued and be in causal order, an identical repeat changes nothing, a changed repeat or an unknown transfer is an error |
| ServingLoop.EventLoop.Respond | serving/__main__.py:1413-1502 | one answer per callback, with at most one exact-time control, none for an exit, an advance or a frozen run |
| ServingLoop.EventLoop.ParkOrPass | serving/__main__.py:135-183 | the park decision from the loop's own tables |
| ServingLoop.EventLoop.IdleEndpoint | serving/__main__.py:2532-2683 | park, wait or jump, in place |
| ServingLoop.EventLoop.Serve | serving/__main__.py:1723-2694 | the loop over callbacks is a run of the state machine, so every theorem about runs holds of it |
| IdleWakeup.NextIdleWakeup | serving/__main__.py:393-494 | none when work is in flight or an untried scheduler can run; otherwise exactly the earliest source later than now |
| IdleWakeup.NextExactControlWakeup | serving/__main__.py:256-296 | exactly the earliest source later than now, whatever is in flight |
| IdleWakeup.NothingIsForgotten | serving/__main__.py:393-494 | an idle wakeup is no later than any later time a scheduler, its manager or the router knows about; without one there is none, and a ready head belongs to the scheduler just tried |
| IdleWakeup.NoControlIsForgotten | serving/__main__.py:256-296 | the same for the exact-control wakeup, the runtime's own time included |
| IdleWakeup.RunsExactly | serving/__main__.py:430-460 | a scheduler counts as runnable exactly when its head is ready, it was not just tried, and it waits for nothing later |
| IdleWakeup.WakeupsAgree | serving/__main__.py:256-494 | both functions return the same time when all schedulers share one manager and there is no HBF runtime |
| StagedPublish.FileSystem.PublishStagedOutputs | serving/agentic_kv_qwen3_1m_collect.py:1468-1497 | which of the four ways it ends is decided by the positions of the faults: all four outputs new exactly when none of its operations fails, the previous root exactly after a fault in the backup or one that the rollback survives, so after any single fault; only a second fault that hits a rollback rename leaves the root in between, with the old manifest and whatever is still not restored in the backup; at every instant a new manifest implies new tables |
| StagedPublish.FileSystem.RollBack | serving/agentic_kv_qwen3_1m_collect.py:1489-1497 | restores the previous root, absent files included, exactly when none of its renames fails; otherwise the root is recoverable from the backup |
| StagedPublish.VerifiedRootIsAGeneration | serving/agentic_kv_qwen3_1m_collect.py:1469-1475 | a root whose manifest verifies is one of the two complete generations at any step |
| StagedPublish.NewManifestLast | serving/agentic_kv_qwen3_1m_collect.py:1484-1488 | a changed manifest at the root means every table is new |
| SweepCells.BuildManifest | serving/hbf_comparison_sweep.py:1202-1345 | the loops over records, pairs and systems compute the specified manifest, or refuse duplicates and mismatches |
| SweepCells.ValidateGroup | serving/hbf_comparison_sweep.py:1215-1261 | the four hash sets of a seed/rate group are singletons of the planned values exactly when each system's record has them |
| SweepCells.ManifestIgnoresOrder | serving/hbf_comparison_sweep.py:1273-1345 | the manifest, or the refusal, depends only on the set of records and not on the order of completion |
| SweepCells.FitsExactly | serving/hbf_comparison_sweep.py:815-957 | a result fits a cell exactly when it is for it, followed its schedule and drained each planned call once |
| SweepDirectory.AcceptsExactly | serving/hbf_comparison_sweep.py:1005-1094 | the validation accepts exactly the directories that a worker of this very task leaves: contract, result, both files and nothing else |
| SweepRuns.StartsExactly | serving/hbf_comparison_sweep.py:1131-1153 | a run that starts takes the committed cells as they are and gives each absent cell a worker |
| SweepRuns.FinishesExactly | serving/hbf_comparison_sweep.py:1368-1441 | a run publishes only when no cell has failed and every worker is collected; it writes the manifest once, and answers with an existing one exactly when it resumes and finds it equal |
| SweepDirectory.AcceptedRecord | serving/hbf_comparison_sweep.py:1005-1094 | the record of an accepted directory repeats the cell, its contract and result, and both files |
| SweepSafety.StepKeepsGood | serving/hbf_comparison_sweep.py:1097-1153 | every start, worker write, failure, collection, publication and crash keeps: a worker's progress matches its directory, collected records are the committed directories, a published manifest is the one they determine |
| SweepSafety.CommittedForever | serving/hbf_comparison_sweep.py:1097-1128 | in any history of an output root that starts empty, a cell once committed is never run again, replaced or damaged |
| SweepSafety.ManifestListsCommittedCells | serving/hbf_comparison_sweep.py:1273-1345 | in any history of an output root that starts empty, the published manifest lists exactly the plan's cells, each with the record of its committed directory |
| SweepResume.ManifestRowsAgree | serving/hbf_comparison_sweep.py:1273-1345 | the published manifest has one row per seed/rate group, and each row repeats what the committed record of every system of the group followed |
| SweepSafety.ManifestForever | serving/hbf_comparison_sweep.py:1368-1388 | a published manifest is never replaced |
| SweepSafety.PublishIsDetermined | serving/hbf_comparison_sweep.py:1399-1441 | what a run publishes is determined by the plan and the committed cells, whichever run wrote them |
| SweepResume.ResumeRebuildsManifest | serving/hbf_comparison_sweep.py:1368-1441 | resuming a finished sweep runs nothing, writes nothing and returns the published manifest |
| SweepResume.CompleteSweepHasManifest | serving/hbf_comparison_sweep.py:1202-1261 | the strict validation of single cells implies the pairing across systems |
| SweepResume.WorkerCommits | serving/hbf_comparison_sweep.py:1097-1128 | a worker whose result fits its cell commits it, whatever the other workers are doing |
| SweepResume.CrashLeaves | serving/hbf_comparison_sweep.py:1113-1126 | a directory is unusable exactly when its worker has stopped - crashed or failed - between the two renames |
| SweepResume.EmptyRootCanWedge | serving/hbf_comparison_sweep.py:1113-1126 | for every plan, cell and fitting result, a history from an empty root that ends so, after which nothing changes any more |
| SweepResume.ResumeIsAccepted | serving/hbf_comparison_sweep.py:1131-1153 | a resumed run starts exactly when no directory of the plan is present but invalid, a fresh one exactly when there is no manifest and no directory; a refused run changes nothing |
| SweepResume.WedgeIsFinal | serving/hbf_comparison_sweep.py:1131-1153 | one unusable directory stops every later run |
| SweepDirectory.OutputRoot.Preflight | serving/hbf_comparison_sweep.py:1131-1153 | sorts the cells into committed records and pending coordinates, or refuses, exactly as specified |
| SweepDirectory.OutputRoot.ExecuteCell | serving/hbf_comparison_sweep.py:1097-1128 | commits a cell exactly when it is absent and its result fits: the bundle with the matching marker, which validates to the returned record; touches no other cell, never replaces one |
| SweepDirectory.OutputRoot.ExecutePending | serving/hbf_comparison_sweep.py:1399-1441 | executes all pending cells exactly when every result fits its cell; otherwise it has executed those before the first that does not |
| SweepDirectory.OutputRoot.PublishTopManifest | serving/hbf_comparison_sweep.py:1368-1388 | writes the manifest once, and afterwards only compares |
| SweepDirectory.OutputRoot.RunSweep | serving/hbf_comparison_sweep.py:1399-1441 | for any order of finishing workers, returns a manifest exactly when the directory is acceptable, every result fits and a manifest already there may be kept and is the one the cells determine; then every cell is committed and that manifest is on disk; a run that returns none writes none, and a refused run changes nothing |
| ParetoFrontier.Frontier | serving/hbf_design_space_sweep.py:747-782 | returns exactly the non-dominated keys in the specified order, or refuses invalid points |
| ParetoFrontier.ExcludedIsDominatedByFrontier | serving/hbf_design_space_sweep.py:764-776 | every excluded key is dominated by a returned one |
| ParetoFrontier.FrontierIsMonotone | serving/hbf_design_space_sweep.py:777-782 | along the frontier cost and goodput rise together, with equal cost only at equal goodput, and equal points in the order of their keys |
| ParetoFrontier.FrontierOfNonempty | serving/hbf_design_space_sweep.py:747-782 | a nonempty mapping has a nonempty frontier |
| ParetoFrontier.FrontierIsUnique | serving/hbf_design_space_sweep.py:747-782 | the frontier does not depend on the iteration order of the mapping |
| ParetoFrontier.DominatesExactly | serving/hbf_design_space_sweep.py:747-782 | a different point dominates when it is at least as good in both respects |
| TieSelection.SelectDirectPolicies | serving/hbf_direct_policy_plots.py:590-629 | selects every causal policy tied with the best of its read mode, and ranks each causal one behind those with a higher mean that is not tied |
| TieSelection.RankCounts | serving/hbf_direct_policy_plots.py:612-629 | a rank is one more than the number of causal policies of the mode whose mean is higher and not tied |
| TieSelection.ToleranceIs | serving/hbf_direct_policy_plots.py:169-175 | two means tie within one part in 10^12 of the larger, or 10^-12 |
| TieSelection.SelectedExactlyWhenFirst | serving/hbf_direct_policy_plots.py:595-629 | a causal policy is selected exactly when its rank is 1 |
| TieSelection.RankNeverWorsens | serving/hbf_direct_policy_plots.py:612-629 | a higher mean never has a worse rank under the tolerance |
| TieSelection.EveryModeSelectsSome | serving/hbf_direct_policy_plots.py:595-611 | every read mode selects at least one policy, of rank 1 |
| TieSelection.TiesAreNotTransitive | serving/hbf_direct_policy_plots.py:169-175 | the tolerance relation is not transitive, on concrete means |
| NearestRank.PercentileSplitsSample | serving/live_astra_comparison_collect.py:733-738 | the percentile is a sample value with at least ceil(p*n) values at or below it and fewer strictly below |
| NearestRank.PercentilesMonotone | serving/live_astra_comparison_collect.py:733-738 | percentiles rise with p and stay within the sample |
| NearestRank.ImplementationsAgree | serving/agentic_kv_qwen3_1m_p4d4.py:600-602 | both implementations pick the same element |
| NearestRank.SummaryIsOrdered | serving/live_astra_comparison_collect.py:741-758 | min <= p50 <= p95 <= p99 <= max, the extremes bound every value, the mean lies between them |
| NearestRank.SummaryIsExact | serving/live_astra_comparison_collect.py:741-758 | p50, p95 and p99 are the 50th, 95th and 99th percentile of the sample: at least that share of the values at or below and less than that share below; the mean times the count is the sum |
| NearestRank.SummaryIgnoresOrder | serving/live_astra_comparison_collect.py:741-758 | the summary depends on the multiset of values only |
| RequestRows.ParseRequests | serving/live_astra_comparison_collect.py:636-730 | accepts exactly the rows that are consistent and whose identities are unique |
| RequestRows.ConsistentExactly | serving/live_astra_comparison_collect.py:660-730 | accepted rows are exactly the records of requests with a proper id, natural numbers, and a first token no later than the last; the parsed row keeps them with the exact time per token |
| RequestRows.ExactTpotTest | serving/live_astra_comparison_collect.py:706-717 | the exact-fraction test is post_first <= slo*(output-1), and it implies the floored test |
| RequestRows.FlooredTpotIsWeaker | serving/live_astra_comparison_collect.py:706-717 | the floored test does not imply the exact one, on a concrete row |
| SloCounts.CountRows | serving/live_astra_comparison_collect.py:921-979 | one pass computes the declarative counts and the per-session flags |
| SloCounts.CountSessions | serving/live_astra_comparison_collect.py:940-979 | a session passes exactly when it has rows and all of them pass |
| SloCounts.CrosscheckMetrics | serving/live_astra_comparison_collect.py:905-1052 | accepts exactly when there are resumes and eligible resumes, the limits are positive, every published count describes the rows, and the three latency summaries and the goodput rates are close to those of the rows |
| SloCounts.PassesInIntegers | serving/live_astra_comparison_collect.py:921-979 | a row passes when its first token is in time and the rest took no longer than the limit for each token, without fractions |
| SloCounts.CountsRows | serving/live_astra_comparison_collect.py:921-979 | each published count is the number of rows of its class |
| SloCounts.SessionsExactly | serving/live_astra_comparison_collect.py:940-979 | a session passes exactly when some of its rows were measured and none of them fails |
| SloCounts.FilterKeeps | serving/live_astra_comparison_collect.py:921-979 | the sample of a class has each of its rows as often as it was measured |
| SloCounts.SamplesAre | serving/live_astra_comparison_collect.py:1000-1012 | the samples are the times to the first token and the exact times per later token |
| SloCounts.PassTokensAre | serving/live_astra_comparison_collect.py:921-979 | the passing tokens are the output tokens of the passing rows |
| SloCounts.DescribedOnce | serving/live_astra_comparison_collect.py:980-1000 | the rows determine every published count, so only one set of counts is accepted |
| SloCounts.SummaryMeans | serving/live_astra_comparison_collect.py:1000-1012 | an accepted summary has the size, mean, extremes and percentiles of the values, up to closeness |
| SloCounts.RatesMean | serving/live_astra_comparison_collect.py:1013-1052 | a published rate is accepted exactly when it is close to its count over the window in seconds |
| SloCounts.ClosenessIs | serving/live_astra_comparison_collect.py:882-902 | close means within one part in 10^12 of the larger, or 10^-6 |
| SloCounts.PassesAndFails | serving/live_astra_comparison_collect.py:921-979 | passes plus fails equal the rows, also among resumes |
| SessionOrder.NativeFullDrainSessionOrder | serving/live_astra_comparison_collect.py:1600-1625 | accepts exactly when each session's calls are 0..n-1, and lists each session once by last completion and id |
| SessionOrder.OrderIgnoresRowOrder | serving/live_astra_comparison_collect.py:1600-1625 | the session order is the same for every permutation of the rows |
| SessionOrder.AcceptedRowCount | serving/live_astra_comparison_collect.py:1600-1625 | with unique identities each session's rows are its calls once each, and the row count is the sum of session lengths |
| PrefillDrain.AcceptedAccounting | serving/live_astra_comparison_collect.py:1206-1350 | an accepted report satisfies lifecycle candidates = pool candidates + stale + wait-existing-append, with both fractions in [0,1] |
| PrefillDrain.CollectsExactly | serving/live_astra_comparison_collect.py:1206-1350 | the collector accepts exactly the reports in which the lifecycle outcomes and the other free numbers determine the rest |
| PrefillDrain.DerivedExactly | serving/live_astra_comparison_collect.py:1206-1350 | the derived fractions, milliseconds and GiB, as products with their denominators |
| PrefillDrain.PlotterExactly | serving/live_astra_comparison_plots.py:467-539 | the plotter needs the four metrics, fractions in [0, 1], nothing negative, and nothing without candidates |
| PrefillDrain.LoadDrain | serving/live_astra_comparison_plots.py:467-539 | the plotter's loop accepts exactly the specified values |
| PrefillDrain.PlotterAgreesWithCollector | serving/live_astra_comparison_plots.py:467-539 | what the collector derives passes the plotter exactly unless candidates are zero and logical tokens are not |
| PrefillDrain.DisagreementExists | serving/live_astra_comparison_collect.py:1192-1350 | a concrete accepted report that the plotter rejects |

## Left out

- The schedulers, the router, the KV manager and the HBF lifecycle: only the decisions they hand to the loop
  and the router slice that a commit consults are modelled; how they form batches, place KV and compute
  wakeups is not.
- The backend process, pipes, trace and graph generation, logging, power and occupancy accounting.
- The memory-leak check at normal completion and the abort after repeated polls without a wakeup: a run that
  raises there is a prefix of a modelled run.
- Capability handshakes, argument parsing, and the JSON and CSV text formats.
- The KV manager's own checks on transfers: who owns a job, and its reservation. Of the metadata a callback
  repeats, the arrival, the bytes per lane and the number of lanes are modelled.
- Data-parallel groups in runs with the HBF runtime, whose start-up checks allow one prefill and one decode
  instance only; throughput buckets are flushed in the model without that runtime only.
- Sharing of batch objects between the wave dictionaries and the in-flight lists: the loop models name batches
  by instance and id; BatchPadding covers the update of the shared objects in place.
- Data-parallel members with several endpoints, whose workload pickup depends on the schedulers.
- The per-second scaling of throughput buckets: one constant factor.
- Two sweeps over one output directory at the same time, and worker processes that outlive a crashed sweep.
- The re-check of source code and configuration at the end of a sweep, and the artifact hashes beyond being
  injective.
- Student-t intervals, figures, total-cost tables, and the display order of policies.
- That the runtime's objects release their memory when a completion is settled.
- SloCounts.CrosscheckMetrics: closeness is over exact reals, and the name of the percentile method is not
  compared.
- ServingStranded.NeverStuck: says that a productive callback exists; that the backend eventually delivers what
  it owes, and that a held engine is eventually released, is the backend's and the manager's part.
- StagedPublish.FileSystem.PublishStagedOutputs: when a rename of the rollback itself fails, what is promised is
  the old manifest and a backup of whatever is not restored, because the program gives up there too.
- SweepDirectory.OutputRoot.RunSweep: executes the cells one after another; that a cell whose worker was still
  running when another one failed may be committed as well is part of SweepRuns and the theorems about it.
