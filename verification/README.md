# A model of the distributed runtime's coordination protocols

This project models how the runtime coordinates work, and proves what that coordination keeps.

* **Finite protocol.** Planners, workers, dispatchers and clients share a few tables. Every SQL statement or
  transaction is one atomic step; an event sequence is an interleaving of any number of workers, with crashes and
  with expired claims that an operator puts back. Each claim in progress carries how far its worker got (holding,
  recording, dead-lettering, finalizing) and the claims of its poll that come before it.
* **Continuous protocol.** Reconcilers, supervisors, stale owners and operators acquire, renew, release and emit
  under fencing tokens. An event sequence is an interleaving of their transactions with the passing of time.
* **Reconciler.** The greedy least-loaded assignment over weighted partitions with its lease conditions.
* **Test kits.** The two in-memory kits with their loops, logs and lease table, and the products that run on them.
* **Cancellation scopes.** Trees of sources with reasons, parents and deadlines.

Time is an integer reading of one clock that never goes back. Identifiers are strings. A product handler is its
outcome: a result, or an error of one of the classes the runtime tells apart. JSON documents, digests and envelopes are
strings or parameters.

## How it is laid out

Value modules hold the tables and one function per transaction (`finite_tables`, `continuous_tables`, `outbox`,
`finite_kit`, `continuous_kit`); class modules hold the repository and runtime objects, whose loops and updates are
proved against those functions (`finite_store`, `finite_worker`, `dispatcher`, `continuous_store`, `reconciler`,
`supervisor`, `finite_kit_runtime`, `continuous_kit_runtime`, `cancellation`). The step systems (`finite_protocol`,
`continuous_tables`, `shard_pulse`, `continuous_kit_runs`) are tied to the tables by refinement lemmas, and the guarantees
over whole runs are in `finite_units`, `finite_history`, `finite_attempts`, `finite_polls`, `finite_runs`, `finite_blocking`,
`finite_verdicts`, `finite_traces`, `finite_results`, `leases`, `shard_pulse`, `finite_kit_history`,
`continuous_kit_history`, `continuous_kit_runs` and `continuous_kit_order`. `scheduling`, `greedy` and `balance` hold the
reconciler's pass, whom it chooses and its approximation bound, `continuous_kit_balance` the same for the kit's reconcile;
both count what is held with the sums of `sums`. `retry`, `planning`, `range_sum`, `wakeup_keys`, `pulse_keys` and
`pulse_loop` model the pure and looping product code.

`dafny verify dfyconfig.toml` checks everything.

## Where the code does less than its documentation

* `transition_run` is documented as forward-only but writes whatever status it is given:
  `FiniteRefinement.TransitionIsForwardOnlyIfAsked` gives the exact condition, `FiniteRefinement.TransitionCanGoBack` an input.
* Completing, burying and finalizing are separate transactions, a worker can die between any two of them, and a poll
  executes its claims in one loop that the first stale token leaves. `FinitePolls.ClaimsAreCarriedThroughUnlessDoomed`
  says exactly which claims are still executed, `FiniteBlocking.UnitsAreBlockedBy` exactly which events leave a unit
  behind, and `FiniteVerdicts.VerdictIsPossible` exactly which running runs can still get their verdict, with and without
  an operator who puts units back. Three crashes matter: before the finalize transaction
  (`FiniteTraces.CrashCanStrandARun`), between a permanent failure and its burial
  (`FiniteTraces.CrashCanLeaveAUnitUnburied`), and, without an operator, with a unit in hand
  (`FiniteTraces.CrashCanAbandonAUnit`). A verdict can also be lost, until an operator steps in,
  although nobody crashes: a unit that was put back once is claimed again, and the claims that wait behind its first one
  are never taken up (`FiniteTraces.StaleClaimStrandsThePoll`). Nothing else loses a verdict (`FiniteVerdicts.VerdictIsNeverLost`).
* The retry query takes the first 500 due retries whether or not they already have a wakeup:
  `Dispatching.FullBatchesStarve` says exactly which retries never get one as long as nobody claims.
* Wakeup keys are strings joined by a separator that identifiers may contain: `WakeupKeys.WakeupsOfOneRun` says exactly
  when two wakeups share a row, `WakeupKeys.RetryCanLoseItsWakeup` gives an input.
* Reading the results of a run raises when a succeeded handler returned nothing, and leaves cancelled units out of a
  succeeded run: `FiniteResults.ResultsAreTheAnswers` and `FiniteResults.TotalMissesTheCancelled` give the exact conditions.
* A recording sink that forwards to a delegate which suspends records in the order the delegates return.
  `ContinuousKitOrder.RecordsAreInOrder` says for which runs the recorded tokens stay in order,
  `ContinuousKitOrder.OrderIsSafe` in which states they will whatever follows, and
  `ContinuousKitOrder.SlowDelegateBreaksOrder` gives a run where they do not.
* The worker's report keeps the handler's outcome where an exhausted retry was recorded as permanent:
  `FiniteWorkers.SummaryIsRightUnlessExhausted` gives the exact condition.
* A cancelled verdict of the finite kit need not be final: `FiniteKitHistory.FinalVerdictsStay` and
  `FiniteKitHistory.UnfinishedRunsCanFail` say exactly which runs can still change.

## Model

| member | source | states |
|---|---|---|
| FiniteStore.FiniteStateStore.SubmitRun | src/distributed_runtime/state/finite.py:143-177 | resubmitting returns the row that is there and writes nothing |
| FiniteStore.FiniteStateStore.TransitionRun | src/distributed_runtime/state/finite.py:201-216 | any status may be written to a known run; an unknown run is an error and nothing changes |
| FiniteStore.FiniteStateStore.PlanRun | src/distributed_runtime/control/planner.py:109-167 | the planning loop lands all or nothing; which of the four refusals is raised, unknown run, repeated key, stored plan or run that cannot be planned, in that order |
| FiniteStore.PlanIsAllOrNothing | src/distributed_runtime/control/planner.py:55-167 | an accepted plan persists every unit with its first wakeup and makes the run running in one step, and touches no other unit; a refused plan changes nothing, except that the rows of a run that is not plannable stay |
| FiniteStore.FiniteStateStore.ClaimUnit | src/distributed_runtime/state/finite.py:379-443 | a due unit gets the next token, one more attempt and a fresh expiry; any other call is a miss |
| FiniteStore.FiniteStateStore.ClaimUnits | src/distributed_runtime/state/finite.py:298-377 | a poll claims distinct units on offer to its own revision, as many as the limit allows and none that comes after a unit left behind; each claim carries the plan row, the next attempt, the next token and the expiry, its row is held under them, and no other row moves |
| FiniteStore.PollingIsAnOrder | src/distributed_runtime/state/finite.py:341-341 | the polling order is strict and transitive, so a first unit always exists |
| FiniteStore.FiniteStateStore.CompleteAttempt | src/distributed_runtime/state/finite.py:461-529 | the holder of the current token ends its unit, released with the newest result and error, and the attempt gets the outcome and error it is given unless it already has a row; a stale token raises and both tables are as before |
| FiniteStore.FiniteStateStore.DeadLetter | src/distributed_runtime/state/finite.py:531-548 | fenced by the token; a stale token raises and writes nothing |
| FiniteStore.FiniteStateStore.FinalizeRunIfDone | src/distributed_runtime/state/finite.py:574-610 | a running run whose units are all closed gets its verdict, failed exactly if one is dead-lettered; any other run keeps its row, and the status returned is the stored one |
| FiniteStore.FiniteStateStore.Results | src/distributed_runtime/state/finite.py:561-572 | the results of exactly the succeeded units of the run, in key order, as their rows have them; it raises exactly when one of them was never stored |
| FiniteUnits.StepIsLocal | src/distributed_runtime/state/finite.py:485-529 | an event touches the unit it names and no other; planning only adds fresh units of its own run |
| FiniteUnits.UnitInvStep | src/distributed_runtime/state/finite.py:461-548 | every step keeps fencing, bounds and spacing of every unit, and moves final units only from failed to dead-lettered |
| FiniteHistory.ClosedUnitsNeverReopen | src/distributed_runtime/state/finite.py:485-529 | from any reachable state on, succeeded units keep status and result, dead-lettered and cancelled are absorbing, failed only becomes dead-lettered |
| FiniteHistory.StaleWriteChangesNothing | src/distributed_runtime/state/finite.py:501-529 | a superseded claim is superseded for good: whenever its worker completes or buries, neither the unit, nor the attempts table, nor any run changes |
| FiniteHistory.BurialIsNeverStale | src/distributed_runtime/worker/finite.py:166-175 | between recording a permanent failure and burying it nobody can claim the unit |
| FiniteHistory.AttemptsAreBounded | src/distributed_runtime/state/finite.py:345-357 | in every reachable state attempts, token and number of claims are equal, at most the limit plus the times the unit was put back, and a scheduled retry has an attempt left |
| FiniteHistory.ClaimsAreBounded | src/distributed_runtime/state/finite.py:345-357 | the claims of any units add up to at most the sum of their limits plus the put-backs |
| FiniteHistory.WakeupsAreBounded | src/distributed_runtime/control/dispatcher.py:68-97 | planner and dispatcher together write at most one dispatch row per allowed attempt of a unit, however often they cycle |
| FiniteHistory.RetriesKeepTheirBackoff | src/distributed_runtime/worker/finite.py:157-172 | the claim after k failures comes no earlier than the first claim plus the k backoffs, which is base times 2^k - 1 while uncapped |
| FiniteHistory.RateLimitsAreKept | src/distributed_runtime/worker/retry.py:51-57 | in every later state the claim that follows a rate-limited attempt comes no earlier than the failure plus the wait it asked for, unless the unit was put back by hand |
| FinitePolls.ClaimsAreCarriedThroughUnlessDoomed | src/distributed_runtime/worker/finite.py:85-101 | a claim in hand can still be carried through by nothing but what its worker does if and only if it holds its token where it needs it and no earlier claim of its poll is lost; otherwise it never is, in any future |
| FiniteRuns.VerdictsAreRight | src/distributed_runtime/state/finite.py:574-610 | in every reachable state succeeded means every unit succeeded or was cancelled, failed means all closed and one dead-lettered, and a unit between failure and burial blocks both |
| FiniteRuns.StatusNeverGoesBack | src/distributed_runtime/state/finite.py:595-604 | run status never moves backwards, and only a cancellation overwrites a verdict |
| FiniteRuns.NoLostFinalization | src/distributed_runtime/worker/finite.py:142-175 | unless a worker dies between closing and finalizing, a run whose units are all closed has a worker that will finalize it, and has its verdict once all workers are idle |
| FiniteRuns.StuckForever | src/distributed_runtime/worker/finite.py:142-175 | without such a worker nothing but a cancellation ever ends the run |
| FiniteRuns.VerdictNeedsAFinalizer | src/distributed_runtime/worker/finite.py:142-175 | a run owed a verdict can still get one exactly when some worker has its finalize transaction to do |
| FiniteRefinement.PlanRefines | src/distributed_runtime/control/planner.py:55-87 | planning in the step system is the repository's transaction on the tables |
| FiniteRefinement.ClaimRefines | src/distributed_runtime/state/finite.py:391-443 | so is a claim, and what it starts holds exactly the claim returned |
| FiniteRefinement.RecordRefines | src/distributed_runtime/state/finite.py:485-529 | so is recording an outcome, with its stale-token rollback |
| FiniteRefinement.BuryRefines | src/distributed_runtime/state/finite.py:531-548 | so is dead-lettering |
| FiniteRefinement.FinalizeRefines | src/distributed_runtime/state/finite.py:576-610 | so is finalizing |
| FiniteRefinement.EnqueueRefines | src/distributed_runtime/control/dispatcher.py:74-97 | so is enqueueing a retry wakeup |
| FiniteRefinement.RunsAreTransactions | src/distributed_runtime/state/finite.py:143-610 | the tables after any run of the step system are what the repository makes of empty tables by committing the transactions of that run one after the other, rolling back those that raise |
| FiniteRefinement.PollIsARun | src/distributed_runtime/state/finite.py:298-377 | a poll's one transaction is the run of its claims, each behind those before it, and the worker then holds exactly the claims it was handed, in claim order |
| FiniteRefinement.TransitionCanGoBack | src/distributed_runtime/state/finite.py:201-216 | a succeeded run can be made pending again |
| FiniteBlocking.UnitsAreBlockedBy | src/distributed_runtime/worker/finite.py:85-175 | an event leaves a unit behind that nobody will finish exactly when a worker dies between a permanent failure and its burial, or, without an operator, when it dies with a running unit it would have carried through, or a claim ends early while a running unit of the same poll waits behind it |
| FiniteBlocking.BlockedForever | src/distributed_runtime/worker/finite.py:99-175 | a unit left between failure and burial, or running without a worker that will take it up and without an operator, keeps its row in every future, and its run stays running unless it is cancelled |
| FiniteVerdicts.VerdictIsPossible | src/distributed_runtime/worker/finite.py:85-175 | if no unit of a planned, running run is so left behind, and, all its units being closed, some worker still has its finalize to do, then some future decides it in which no work is lost; otherwise no future without a cancellation ever does |
| FiniteVerdicts.VerdictIsNeverLost | src/distributed_runtime/worker/finite.py:85-175 | unless an event leaves a unit behind or a worker dies before its finalize transaction, every running run can still get its verdict, whatever happened |
| FiniteVerdicts.IdleRunsAreDecided | src/distributed_runtime/worker/finite.py:85-175 | and once no worker has work in hand and no unit is left to claim, every planned run has its verdict or was cancelled |
| FiniteTraces.CrashCanStrandARun | src/distributed_runtime/worker/finite.py:142-148 | a worker that dies after recording and before finalizing leaves the run running in every future without a cancellation |
| FiniteTraces.CrashCanLeaveAUnitUnburied | src/distributed_runtime/worker/finite.py:166-174 | so does one that dies after recording a permanent failure and before burying it |
| FiniteTraces.CrashCanAbandonAUnit | src/distributed_runtime/state/finite.py:328-341 | a worker that dies with a unit in its hands leaves it running until an operator puts it back |
| FiniteTraces.StaleClaimStrandsThePoll | src/distributed_runtime/worker/finite.py:99-101 | nobody dies: the stale record of a poll's first claim raises, and its second unit stays running under a live worker that never takes it up, until an operator puts it back |
| FiniteWorkers.ExecutionLands | src/distributed_runtime/worker/finite.py:103-175 | from the way the handler ended alone: the unit's whole row with its status, result, newest error and exact due time, the outcome and error of the attempt's row, and the verdict of the run, with no other row moving; any other holder raises and writes nothing |
| FiniteWorkers.ExecutionIsFourSteps | src/distributed_runtime/worker/finite.py:103-175 | undisturbed, the worker's program is the protocol's finish, record, bury and finalize |
| FiniteWorkers.FiniteWorker.ExecuteClaimed | src/distributed_runtime/worker/finite.py:103-149 | the sequence of store calls carries the claim out exactly when it still holds its token, and reports the unit with the outcome of what its handler raised |
| FiniteWorkers.SummaryIsRightUnlessExhausted | src/distributed_runtime/worker/finite.py:129-148 | the reported outcome is where the unit landed, except exactly when it was a retry and no attempt was left |
| FiniteWorkers.FiniteWorker.RecordFailure | src/distributed_runtime/worker/finite.py:151-175 | an exhausted retry is recorded as permanent, and a permanent failure is buried before the run is finalized |
| FiniteWorkers.FiniteWorker.HandleEnvelope | src/distributed_runtime/worker/finite.py:68-83 | a wakeup claims exactly when its unit is named and can be claimed, and then carries that claim out and reports it; otherwise nothing changes |
| FiniteWorkers.FiniteWorker.PollOnce | src/distributed_runtime/worker/finite.py:85-101 | whatever others commit before each outcome is recorded, exactly the claims up to the first stale one are carried through; that one raises, writes nothing, and neither later claims are executed nor any report comes back; undisturbed, every claimed unit lands with its row and its attempt's row and is reported in claim order, and nothing else but run verdicts moves |
| FiniteAttempts.AttemptsAreWrittenOnce | src/distributed_runtime/state/finite.py:485-500 | after any history the row of an attempt, once written, is the same in every future |
| FiniteAttempts.StatusIsOnRecord | src/distributed_runtime/state/finite.py:485-529 | in every reachable state a unit's current attempt has a row exactly when the unit has left its worker, that row's outcome is the one its status stands for, its error is the newest error, and every earlier attempt on record asked for a retry |
| Retry.RetryDelayIsAFloor | src/distributed_runtime/worker/retry.py:39-82 | exactly the outcomes that retry carry a delay: the backoff, or the longer wait a rate limit asked for |
| Retry.BackoffDoubles | src/distributed_runtime/worker/retry.py:29-36 | the first wait is the base and each later one twice the one before, up to the cap |
| Retry.BackoffIsMonotoneAndBounded | src/distributed_runtime/worker/retry.py:29-36 | delays never shrink and stay between base and cap |
| Retry.UncappedTotalBackoff | src/distributed_runtime/worker/retry.py:29-36 | while uncapped the waits form the geometric series |
| Dispatching.DispatcherRunner.EnqueueDueRetries | src/distributed_runtime/control/dispatcher.py:50-98 | the loop inserts one wakeup, for its current attempt, for each of the first 500 units whose retry has come due, in time order, changes nothing else and returns their number |
| Dispatching.EnqueueAllAdds | src/distributed_runtime/control/dispatcher.py:74-97 | a batch adds exactly the wakeup of each unit's current attempt and writes no other table |
| Dispatching.CycleIsIdempotent | src/distributed_runtime/control/dispatcher.py:44-98 | after a batch that was not full every due retry has its wakeup, and cycling again at the same instant changes nothing |
| Dispatching.FullBatchesStarve | src/distributed_runtime/control/dispatcher.py:50-68 | as long as nobody claims, a retry never gets its wakeup, however often and whenever the dispatcher cycles, exactly when as many retries as the batch holds come due before it |
| Dispatching.EarlyRetriesAreWoken | src/distributed_runtime/control/dispatcher.py:50-98 | a retry with fewer others due with or before it is woken by every cycle from its time on |
| Dispatching.BatchIsARun | src/distributed_runtime/control/dispatcher.py:74-97 | a batch is a run of the protocol's enqueue events |
| WakeupKeys.WakeupsConverge | src/distributed_runtime/control/dispatcher.py:91-97 | exactly which wakeups of any runs share an outbox row |
| WakeupKeys.WakeupsOfOneRun | src/distributed_runtime/control/planner.py:147-153 | within one run two wakeups share a row exactly when one unit is called like the retry of the other |
| WakeupKeys.RetryCanLoseItsWakeup | src/distributed_runtime/control/dispatcher.py:91-97 | for instance unit u:retry:1 keeps the first retry of unit u from getting a row |
| Outbox.OutboxStore.Insert | src/distributed_runtime/state/outbox.py:49-80 | a new key gets a pending row under the next id, never tried; a replayed insert returns the id that is there and only raises the fencing token; ids stay unique |
| Outbox.OutboxStore.PendingMessages | src/distributed_runtime/state/outbox.py:89-100 | exactly the first pending rows in id order, up to the limit |
| Outbox.OutboxStore.Dispatch | src/distributed_runtime/state/outbox.py:126-146 | each of the first pending rows is tried once in id order and ends published or undeliverable with one more attempt, every other column and row is kept, and the count is the number of successes |
| Outbox.DrainIsAtLeastOnce | src/distributed_runtime/state/outbox.py:137-146 | at every point of the loop, so wherever it may crash, a row marked published was sent and at most one row was sent and not marked |
| ContinuousStore.ContinuousStateStore.SyncPartitions | src/distributed_runtime/state/continuous.py:163-215 | row by row: a wanted row carries the weight and payload it was last discovered with, a new one starts free, an inactive one is free again, and an unwanted one that could be leased loses owner and lease; what is returned are the rows after it |
| ContinuousStore.ContinuousStateStore.Partitions | src/distributed_runtime/state/continuous.py:217-226 | each row of the deployment once, as the table has it, in id order, and none missing |
| ContinuousStore.ContinuousStateStore.AcquireLease | src/distributed_runtime/state/continuous.py:228-269 | granted exactly for a leasable row that is free, expired or already the owner's, under the next token; refused otherwise with nothing changed |
| ContinuousStore.ContinuousStateStore.RenewLease | src/distributed_runtime/state/continuous.py:271-289 | extends exactly the leases emit would accept |
| ContinuousStore.ContinuousStateStore.ReleaseLease | src/distributed_runtime/state/continuous.py:291-307 | succeeds exactly for the current owner and token, after which the handle no longer matches |
| ContinuousStore.ContinuousStateStore.ReleasePartition | src/distributed_runtime/state/continuous.py:309-330 | succeeds exactly when the expected token is the row's |
| ContinuousStore.ContinuousStateStore.SetPartitionStatus | src/distributed_runtime/state/continuous.py:332-352 | a stale owner cannot move the status |
| ContinuousStore.ContinuousStateStore.Emit | src/distributed_runtime/state/continuous.py:354-392 | accepted exactly for the current owner, the current token and an unexpired lease: a new key gets a pending row with the given destination and envelope and the lease's token, a replay keeps all but the token; a rejected emission writes nothing |
| ContinuousStore.ContinuousStateStore.RecordCheckpoint | src/distributed_runtime/state/continuous.py:394-428 | tests owner and token but not the expiry, and stores what it accepts like an emission |
| ContinuousStore.EmissionsAreDrained | src/distributed_runtime/state/outbox.py:89-146 | a newly accepted emission is in the next batch of a drain that is not full, with its destination and envelope |
| Leases.SyncRow | src/distributed_runtime/state/continuous.py:171-207 | what a discovery does to any one row: a wanted row takes the weight and payload of the last desired partition of its id and keeps identity, token and lease, unwanted leasable rows lose owner and lease, any other row stays, an empty discovery retires nothing |
| Leases.LeasesAreOneWay | src/distributed_runtime/state/continuous.py:228-392 | a handle that was ever returned and that emit would refuse is refused in every later state |
| Leases.OneOwnerPerToken | src/distributed_runtime/state/continuous.py:243-255 | each token of a partition is granted once to one owner, and no handle ever returned has a newer token than the one emit accepts |
| Leases.TokensNeverGoDown | src/distributed_runtime/state/continuous.py:243-255 | fencing tokens never go down and rows are never deleted |
| Leases.CoherenceStep | src/distributed_runtime/state/continuous.py:332-352 | a step keeps owned, leased and assigned-or-running the same thing exactly unless it writes another status through a matching lease |
| Leases.RowsStayCoherent | src/distributed_runtime/worker/continuous.py:157-157 | so as long as supervisors only report running, that holds in every reachable row |
| PulseKeys.DiscoveredShardsAreDistinct | examples/continuous_example/example_stream/workloads/shard_pulse.py:52-60 | discovery returns shard:0 to shard:n-1 with their payloads and the default weight, and never two partitions of one id |
| PulseKeys.PulseKeysAreDistinct | examples/continuous_example/example_stream/workloads/shard_pulse.py:71-75 | the dedup key of a pulse names its deployment, shard and tick, whatever the deployment is called |
| PulseLoop.RunPartition | examples/continuous_example/example_stream/workloads/shard_pulse.py:62-76 | the loop emits the ticks in order up to the first that finds its context cancelled or its lease refused, and writes nothing for that one; each emitted tick has its own pending row under the next id, or keeps the row it had but for a newer token, and no other row moves |
| PulseLoop.LoopIsARun | examples/continuous_example/example_stream/workloads/shard_pulse.py:62-76 | the loop is a run of the step system |
| PulseLoop.ReplayAddsNothing | examples/continuous_example/example_stream/workloads/shard_pulse.py:65-66 | running the loop again under any lease of the partition adds no row and changes no id and no envelope |
| ShardPulse.EmissionLogIsTakeoverSafe | examples/continuous_example/example_stream/workloads/shard_pulse.py:62-76 | with any owners, takeovers, restarts and stale tasks a shard's rows are exactly ticks 0 to k-1 for some k, one row a tick, ids growing with the tick, each with what the first accepted emission of its tick said and the largest token any of them had; a task that finished proves the log complete |
| ShardPulse.StaleOwnersNeverEmitLater | src/distributed_runtime/state/continuous.py:364-392 | once a newer owner's emission was accepted no older token's ever is |
| Reconciliation.WorkerRegistry.Heartbeat | src/distributed_runtime/state/workers.py:69-105 | revives any known worker except a draining one, which keeps its mark, and changes the revision exactly when one is given |
| Reconciliation.WorkerRegistry.MarkStaleDead | src/distributed_runtime/state/workers.py:122-134 | exactly the workers whose heartbeat is too old become dead, and their number is returned |
| Reconciliation.WorkerRegistry.ListActive | src/distributed_runtime/state/workers.py:147-155 | exactly the active workers, in id order |
| Reconciliation.Reconciler.LoadOf | src/distributed_runtime/control/reconciler.py:105-117 | the loop gives every live worker the sum of the weights of the rows it owns that are assigned or running |
| Reconciliation.Reconciler.AssignAll | src/distributed_runtime/control/reconciler.py:67-97 | the assignment loop with its load map and counters is the pass |
| Reconciliation.Reconciler.Reconcile | src/distributed_runtime/control/reconciler.py:45-103 | an active deployment with a live worker ends with every row held by a live owner under a fresh lease or held unexpired as before, and no other deployment moves; every row that was taken went to a worker that then carried the least, counted from the assigned and running rows it owned, the first by id among those; from scratch nobody ends more than the heaviest weight, less its own share of it, above the average, and unit weights end at most one partition apart; otherwise only the discovery is applied; the counts returned are the workers found dead and the inactive, free and expired rows the discovery left |
| Scheduling.LeastLoadedIsLeast | src/distributed_runtime/control/reconciler.py:83-83 | the choice is a live worker no other comes before by load and id |
| Scheduling.LeastLoadedIsUnique | src/distributed_runtime/control/reconciler.py:83-83 | and does not depend on the order of the workers |
| Text.PrecedesIsByCodePoint | src/distributed_runtime/control/reconciler.py:83-83 | equal loads are decided by the first character in which two ids differ, and a proper prefix comes first |
| Scheduling.VisitAllRows | src/distributed_runtime/control/reconciler.py:71-97 | the pass grants exactly the free and the expired rows, each to a live worker, and leaves all others alone |
| Scheduling.CountersAreExact | src/distributed_runtime/control/reconciler.py:90-97 | one counter counts the free rows of the snapshot, the other those whose lease had run out |
| Scheduling.CountIsOfTheTable | src/distributed_runtime/control/reconciler.py:61-62 | counting the rows that were read counts the rows of the table |
| Scheduling.PassIsARun | src/distributed_runtime/control/reconciler.py:84-89 | a pass is a sequence of lease transactions, so the lease guarantees hold across it |
| Scheduling.PassConverges | src/distributed_runtime/control/reconciler.py:71-97 | after one pass a row is settled exactly unless a dead owner still held it unexpired, and such a row is untouched |
| Scheduling.TwoPassesConverge | src/distributed_runtime/control/reconciler.py:71-97 | a second pass after the leases of dead workers ran out leaves no exception |
| Scheduling.PassIsIdempotent | src/distributed_runtime/control/reconciler.py:71-97 | repeating the pass at the same instant changes nothing exactly when the lease time is not negative or the first pass had nothing to take |
| Greedy.LoadsAreHoldings | src/distributed_runtime/control/reconciler.py:90-93 | a pass that starts from the summed weights of the assigned and running rows of each worker ends with a load map that is at least what each live worker then holds, and equal to it when no live owner's lease had run out |
| Greedy.PassIsGreedy | src/distributed_runtime/control/reconciler.py:71-97 | every free or expired row of the pass goes to a live worker whose starting load and earlier grants of the pass sum to the least, ties by id |
| Balance.SpreadIsKept | src/distributed_runtime/control/reconciler.py:83-93 | the spread ends at most at the larger of its start and the heaviest weight granted |
| Balance.GrahamBound | src/distributed_runtime/control/reconciler.py:69-97 | from scratch with m workers nobody owns more than (2 - 1/m) times the heaviest worker of any other assignment |
| Balance.UnitWeightsSpreadEvenly | src/distributed_runtime/control/reconciler.py:69-97 | with unit weights two workers end at most one partition apart |
| Reconciliation.ReconcileMeetsGraham | src/distributed_runtime/control/reconciler.py:60-101 | a reconcile call from scratch with m live workers leaves nobody owning more than (2 - 1/m) times the heaviest worker of any other assignment |
| Supervision.ContinuousSupervisor.ReapTasks | src/distributed_runtime/worker/continuous.py:116-128 | exactly the unfinished tasks whose row still carries their token survive, and every other unfinished one is cancelled |
| Supervision.ContinuousSupervisor.StartTasks | src/distributed_runtime/worker/continuous.py:130-157 | every owned row without a task gets one under its own token and is reported running; no other row changes |
| Supervision.ContinuousSupervisor.RenewLeases | src/distributed_runtime/worker/continuous.py:159-163 | every tracked lease that has not run out is extended, and exactly the others are cancelled |
| Supervision.ContinuousSupervisor.Tick | src/distributed_runtime/worker/continuous.py:93-165 | afterwards the tracked tasks are exactly the rows this instance owns under their tokens, in the snapshot and in the table; the log grew by exactly one stop for each unfinished task whose row moved, one start for each new task and one refusal for each lease that had run out, in that order, so displaced tasks were cancelled before their replacement started; the tick is a sequence of this instance's lease transactions |
| Supervision.SupervisorsNeverShareAPartition | src/distributed_runtime/worker/continuous.py:134-139 | of all the tracked leases of a partition, whenever any supervisors read their rows, equal tokens mean the same lease, and while one is accepted every other has an older token and is refused, now and in every future |
| Planning.ValidatePlan | src/distributed_runtime/finite/contracts.py:193-230 | accepts exactly the plans with distinct keys, matching records and no cancellation, and otherwise reports the first problem with its details |
| Planning.RecordsAreByPosition | src/distributed_runtime/finite/contracts.py:104-110 | the record of a unit is its position, key and digest |
| Planning.DriftIsExact | src/distributed_runtime/finite/contracts.py:225-229 | a retried planner passes exactly when it emits the same units in the same order, as far as the digest can tell |
| RangeSum.PlanRange | examples/finite_example/example_product/workloads/range_sum.py:33-45 | the loop emits one unit per chunk of the range, named by its bounds, with the default timeout and attempts |
| RangeSum.ChunksTile | examples/finite_example/example_product/workloads/range_sum.py:37-45 | the chunks cover the range left to right without gap or overlap, for all integer bounds, and all but the last hold ten thousand terms |
| RangeSum.ChunkKeyNamesItsStart | examples/finite_example/example_product/workloads/range_sum.py:40-40 | a unit key determines where its chunk starts, also for negative bounds |
| RangeSum.PlansAreAccepted | examples/finite_example/example_product/workloads/range_sum.py:33-45 | every such plan passes validation, and every key is a legal name |
| RangeSum.AggregateSubtotals | examples/finite_example/example_product/workloads/range_sum.py:58-70 | the sum of the subtotals, refused exactly when some result is not one |
| RangeSum.RangeSumIsExact | examples/finite_example/example_product/workloads/range_sum.py:33-70 | after any schedule of failures, retries, clock advances, cancellations and redeliveries, a run reported succeeded aggregates to the exact sum of the range, in closed form the number of its terms times the middle |
| FiniteResults.ResultsAreTheAnswers | src/distributed_runtime/state/finite.py:561-572 | after any history the client reads what the handlers of the succeeded units returned, in key order, and it raises exactly when one of them returned nothing |
| FiniteResults.TotalMissesTheCancelled | examples/finite_example/example_product/workloads/range_sum.py:48-70 | on the repository, under any interleaving, the total read of a succeeded range-sum run is the sum of the range less what its cancelled units would have added, so it is right exactly when their chunks add up to zero |
| FiniteKitRuntime.FiniteRuntimeTestKit.Submit | src/distributed_runtime/testing/finite.py:121-157 | exactly the plans with distinct keys are queued, each unit ready with no attempt made; a rejected plan leaves no run but uses up its number |
| FiniteKitRuntime.FiniteRuntimeTestKit.Invoke | src/distributed_runtime/testing/finite.py:254-355 | one invocation writes its record and, unless it is a duplicate, the unit's new state |
| FiniteKitHistory.InvocationLands | src/distributed_runtime/testing/finite.py:254-355 | an invocation adds one record and one attempt and touches no other unit; the record says how the handler ended, a first delivery lands its unit as documented for that, due again exactly when a rate limit or the backoff asks, and a duplicate leaves the unit as it was |
| FiniteKitRuntime.FiniteRuntimeTestKit.Step | src/distributed_runtime/testing/finite.py:159-166 | invokes the first unit on offer in run order and then plan order, and returns nothing exactly when none is |
| FiniteKitRuntime.FiniteRuntimeTestKit.RunPending | src/distributed_runtime/testing/finite.py:168-173 | ends because every turn spends an attempt; with the clock fixed it invokes exactly the units due at the call, each once, in run order then plan order, leaving none due, and logs each run's records in order |
| FiniteKitRuntime.FiniteRuntimeTestKit.Redeliver | src/distributed_runtime/testing/finite.py:175-193 | succeeds exactly when one unit matches and is completed, and is then one duplicate call; otherwise it says which of the three conditions failed and nothing changes |
| FiniteKitRuntime.FiniteRuntimeTestKit.CancelRun | src/distributed_runtime/testing/finite.py:195-201 | every unfinished unit of the run is cancelled, finished ones stay |
| FiniteKitRuntime.FiniteRuntimeTestKit.View | src/distributed_runtime/testing/finite.py:213-237 | the log of a run, its verdict, and the results of its succeeded units in plan order |
| FiniteKitHistory.VerdictIsOfTheUnits | src/distributed_runtime/testing/finite.py:213-224 | what each of the four verdicts says of the units: succeeded exactly when all did, failed exactly when one failed for good, cancelled and running exactly as the remaining units and the cancellation call for |
| FiniteKitHistory.StepTakesTheFirst | src/distributed_runtime/testing/finite.py:161-166 | the unit a step takes is ready or waits for a retry, its time has come, and no such unit comes before it in run order and then plan order |
| FiniteKitRuntime.SettledIsNotDue | src/distributed_runtime/testing/finite.py:279-313 | a unit just invoked is never due again at the same instant |
| FiniteKitHistory.RunIsOk | src/distributed_runtime/testing/finite.py:254-313 | under any schedule completed units keep status and result, and a unit that may still run has an attempt left |
| FiniteKitHistory.FinalVerdictsStay | src/distributed_runtime/testing/finite.py:213-224 | a run that failed, or whose units are all completed, has the same verdict in every future |
| FiniteKitHistory.UnfinishedRunsCanFail | src/distributed_runtime/testing/finite.py:213-224 | any other run can still fail, also one reported cancelled |
| FiniteKitHistory.RedeliveryOnlyLogs | src/distributed_runtime/testing/finite.py:175-193 | a redelivery adds one duplicate record and changes no status, result, due time or verdict, whatever its handler does |
| FiniteKitHistory.DeliverySpendsBudget | src/distributed_runtime/testing/finite.py:254-313 | a delivery spends at least one attempt of the budget, however it ends |
| FiniteKitHistory.DeliveriesAreBounded | src/distributed_runtime/testing/finite.py:159-173 | over any schedule the deliveries that reach a unit are at most the attempts the plans allow |
| ContinuousKitRuntime.FakeLeaseManager.Acquire | src/distributed_runtime/testing/continuous.py:80-109 | raises exactly when the partition has an unexpired lease; otherwise grants the next token |
| ContinuousKitRuntime.FakeLeaseManager.Renew | src/distributed_runtime/testing/continuous.py:111-117 | extends exactly the current leases |
| ContinuousKitRuntime.FakeLeaseManager.Release | src/distributed_runtime/testing/continuous.py:119-125 | removes exactly the lease its handle authorizes |
| ContinuousKitRuntime.FakeLeaseManager.OwnerOf | src/distributed_runtime/testing/continuous.py:138-147 | the owner exactly while the lease is unexpired |
| ContinuousKitRuntime.RecordingSink.Emit | src/distributed_runtime/testing/continuous.py:182-213 | a stale lease is rejected, a seen id ignored, a raising delegate leaves the id used and nothing recorded |
| ContinuousKitRuntime.DiscoverPartitions | src/distributed_runtime/continuous/contracts.py:189-197 | rejects exactly the discoveries with a repeated id, and sorts the others by id |
| ContinuousKitRuntime.ContinuousRuntimeTestKit.Deploy | src/distributed_runtime/testing/continuous.py:306-318 | every deployment gets a new id |
| ContinuousKitRuntime.ContinuousRuntimeTestKit.LeastLoadedInstance | src/distributed_runtime/testing/continuous.py:491-497 | the chosen instance holds the least summed weight of assigned and running partitions of the deployment, the first by id among those |
| ContinuousKitRuntime.ContinuousRuntimeTestKit.AssignPartition | src/distributed_runtime/testing/continuous.py:416-428 | cancels the displaced context and grants a lease under a new one, or reports what the lease manager raised |
| ContinuousKitRuntime.ContinuousRuntimeTestKit.FreePartition | src/distributed_runtime/testing/continuous.py:479-489 | cancels the context, forgets its running task and gives the lease up |
| ContinuousKitRuntime.ContinuousRuntimeTestKit.Harvest | src/distributed_runtime/testing/continuous.py:468-477 | releases the lease in the manager and leaves the handle on the partition |
| ContinuousKitRuntime.ContinuousRuntimeTestKit.TickPartition | src/distributed_runtime/testing/continuous.py:430-452 | one turn of the tick loop: harvest, start or renew, drop what is lost |
| ContinuousKitRuntime.ContinuousRuntimeTestKit.TickDeployment | src/distributed_runtime/testing/continuous.py:430-452 | every partition of the deployment is ticked once, with the outcome its task and its lease call for |
| ContinuousKitRuntime.ContinuousRuntimeTestKit.Reconcile | src/distributed_runtime/testing/continuous.py:326-348 | fails only for an unknown deployment or a repeated id; afterwards every desired partition of an active deployment is recorded as discovered and settled under a live context, each that needed a holder went to an instance that carried the least at its turn, every other partition was told to stop and gave its lease up, and a deployment nobody held ends spread within its heaviest partition, so within one when all weigh one |
| ContinuousKitBalance.ReconcileIsGreedy | src/distributed_runtime/testing/continuous.py:326-348 | at its turn a partition goes to an instance for which what it was given so far and what it still holds of the partitions to come sum to the least, ties by id |
| ContinuousKitBalance.ReconcileSpreadsEvenly | src/distributed_runtime/testing/continuous.py:491-497 | where nobody held anything no two instances end further apart than the heaviest partition |
| ContinuousKitRuntime.ContinuousRuntimeTestKit.ExpireLease | src/distributed_runtime/testing/continuous.py:363-380 | the lease is expired at once and the context cancelled |
| ContinuousKitRuntime.ContinuousRuntimeTestKit.Drain | src/distributed_runtime/testing/continuous.py:382-389 | the deployment stops being active and every context it handed out is cancelled |
| ContinuousKitRuntime.ContinuousRuntimeTestKit.RunFor | src/distributed_runtime/testing/continuous.py:350-361 | a run of whole ticks, the last one possibly shorter, each followed by one tick of every deployment; the clock ends exactly the given time later and leases only move forward |
| ContinuousKitHistory.UnsettledIsFree | src/distributed_runtime/testing/continuous.py:343-347 | a partition that a reconcile would assign has no unexpired lease |
| ContinuousKitHistory.TickOneMeans | src/distributed_runtime/testing/continuous.py:430-452 | a finished task gives its lease up; an assigned partition with a current lease is started, a running one renewed, and one whose lease is lost is told to stop |
| ContinuousKitHistory.ReconcileNeverRaises | src/distributed_runtime/testing/continuous.py:326-348 | acquire never raises inside a reconcile; settled partitions keep their lease, others get a token nobody had, unwanted ones give theirs up, and other deployments do not move |
| ContinuousKitRuns.LeasesHaveTheirHolder | src/distributed_runtime/testing/continuous.py:80-162 | in every reachable state an unexpired lease belongs to an assigned or running partition holding exactly that handle |
| ContinuousKitRuns.OneLiveContext | src/distributed_runtime/testing/continuous.py:416-428 | at most one context of a partition is not cancelled |
| ContinuousKitRuns.HoldersHaveTheLiveContext | src/distributed_runtime/testing/continuous.py:416-452 | in every reachable state a partition that holds its lease on an active deployment has a live context, the only one |
| ContinuousKitRuns.KitLeasesAreOneWay | src/distributed_runtime/testing/continuous.py:111-162 | a handle of the kit that is refused now is refused in every later state |
| ContinuousKitRuns.NothingIsRecordedTwice | src/distributed_runtime/testing/continuous.py:182-213 | through one sink no (deployment, partition, stable id) is recorded twice and emissions are admitted in token order, also while delegates suspend |
| ContinuousKitOrder.RecordsAreInOrder | src/distributed_runtime/testing/continuous.py:202-213 | the recorded tokens of every partition are in order exactly when no delegate of the run returned for an emission a newer owner had overtaken |
| ContinuousKitOrder.OrderIsSafe | src/distributed_runtime/testing/continuous.py:182-213 | in a reachable state with ordered records, as long as no later delegate suspends, the order holds in every future exactly when each emission still with a delegate has a draining deployment and nobody newer recorded, in flight or leased |
| ContinuousKitOrder.RecordedTokensNeverDecrease | src/distributed_runtime/testing/continuous.py:182-213 | recorded tokens of a partition never decrease if delegates that suspend return while the lease is current |
| ContinuousKitOrder.SlowDelegateBreaksOrder | src/distributed_runtime/testing/continuous.py:202-213 | a delegate that suspends across a takeover breaks that order |
| Cancellation.CancellationSource.Child | src/distributed_runtime/core/lifecycle.py:171-187 | a fresh scope below this one, whose path is its own step and this scope's path |
| Cancellation.CancellationSource.Cancel | src/distributed_runtime/core/lifecycle.py:163-169 | a call that newly cancels a scope cancels exactly it and the scopes below it, at every time from then on; any other call changes nothing |
| Cancellation.CancelledByThePath | src/distributed_runtime/core/lifecycle.py:145-151 | a scope is cancelled exactly when some scope on its path has a reason or a passed deadline |
| Cancellation.CancelledForGood | src/distributed_runtime/core/lifecycle.py:145-161 | cancellation is never undone as the clock advances, and a cancelled scope always names a reason |
| Cancellation.ReasonIsTheNearest | src/distributed_runtime/core/lifecycle.py:153-161 | the reason named is that of the nearest scope on the path cancelled by name, wherever deadlines passed |
| Cancellation.ReasonOfADeadline | src/distributed_runtime/core/lifecycle.py:153-161 | without one it is the deadline, exactly when some deadline of the path has passed |
| Cancellation.DeadlineIsTheEarliest | src/distributed_runtime/core/lifecycle.py:171-187 | a scope's deadline is one that was asked for on its path to the root, and none of them is earlier |
| Cancellation.DeadlinesAlone | src/distributed_runtime/core/lifecycle.py:145-187 | without explicit reasons it is cancelled from that deadline on and not before |

## Left out

- FiniteStore.FiniteStateStore.PlanRun: one planning generation per run, and no unit document or digest, because the generation column never changes on this path and digests only matter to the comparison modelled in `Planning`.
- FiniteStore.FiniteStateStore.ClaimUnits: rows another transaction has locked are not skipped, because each transaction is one step; text columns sort by code point.
- FiniteWorkers.FiniteWorker.PollOnce: others commit between two executions of its claims, not between the transactions of one execution; those interleavings are in the step system.
- Reconciliation.Reconciler.Reconcile: one reading of the clock serves the whole pass, and nobody else writes between its statements; skew between the local and the database clock is not modelled. `Scheduling.PassIsARun` covers the lease guarantees under interference.
- Supervision.ContinuousSupervisor.Tick: one undisturbed pass at one clock reading for the one deployment a supervisor serves; finished tasks are a parameter. `Supervision.SupervisorsNeverShareAPartition` covers interleavings.
- PulseLoop.RunPartition: nobody else writes between two emissions of this method; `ShardPulse.EmissionLogIsTakeoverSafe` covers every interleaving.
- ContinuousKitRuntime.RecordingSink.Emit: its delegate does not suspend; delegates that do are events of `ContinuousKitRuns`, and what they do to the order is in `ContinuousKitOrder`.
- ContinuousKitRuntime.ContinuousRuntimeTestKit.RunFor: what the tasks do between ticks is a parameter, and float seconds are integers.
- ContinuousKitRuns.LeasesHaveTheirHolder: calls to the lease manager's acquire from outside the kit are excluded, because they would hand out leases no partition knows.
- In the finite step system dedup keys of dispatch rows are structured values; `WakeupKeys` says when their joined strings coincide.
- Recovery of crashed finite claims: the claim queries only take ready and retry-scheduled rows, so an expired running row moves only by the operator event.
- Finalizing an empty plan: only a worker that handled a unit calls finalize.
- Delivery past a sender failure: failed outbox rows are never picked up again.
- The finite kit does not refine the worker: its rate-limit wait and its permanent-failure status differ.
- Checkpoints beyond their fencing test, replanning in the kit, stop_all of the supervisor, the graceful-shutdown phases and the admin client are out of scope.
- Database pooling, Pub/Sub, object storage, HTTP servers, configuration, deployment, logging and metrics.
- Canonical JSON, SHA-256, semantic versions, URIs, envelopes and execution ids: payloads and digests are parameters.
- Task scheduling inside handlers and the timing of task cancellation: a handler is one outcome.
- The migration SQL is not part of this model; the uniqueness of keys follows docs/design/state-schema.md.
