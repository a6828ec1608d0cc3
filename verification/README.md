# Verified model of the gateway and scheduler core

A Dafny model of the parts of Qiskit Serverless' gateway and scheduler where state, interleaving or an optimised
algorithm decides whether a job is run, billed and reported correctly, with proofs for all inputs, all interleavings and
all answers of the services around them. `dafny verify dfyconfig.toml` checks everything.

| files | what they model |
|---|---|
| `ExecutorModel`, `ExecutorInvariant`, `ExecutorTheorems`, `ExecutorLiveness`, `ExecutorProgress`, `ExecutorCycle` | the background executor: a step system in which every lock region and every `Future` operation is one step, its invariant, the theorems about whole runs, about rest and about how rest is reached, and the `_Cycle` object whose methods are those steps |
| `JobTransitions`, `JobRow`, `SubmitStopRace` | the status of a job with its events, billing and mirror rows; the row and the callers' stale copies as objects; one submitter racing any number of stoppers |
| `CircuitBreaker`, `FleetsBreakers` | the breaker against its history, and the registries asked before every submit and cancel |
| `OutboxModel`, `OutboxDrain`, `OutboxSteps`, `OutboxDestination` | the delivery loop of the outbox with its budget, retries, parking and per-region breakers: the rows, the queries, the drain as moves on values, and the object whose methods are those moves |
| `OutboxSends`, `OutboxPaths`, `OutboxBreakers`, `OutboxOnce`, `OutboxLife` | the theorems about one send, about every drain, about how often a row is tried, and about the whole life of a channel |
| `FairShare` | the fair-share query against plain round robin |
| `JobTimeline`, `TimelineMerge`, `TimelinePage`, `StableSort` | the sweep-line concurrency curve against pairwise overlaps, the merge of the runners' curves, and the number the page shows |
| `ArgumentsSchema` | `uniqueItems` in one pass against pairwise JSON equality, and the two explicit-stack walks |
| `Wrappers`, `Collections` | shared datatypes and facts |
| `Regex`, `Crn`, `BlockedResources`, `BlockedAccountEvents` | the CRN parser against the regular expression used in the database, the job filter against `blocks`, and the events that fill the table |
| `FleetCleanup` | the batch, the bounded memory of failures and the breaker records of a cleanup cycle |

Clocks, the kill signal, the answers of Code Engine, of the senders and of the database are parameters: a theorem holds
for every value they can take. Classes are used where the source updates an object in place; each of their methods is
proved equal to a function on values, and the theorems are about those functions.

## Where the code and its documentation differ

- `specs/OUTBOX.md:179-181` says that the final usage event is built for every eligible job that ends, even one cancelled
  while still queued. `stop` ends such a job with a workload row only. `StoppedWhileQueuedIsNotBilled` shows it.
  `UsageRowExactlyUnlessEndedDirectly` gives the exact condition over every race of a submit with stops: the promise holds
  exactly when no stopper's last transaction met its guard, and `StopCommitsExactlyWhen` says that the guard is exact.
- The timeline page takes its "peak overlap" from the highest entry of the merged curve, and the points are sorted by time
  only. When a job starts at the very moment another one ends and was created before it, an entry in the middle of the tie
  counts both. `PageCanShowMore` shows it. `PageShowsLargestMeeting` says what the number always is, and
  `PageIsRightExactlyWhen` gives the exact condition under which it is the real peak.
- `region_crn_regex` says that any region value is matched literally "as `Crn.parse` reads it". This holds for a region
  that a CRN can have (`RegexIsParse`). A row whose region is empty or holds a colon makes the job filter stop jobs that
  `blocks` does not block: `OverblockedExample` shows it, and `FilterIsBlocksExactlyWhen` gives the exact condition.
- The comment in `_drain_region` says that a row that fails is not due again within the tick, so one tick makes at most one
  attempt per row. `TriesOnceExactlyWhen` gives the exact condition on the Config entries: the first wait is at least the
  budget plus the longest time from a check of the budget to the query after it, or the budget alone when rows are sent one
  by one (or one failure pauses the region for the rest of the tick). `SomeDrainRepeats` builds a whole drain that tries a
  row twice for every other setting.

## Model

| member | source | states |
|---|---|---|
| `ExecutorInvariant.StepKeepsInv` | gateway/core/services/background_executor.py:185-446 | every step of every thread (submit, replace, caller cancel, callback, discard, take, start, run, count, release, resolve, shutdown) keeps the invariant: one owner per task, queues hold exactly the waiting tasks, counters equal the ledger, no Future operation raised, wake-ups suffice |
| `ExecutorInvariant.InitialInv` | gateway/core/services/background_executor.py:189-200 | a new cycle satisfies the invariant, for any positive number of pools and any number of threads |
| `ExecutorInvariant.RunKeepsInv` | gateway/core/services/background_executor.py:185-446 | the invariant holds in every state of every run |
| `ExecutorTheorems.Conservation` | gateway/core/services/background_executor.py:202-316 | in every reachable state, per pool, accepted tasks (plus the threads between counting and releasing) are queued + running + completed + failed + canceled + replaced, and queued + running never exceeds the limit |
| `ExecutorTheorems.FuturesNeverRaise` | gateway/core/services/background_executor.py:279-316 | no `set_running_or_notify_cancel` or `set_result` ever finds a state it rejects; a replaced task never runs; a task everyone is done with is finished exactly when it was counted completed or failed |
| `ExecutorTheorems.CountedOnce` | gateway/core/services/background_executor.py:309-316 | the outcome a task is counted under never changes in a later state, and neither do its pool and key |
| `ExecutorTheorems.NoLostWakeup` | gateway/core/services/background_executor.py:228-271 | while some thread sleeps un-notified, the cycle is not stopping and at most as many tasks wait as notified threads are still to re-check, although a replacement sends no notify |
| `ExecutorTheorems.BoundedOvertaking` | gateway/core/services/background_executor.py:253-277 | while a pool has waiting tasks and none running, at most (number of pools - 1) tasks of other pools start before one of its own |
| `ExecutorTheorems.WouldAcceptIsExact` | gateway/core/services/background_executor.py:391-402 | `would_accept` is true exactly when a submit at that instant adds a task; a refused submit changes nothing |
| `ExecutorLiveness.StepKeepsLive` | gateway/core/services/background_executor.py:185-446 | every step keeps what lets a waiter be released: a task handed to a worker is held by a thread, after a shutdown only cancelled tasks wait, and a thread leaves only after a shutdown |
| `ExecutorLiveness.EveryoneIsReleased` | gateway/core/services/background_executor.py:428-446 | with at least one thread, in every reachable state where no thread, callback, replacer or remover has a step to make, every accepted task is counted and its future is finished, or notified of its cancellation |
| `ExecutorProgress.InternalStepLowers` | gateway/core/services/background_executor.py:202-316 | every step the executor makes by itself (thread, callback, replacer, remover) lowers a measure of the work that is left |
| `ExecutorProgress.MeasureIsBounded` | gateway/core/services/background_executor.py:202-316 | that measure is at most eight per task and seven per thread |
| `ExecutorProgress.PauseIsBounded` | gateway/core/services/background_executor.py:259-316 | while the callers make no step, the executor makes at most as many steps as the measure says, however its threads are scheduled |
| `ExecutorProgress.AtRestExactlyWhen` | gateway/core/services/background_executor.py:259-316 | the executor is at rest if and only if none of its own steps is enabled |
| `ExecutorProgress.RestIsReached` | gateway/core/services/background_executor.py:259-316 | every run can be continued by steps of the executor alone, no more than the measure, to a state at rest |
| `ExecutorProgress.WaitEnds` | gateway/core/services/background_executor.py:259-316 | from any state of any run on, while the callers make no step, either a step of the executor is enabled or every accepted task is counted and its future resolved, and at the latest after as many steps as the measure says it is |
| `ExecutorLiveness.ResolvedAfterRelease` | gateway/core/services/background_executor.py:279-316 | the future of a task that ran is resolved only after its slot is free, so `status` right after a wait already counts it |
| `ExecutorModel.NextPool` | gateway/core/services/background_executor.py:253-257 | no pool with waiting tasks has fewer running, or as few and an older service, than the one picked; none is picked exactly when nothing waits |
| `ExecutorModel.WaitingIndex` | gateway/core/services/background_executor.py:220-226 | the first position of the queue with the key, or none exactly when there is none |
| `ExecutorCycle.Cycle.constructor` | gateway/core/services/background_executor.py:189-200 | the object starts in the initial state of the step system |
| `ExecutorCycle.Cycle.FindWaiting` | gateway/core/services/background_executor.py:220-226 | the loop finds the first waiting task with the key |
| `ExecutorCycle.Cycle.Replace` | gateway/core/services/background_executor.py:228-241 | the new task takes the place of the old one, which is counted canceled or replaced |
| `ExecutorCycle.Cycle.Append` | gateway/core/services/background_executor.py:244-247 | the new task goes to the end of its queue and one sleeping thread is notified |
| `ExecutorCycle.Cycle.Enqueue` | gateway/core/services/background_executor.py:228-247 | the lock region of `submit` is the submit step, and it accepts exactly when `would_accept` says so |
| `ExecutorCycle.Cycle.ForgetIfCancelled` | gateway/core/services/background_executor.py:202-218 | the callback's lock region is the forget step |
| `ExecutorCycle.Cycle.CancelHoldingLock` | gateway/core/services/background_executor.py:404-413 | a cancel made with the re-entrant lock held removes, counts and notifies the task before the region ends |
| `ExecutorCycle.Cycle.DiscardWaiting` | gateway/core/services/background_executor.py:404-413 | `discard` is the discard step and reports whether a task waited under the key |
| `ExecutorCycle.Cycle.CancelAll` | gateway/core/services/background_executor.py:428-446 | the inner loop of `shutdown` cancels every task of a copy of the queue |
| `ExecutorCycle.Cycle.CancelQueues` | gateway/core/services/background_executor.py:428-446 | the outer loop does so for every pool |
| `ExecutorCycle.Cycle.NotifyAll` | gateway/core/services/background_executor.py:428-446 | every sleeping thread is notified |
| `ExecutorCycle.Cycle.ShutDown` | gateway/core/services/background_executor.py:428-446 | the lock region of `shutdown` is the shutdown step |
| `ExecutorCycle.Cycle.PickPool` | gateway/core/services/background_executor.py:253-257 | the loop computes `NextPool` |
| `ExecutorCycle.Cycle.EnterLock` | gateway/core/services/background_executor.py:259-277 | the lock region of `_work` is the locking step of a thread: leave, sleep, or take the first task of the pool picked |
| `ExecutorCycle.Cycle.CountOutcome` | gateway/core/services/background_executor.py:309-316 | the counter of `_finish` is the counting step |
| `ExecutorCycle.Cycle.ReleaseSlot` | gateway/core/services/background_executor.py:309-316 | the lock region of `_finish` is the releasing step |
| `ExecutorCycle.RunningIsHeldSlots` | gateway/core/services/background_executor.py:415-426 | in every state of the invariant the running tasks of the pools are exactly the slots that threads hold |
| `ExecutorCycle.Cycle.Status` | gateway/core/services/background_executor.py:415-426 | in every reachable state queued, running and free slots add up to the limit, the idle workers are exactly the threads without a slot, and a free slot is reported exactly when a task without a key would be accepted |
| `JobTransitions.TransactKeepsInv` | gateway/core/services/job_transitions.py:194-304 | every transaction, committed or rolled back, keeps the event, billing and mirror invariant of a job |
| `JobTransitions.RunInv` | gateway/core/services/job_transitions.py:74-85 | the invariant holds after any sequence of transactions decided on stale copies |
| `JobTransitions.TerminalIsAbsorbing` | gateway/core/services/job_transitions.py:74-85 | once a job has ended its status, its outbox rows and its mirror never change |
| `JobTransitions.BilledAtMostOnce` | gateway/core/services/job_transitions.py:194-263 | in every reachable state: at most one usage row, one fee row, one RUNNING event, one terminal event, and no row before the end |
| `JobTransitions.EndingStep` | gateway/core/services/job_transitions.py:171-235 | only the direct end of `stop` and the `to_*` methods end a job, and what each of them writes |
| `JobTransitions.BilledExactly` | gateway/core/services/job_transitions.py:43-55 | from its end on a job has a usage row exactly when a `to_*` method ended it and it is billable, and a fee row exactly when it also has a provider and a size and succeeded or ran |
| `JobTransitions.StoppedWhileQueuedIsNotBilled` | specs/OUTBOX.md:179-181 | a billable job stopped while queued ends without a usage row |
| `JobTransitions.UsageOwedToEveryEndedJob` | gateway/core/services/job_transitions.py:171-179 | a billable ended job has its usage row if and only if it was not ended by the direct end of `stop` |
| `JobTransitions.MirrorIsExclusive` | gateway/core/services/job_transitions.py:296-304 | a mirrored job is active with its mirror row and no workload row ever, or ended without it and with exactly one workload row carrying its final status; an unmirrored one never gets any |
| `JobRow.Row.constructor` | gateway/core/services/job_transitions.py:74-85 | a new row is queued, without a fleet and without outbox rows |
| `JobRow.Row.ChangeStatus` | gateway/core/services/job_transitions.py:237-263 | the status is checked against the row and not against the caller's copy; a refusal changes neither |
| `JobRow.Row.EnqueueWorkload` | gateway/core/services/job_transitions.py:296-304 | the mirror row becomes a workload row of the current status, or the payload is rejected |
| `JobRow.Row.ToTerminal` | gateway/core/services/job_transitions.py:194-235 | the writes in sequence amount to one transaction: everything, or the old row |
| `JobRow.Row.StopDirectly` | gateway/core/services/job_transitions.py:171-179 | the job ends only while its fleet is the one the caller knew; otherwise nothing is written and the copy adopts the fleet |
| `JobRow.Row.Advance` | gateway/core/services/job_transitions.py:105-131 | the moves between active statuses are one transaction each |
| `JobRow.Row.RecordFleet` | gateway/scheduler/schedule.py:194-195 | the fleet is recorded on the row and the copy without any status write |
| `SubmitStopRace.StepKeepsInv` | gateway/scheduler/schedule.py:158-242 | every step of the submitter, of any stopper and of the poller keeps the invariant that ties the row, the fleets and the cancels |
| `SubmitStopRace.RunInv` | gateway/scheduler/schedule.py:158-242 | the invariant holds in every state of every interleaving |
| `SubmitStopRace.StopEndsOnlyWithoutFleet` | gateway/core/services/job_transitions.py:163-179 | `stop` commits STOPPED only on a row without a fleet or with a fleet whose cancel found nothing |
| `SubmitStopRace.SubmitNeverLosesItsFleet` | gateway/scheduler/schedule.py:194-242 | a submit that created a fleet ends with the row pointing at it, and either moved to PENDING by this call or with a cancel by this call, whose failure is on record as FLEET_LEFT_RUNNING; it is the only fleet of the job |
| `SubmitStopRace.DirectEndLeavesNoOrphan` | gateway/core/services/job_transitions.py:169-179 | a job that a stopper ended directly is STOPPED, and once the submit is over a cancel of its fleet was asked for |
| `SubmitStopRace.UsageRowExactlyUnlessEndedDirectly` | gateway/core/services/job_transitions.py:171-179 | in every interleaving an ended billable job has its usage row if and only if no stopper made its last transaction under the guard of the direct end |
| `SubmitStopRace.StopCommitsExactlyWhen` | gateway/core/services/job_transitions.py:169-179 | the last transaction of `stop` commits STOPPED if and only if the database does not fail, the row's fleet is the copy's, the job is active, and a mirrored job has its CRN and its program; otherwise the row is as it was, and no other step ends a job directly |
| `SubmitStopRace.EndedDirectlyByStop` | gateway/core/services/job_transitions.py:163-179 | in every interleaving a job was ended directly if and only if some stopper's last transaction met that guard, and then the row had no fleet or one whose cancel found nothing |
| `SubmitStopRace.RaceKeepsBilling` | gateway/core/services/job_transitions.py:194-304 | the billing and mirror invariant holds through the race |
| `CircuitBreaker.RunTracks` | gateway/scheduler/tasks/circuit_breaker.py:31-59 | the two fields say exactly when the last streak of failures was completed, or how many failures there are since |
| `CircuitBreaker.OpenExactlyWhilePausing` | gateway/scheduler/tasks/circuit_breaker.py:31-39 | for every threshold and pause, the breaker is open at a moment if and only if the latest streak was completed less than the pause ago |
| `CircuitBreaker.NoCallDuringPause` | gateway/scheduler/tasks/circuit_breaker.py:31-59 | the check that every recorded call follows was made outside every pause |
| `CircuitBreaker.LazyResetIsUnobservable` | gateway/scheduler/tasks/circuit_breaker.py:31-39 | two histories with the same records answer the same, however often they were asked in between |
| `CircuitBreaker.BreakerObject.Open` | gateway/scheduler/tasks/circuit_breaker.py:31-39 | `is_open` with its reset in place |
| `CircuitBreaker.BreakerObject.Success` | gateway/scheduler/tasks/circuit_breaker.py:41-43 | a success clears the count |
| `CircuitBreaker.BreakerObject.Failure` | gateway/scheduler/tasks/circuit_breaker.py:45-49 | a failure counts, and opens a closed breaker at the threshold |
| `CircuitBreaker.BreakerObject.constructor` | gateway/scheduler/tasks/circuit_breaker.py:25-29 | a breaker starts closed |
| `FleetsBreakers.RegionBreakers.constructor` | gateway/scheduler/schedule.py:76-80 | a registry starts without breakers |
| `FleetsBreakers.RegionBreakers.GetBreaker` | gateway/scheduler/schedule.py:82-86 | the region's own object, built closed the first time it is asked for |
| `FleetsBreakers.RegionBreakers.Paused` | gateway/scheduler/schedule.py:88-90 | the answer and the reset of the region's breaker, and of no other |
| `FleetsBreakers.RegionBreakers.Record` | gateway/scheduler/schedule.py:163-170 | the region's breaker learns of a success or a failure, and no other |
| `FleetsBreakers.RegionBreakers.PausedRegions` | gateway/scheduler/schedule.py:92-94 | exactly the regions asked for so far whose breaker is open; afterwards each of these breakers is as one more check leaves it, and nothing else changed |
| `FleetsBreakers.AskedInIsSound` | gateway/scheduler/schedule.py:92-94 | after such a round of checks every history is sound and has the records it had, and the open breakers were exactly those in a pause |
| `FleetsBreakers.AsksIsSound` | gateway/scheduler/schedule.py:88-90 | a region is paused if and only if a streak of failures in its own history was completed less than the pause ago, and asking adds no record |
| `FleetsBreakers.TellsIsSound` | gateway/scheduler/schedule.py:163-170 | a record after an answer that the region is not paused keeps every history disciplined |
| `FleetsBreakers.SubmitsOutsidePauses` | gateway/scheduler/schedule.py:150-192 | a submit leaves if and only if neither COS nor Code Engine is in a pause in its region; going through is a success of both, an error to retry is a failure of the dependency it came from only, and a refusal is neither |
| `FleetsBreakers.Submit` | gateway/scheduler/schedule.py:150-192 | on the two registries of objects a submit does exactly that |
| `FleetsBreakers.CancelsOutsidePauses` | gateway/scheduler/schedule.py:256-291 | a cancel leaves if and only if there is something to cancel and Code Engine is not in a pause; it is a failure exactly when Code Engine could not be reached, and a success whenever it answered |
| `FleetsBreakers.Cancel` | gateway/scheduler/schedule.py:256-291 | on the registry of objects a cancel does exactly that |
| `OutboxModel.WaitIsBoundedAndGrows` | gateway/scheduler/tasks/outbox_destination.py:209-226 | for all integers in the Config entries the wait lies in 1..86400 seconds and never shrinks as attempts grow |
| `OutboxModel.EveryRowHasOneFate` | gateway/scheduler/tasks/outbox_destination.py:108-207 | over any run of inserts and attempts, an inserted row is either still in the table with no attempt written as confirmed, or gone with exactly one |
| `OutboxModel.ParkedForGood` | gateway/scheduler/tasks/outbox_destination.py:201-207 | a parked row is never tried, changed or deleted again |
| `OutboxModel.DrainExtendsRun` | gateway/scheduler/tasks/outbox_destination.py:83-129 | the attempts of a drain extend a run, and the table is their replay |
| `OutboxDrain.Fetch` | gateway/scheduler/tasks/outbox_destination.py:115-124 | a batch holds due rows of the region once each, ordered by attempts, age and key, at most a batch, and every row left out comes later |
| `OutboxDrain.FreshRowsGoFirst` | gateway/scheduler/tasks/outbox_destination.py:116-118 | a batch that holds a row that failed before holds every due row that never failed |
| `OutboxDrain.PendingRegions` | gateway/scheduler/tasks/outbox_destination.py:98-106 | exactly the regions with a due row, once each, by the age of their oldest due row |
| `OutboxDrain.DueShrinks` | gateway/scheduler/tasks/outbox_destination.py:115-129 | a send that tries something leaves fewer rows due at the same moment |
| `OutboxDrain.OtherRegionsShrink` | gateway/scheduler/tasks/outbox_destination.py:108-129 | a send in one region makes no row of another region due |
| `OutboxSends.SendsBatchDone` | gateway/scheduler/tasks/outbox_destination.py:140-164 | a batch is one call and one attempt on each of its rows, deleted exactly when the answer to that call confirms it, else kept for at least the first wait |
| `OutboxSends.SendsUpToDone` | gateway/scheduler/tasks/outbox_destination.py:166-199 | one by one, a first part of the batch is tried in order, each row in a call of its own and written as that call was answered; the rest is untouched |
| `OutboxPaths.PathIsDrained` | gateway/scheduler/tasks/outbox_destination.py:83-129 | everywhere in a drain, with rows inserted at any moment, attempts and carried rows match one to one: each attempt is on a row of its own call, as that call was answered, and a row that failed rests for its wait |
| `OutboxPaths.PathReplays` | gateway/scheduler/tasks/outbox_destination.py:83-129 | everywhere in a drain the attempts are legal, and the table is what they make of the rows it began with and those inserted meanwhile |
| `OutboxPaths.DrainSettlesEveryRegion` | gateway/scheduler/tasks/outbox_destination.py:83-96 | a drain that neither the kill signal nor the budget ended leaves every region that had rows due with its breaker open or none of those rows due any more, whatever was inserted meanwhile |
| `OutboxBreakers.PathKeepsBreakers` | gateway/scheduler/tasks/outbox_destination.py:108-199 | through every drain each breaker is what a disciplined history makes of it |
| `OutboxBreakers.CallsLeaveOutsidePauses` | gateway/scheduler/tasks/outbox_destination.py:115-174 | the checks let a call through only outside the pauses of its region |
| `OutboxBreakers.TurnShrinks` | gateway/scheduler/tasks/outbox_destination.py:108-129 | why the region loop ends for every wait and budget: a turn that goes on has budget left, and uses time or leaves fewer rows due |
| `OutboxOnce.PathTriesOnce` | gateway/scheduler/tasks/outbox_destination.py:108-129 | under the condition on the Config entries every drain, with any clock, table, sender and rows inserted meanwhile, tries every row at most once |
| `OutboxOnce.SomeDrainRepeats` | gateway/scheduler/tasks/outbox_destination.py:111-119 | for every other setting there is a whole drain, with checks, budget and queries, that tries a row twice |
| `OutboxOnce.TriesOnceExactlyWhen` | gateway/scheduler/tasks/outbox_destination.py:83-129 | every drain tries every row at most once if and only if the budget is not positive, or the first wait is at least the budget plus the lag of the queries (in batches), or at least the budget or the first failure pauses the region for it (one by one) |
| `OutboxLife.LifeRuns` | gateway/scheduler/tasks/outbox_destination.py:83-129 | any life of a channel, of rows inserted at any moment, drains that end or die anywhere, and any use of the shared breakers by other channels between them, is a run of events with the table and the attempts of the channel |
| `OutboxLife.LifeIsHeard` | gateway/scheduler/tasks/outbox_destination.py:108-199 | everywhere in such a life attempts and carried rows match one to one, each attempt written as its call was answered |
| `OutboxLife.GoneExactlyWhenConfirmed` | gateway/scheduler/tasks/outbox_destination.py:108-199 | in every life of a channel an inserted row is gone if and only if the sender answered a call that carried it with its delivery, and there is at most one such call |
| `OutboxLife.ParkedExactlyWhenRejected` | gateway/scheduler/tasks/outbox_destination.py:184-207 | a row is parked if and only if the sender rejected it for good in a call that carried it |
| `OutboxDestination.Destination.constructor` | gateway/scheduler/tasks/outbox_destination.py:37-54 | a destination starts without breakers, calls and attempts |
| `OutboxDestination.Destination.AskBreaker` | gateway/scheduler/tasks/outbox_destination.py:56-60 | the breaker of the region is made on demand and asked, and no other is touched |
| `OutboxDestination.Destination.ShouldContinue` | gateway/scheduler/tasks/outbox_destination.py:131-138 | the drain goes on exactly while no kill signal was received and the deadline is ahead |
| `OutboxDestination.Destination.MayGoOn` | gateway/scheduler/tasks/outbox_destination.py:115 | the breaker is asked first, then the kill signal and the budget |
| `OutboxDestination.Destination.SendBatch` | gateway/scheduler/tasks/outbox_destination.py:140-164 | the object does the batch send of the step system |
| `OutboxDestination.Destination.SendRow` | gateway/scheduler/tasks/outbox_destination.py:175-199 | a delivery deletes the row and is a success, a retryable error keeps it and is a failure, a permanent one parks it and is neither |
| `OutboxDestination.Destination.SendOneByOne` | gateway/scheduler/tasks/outbox_destination.py:166-199 | the object does the one-by-one send of the step system |
| `OutboxDestination.Destination.Turn` | gateway/scheduler/tasks/outbox_destination.py:115-129 | one turn of the region loop is a move of the step system |
| `OutboxDestination.Destination.DrainRegion` | gateway/scheduler/tasks/outbox_destination.py:108-129 | the region loop is a path of such moves that ends for every clock, kill signal and sender |
| `OutboxDestination.Destination.Drain` | gateway/scheduler/tasks/outbox_destination.py:83-96 | what the object does is a drain of the step system, from its first reading of the clock to its end, so every theorem about drains is about it |
| `FairShare.OrderByIsRounds` | gateway/scheduler/schedule.py:370-375 | sorting by rank and creation lists the rounds one after the other |
| `FairShare.CapacityFilterIsImplied` | gateway/scheduler/schedule.py:362-376 | dropping the users at capacity before ranking drops nothing the budget would keep, and changes no rank |
| `FairShare.RankBoundIsHarmless` | gateway/scheduler/schedule.py:370-376 | the ranks past the number of slots never reach the selection |
| `FairShare.SelectIsRoundRobin` | gateway/scheduler/schedule.py:342-376 | the query with both pre-filters selects the first `slots` jobs of plain round robin over all budget-respecting jobs |
| `FairShare.RoundsOfAuthor` | gateway/scheduler/schedule.py:342-376 | the rounds hold exactly as many jobs of a user as the queue, the budget and the one-per-user rule of Ray allow |
| `FairShare.SelectionRespectsLimits` | gateway/scheduler/schedule.py:342-376 | running and selected jobs of a user stay within the limit, a user at the limit gets none, and a Ray user at most one |
| `FairShare.SelectionInRounds` | gateway/scheduler/schedule.py:342-376 | an allowed job of an earlier round, or created earlier in the same round, is selected whenever a later one is |
| `FairShare.SelectionLength` | gateway/scheduler/schedule.py:342-376 | the selection has min(slots, sum of the users' usable jobs) jobs |
| `JobTimeline.ConcurrencySeries` | gateway/api/domain/job_timeline.py:159-176 | the loops compute the curve |
| `JobTimeline.EntryCountsActiveJobs` | gateway/api/domain/job_timeline.py:159-176 | every entry counts the jobs started and not ended once its point is processed, so none is negative |
| `JobTimeline.SettledIsConcurrency` | gateway/api/domain/job_timeline.py:159-176 | the settled value at any moment is the number of jobs with start <= t < end |
| `JobTimeline.SeriesEndsAtZero` | gateway/api/domain/job_timeline.py:159-176 | the curve ends at zero |
| `JobTimeline.FindOverlaps` | gateway/api/domain/job_timeline.py:139-156 | a job's record holds exactly the forward jobs of its runner that it overlaps |
| `JobTimeline.PeakIsLargestClique` | gateway/api/domain/job_timeline.py:139-176 | the settled peak of a runner's curve is the size of the largest set of jobs that overlap pairwise in the records |
| `JobTimeline.EntriesOvershootExactlyOnTouch` | gateway/api/domain/job_timeline.py:159-176 | every entry counts only jobs that overlap pairwise if and only if no job starts as another, later in the list, ends |
| `JobTimeline.RawPeakIsLargestMeeting` | gateway/api/domain/job_timeline.py:159-176 | the highest entry of a curve is the size of the largest set of jobs that pairwise overlap, or touch with the one that starts earlier in the list |
| `JobTimeline.PeakShownExactlyWhen` | gateway/api/domain/job_timeline.py:159-176 | the highest entry of a runner's curve is its settled peak if and only if every such set is matched by one, as large, of jobs that overlap pairwise |
| `JobTimeline.PeakShownCanOvershoot` | gateway/api/domain/job_timeline.py:159-176 | two jobs that never run together give a curve that shows two |
| `TimelineMerge.MergeSeriesMax` | gateway/api/domain/job_timeline.py:179-200 | the loop computes the merged curve |
| `TimelineMerge.MergedIsHighest` | gateway/api/domain/job_timeline.py:179-200 | at every moment the merged curve settles to the maximum of the curves |
| `TimelineMerge.ChartIsBusiestRunner` | gateway/api/domain/job_timeline.py:320-342 | at every moment the chart shows the number of jobs running on the busiest runner |
| `TimelinePage.MergedPeak` | gateway/api/domain/job_timeline.py:179-200 | the highest entry of the merged curve is the highest one of the curves it merges |
| `TimelinePage.PageShowsLargestMeeting` | gateway/api/domain/job_timeline.py:329-342 | the number shown is the size of the largest set of jobs of one runner that pairwise overlap or touch out of order |
| `TimelinePage.PageNeverShowsLess` | gateway/api/domain/job_timeline.py:329-342 | the number shown is never below the peak of a runner |
| `TimelinePage.PageCanShowMore` | gateway/api/domain/job_timeline.py:329-342 | for two touching jobs the page shows two and the real peak is one |
| `TimelinePage.PageIsRightExactlyWhen` | gateway/api/domain/job_timeline.py:329-342 | the number shown is the real peak if and only if every set of jobs of a runner that overlap or touch out of order is matched by one, as large, of jobs of one runner that `find_overlaps` recorded as overlapping pairwise |
| `ArgumentsSchema.KeyIsEquality` | gateway/api/domain/arguments_schema.py:221-241 | two comparison keys are equal if and only if the values are equal as section 4.2.2 of JSON Schema Core 2020-12 defines it |
| `ArgumentsSchema.UniqueItemsFails` | gateway/api/domain/arguments_schema.py:244-261 | the one-pass loop reports an error if and only if two items are equal, as section 6.4.3 of JSON Schema Validation 2020-12 requires |
| `ArgumentsSchema.ExceedsMaxDepth` | gateway/api/domain/arguments_schema.py:157-173 | the walk over an explicit stack ends and answers whether the height is over 64 |
| `ArgumentsSchema.ExceedsMaxNodes` | gateway/api/domain/arguments_schema.py:176-198 | the walk with its early exit answers whether the number of objects and booleans is over 200 |
| `Crn.JoinUndoesSplit` | gateway/core/domain/crn.py:43 | splitting at the colons loses nothing |
| `Crn.SplitUndoesJoin` | gateway/core/domain/crn.py:43 | and joining parts without a colon loses nothing |
| `Crn.RegexMeaning` | gateway/core/domain/crn.py:49-54 | for any region, the expression finds a CRN if and only if the region and a colon follow its fifth colon |
| `Crn.RegexIsParse` | gateway/core/domain/crn.py:33-54 | for a non-empty region without a colon, the expression finds exactly the CRNs parsed to that region |
| `Crn.RegexFindsFirstPart` | gateway/core/domain/crn.py:33-54 | for any region, a CRN that is found is parsed to the part of the region before its first colon |
| `Crn.ParsedRegionIsFound` | gateway/core/domain/crn.py:33-54 | a CRN that is parsed is found by its own region |
| `BlockedResources.BlockedIsFiltered` | gateway/core/models.py:590-615 | every job that `blocks` blocks is selected, whatever the regions of the rows, in both modes |
| `BlockedResources.FilterIsBlocks` | gateway/core/models.py:576-615 | for rows that carry a region, the filter selects a job if and only if `blocks` holds on its account, plan, subscription and parsed region |
| `BlockedResources.FilterIsBlocksExactlyWhen` | gateway/core/models.py:576-615 | the two agree on every job if and only if blocking is off, regions are not compared, or for every row the first part of its region is a region also blocked for the same resource |
| `BlockedResources.ColonInRegionOverblocks` | gateway/core/models.py:596-611 | a single row whose region holds a colon selects a job that is not blocked |
| `BlockedResources.OverblockedExample` | gateway/core/models.py:596-611 | for instance the region `us:east` |
| `BlockedAccountEvents.ParseEvent` | gateway/core/services/blocked_account_events.py:71-103 | exactly the valid events are read, with the account prefix gone; each other one is refused for the first field that is not text or too long, else for what is missing, else for its flag |
| `BlockedAccountEvents.Service.Handle` | gateway/core/services/blocked_account_events.py:34-69 | a valid event puts in or takes out its one row; any other event leaves the table as it was and says why |
| `BlockedAccountEvents.TableMirrorsLog` | gateway/core/services/blocked_account_events.py:34-69 | a row is in the table if and only if the last word of the log on it is a block |
| `BlockedAccountEvents.ReplayChangesNothing` | gateway/core/services/blocked_account_events.py:34-69 | applying any suffix of the log again leaves the table unchanged |
| `BlockedAccountEvents.OrderOfOthersIsFree` | gateway/core/services/blocked_account_events.py:34-69 | two logs with the same events per row, however interleaved, give the same table |
| `BlockedAccountEvents.NeighboursCommute` | gateway/core/services/blocked_account_events.py:34-69 | events of different (resource, reason, region) commute anywhere in a log |
| `BlockedAccountEvents.BlockedWhileSomeRowIs` | gateway/core/services/blocked_account_events.py:34-69 | without regional matching a resource is blocked if and only if some reason and region of it was blocked last: an unblock lifts only its own |
| `FleetCleanup.JobsToClean` | gateway/scheduler/tasks/free_fleets_resources.py:87-114 | no job twice, within budget, only terminal held jobs of regions that are not paused and not given up; each project over quota gives its oldest jobs, as many as it needs and the budget leaves, then the oldest past the window fill the rest |
| `FleetCleanup.ListedExactlyWhenOver` | gateway/scheduler/tasks/free_fleets_resources.py:135-147 | a project is listed if and only if it is a named one that holds the threshold or more, with what it has to lose |
| `FleetCleanup.NeededIsEnough` | gateway/scheduler/tasks/free_fleets_resources.py:135-147 | deleting the needed count leaves threshold - 1 |
| `FleetCleanup.CycleGetsUnder` | gateway/scheduler/tasks/free_fleets_resources.py:60-114 | when the deletes of its share land, a project with enough deletable jobs and budget ends the cycle below the threshold |
| `FleetCleanup.GivenUpExactlyAtThird` | gateway/scheduler/tasks/free_fleets_resources.py:164-176 | a failed attempt gives a job up if and only if it is the third one counted |
| `FleetCleanup.MemoryStaysOk` | gateway/scheduler/tasks/free_fleets_resources.py:153-176 | over the deletes of a cycle both dictionaries hold at most 500 entries, are disjoint, and counts stay in 1..2 |
| `FleetCleanup.Cleanup.constructor` | gateway/scheduler/tasks/free_fleets_resources.py:35-45 | a task starts with nothing remembered |
| `FleetCleanup.Cleanup.MakeRoom` | gateway/scheduler/tasks/free_fleets_resources.py:167-169 | the oldest keys go until there is room for one more |
| `FleetCleanup.Cleanup.Count` | gateway/scheduler/tasks/free_fleets_resources.py:164-176 | one failure is counted in place, within the bounds |
| `FleetCleanup.Cleanup.DeleteAndStamp` | gateway/scheduler/tasks/free_fleets_resources.py:153-162 | a fleet that is gone is stamped on its job and forgotten, one that is not is counted, and an error changes nothing |
| `FleetCleanup.Cleanup.DeleteBatch` | gateway/scheduler/tasks/free_fleets_resources.py:64-81 | the batch is tried in order up to the kill signal or the budget (the first always goes), skipping exactly the regions that failed before; one failure record per region that fails |
| `FleetCleanup.Cleanup.RecordAnswers` | gateway/scheduler/tasks/free_fleets_resources.py:83-85 | every region has at most one record: a failure exactly when a delete failed, else a success exactly when one landed |
| `FleetCleanup.Cleanup.Run` | gateway/scheduler/tasks/free_fleets_resources.py:60-85 | one whole cycle: the batch of both passes, the deletes in its order, the stamps, one record per region, and the memory in bounds before and after |

## Left out

- Database, ORM and lock internals: a row, a row lock, a commit and a rollback are modelled; optimistic locking is not.
- SQL's three-valued `NOT IN` on a job without a region, in the exclusion of paused regions: a region is excluded exactly when it is in the list.
- Ray jobs in the transitions: their status is assigned directly (`gateway/scheduler/schedule.py:58`). Admin edits of a status are not modelled either.
- Extra columns written with a status change (`job_fields`): they contain neither `status` nor `fleet_id`.
- Errors of the database in the submitter's own writes, and a crash between creating a fleet and recording its id.
- SelectIsRoundRobin: `created` is the place of a job in one order by creation time; a database that breaks ties differently in the ranking and in the sorting is not modelled.
- Rows inserted between two attempts of one send: a row is inserted between two moves of a drain, and the rows of a send are fixed by its query. The object's own `Drain` runs on a table that nobody else changes meanwhile; the drains of the step system do not.
- Two drains at once that share a breaker: other channels use the breakers between the drains of a channel, as the scheduler runs one drain after the other.
- The monotonic clock and the wall clock of a drain: one clock that never goes back stands for both. A record of a success and a batch without failed rows read it once more than the source does. Config entries do not change during a drain or a breaker history.
- Destination: its breakers are values in a map, not objects; `RegionBreakers` keeps them as objects. The rows of a batch are written one by one, where the source deletes the confirmed ones first.
- A batch sender that confirms keys outside its batch, and last_error, its length and its NUL characters.
- The history of the cleanup's own breakers: `FleetCleanup` states what each region's breaker is told in a cycle. `check_job_timeout` and `first_cancel_refusal` are not modelled.
- Reported numbers: metrics, gauges and log lines, except the outcome counters of the executor.
- `compute_timeline`, the SVG and the HTML of the timeline page.
- NaN, infinities and the rounding of floats in JSON values; the jsonschema library, reference resolution and the isolated child process.
- Columns of a blocked row that are too long for a region or a reason, which the database refuses.
- Code Engine, COS, Kafka, IAM and Runtime API calls beyond their answers; `BalanceFillerJobs`; views, serializers and the client.
