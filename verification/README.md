# Verified model of the event bus

A Dafny model of the in-process event bus and of the shutdown, scheduling and receipt logic around it, with proofs
of what they guarantee in every run.

## What is modelled

**Deliveries of one provider.** `Prelude`, `Bags`, `Queues`, `OutstandingBudgets`, `Deliveries` and `Fanout` hold the
values: events, lanes, in-flight deliveries with settlement tokens, the provider-wide budget of count and weight, and
each critical section under a queue lock as a function. A ledger beside each queue records every copy ever admitted and
what became of it; `panicked` records that an assertion of the source or an unchecked sum would have failed. A copy is
named by its publish call and its queue.

**The objects behind them.** `OutstandingBudget`, `LocalQueueState`, `Settlement` and `LocalQueue` are the mutable
objects of the source with their loops and in-place updates. `LocalQueueState` keeps lanes, the round-robin ready list
and the lazily pruned delay heap; its invariant shows that the scheduling index never loses a lane, although lane
versions restart when a lane is created again. `LocalQueue` refines the functions the step systems are built from.

**The synchronous provider as a step system.** `LocalBus` interleaves any number of threads between the critical
sections of publish, subscribe, receive, settle, close, topic idle wait and shutdown. `Next` is total: a step that is
not enabled changes nothing, so a run is any sequence of steps. `LocalBusInvariant`, `LocalBusSteps` and
`LocalBusTheorems` hold the invariant, one lemma for each step and the guarantees over all runs. `BlockingReceives` has
the loop in which a receive sleeps on the condition variable of its queue.

**The asynchronous provider as a step system.** `AsyncBus` does the same for tasks that are polled: registration with
`AsyncSignal` before looking, draining a registry and then calling the wakers one by one, the receive timer
(`ReceiveTimers`), the clock, and the registry lock that is held across the drain check and the final sweep.
`LockOrder` treats the operations as sequences of critical sections and proves that no interleaving deadlocks.

**Shutdown coordination.** `ShutdownCoordinators` has the coordinator object, `ShutdownRuns` all runs of tickets,
blocking waits, futures and completions, `ShutdownTheorems` what ticket holders may rely on.

**The scheduler shell.** `Schedulers` and `SchedulerPool` model the cancellation fence and the handler pool, including
the failure path of `start`.

**Pure parts.** `Decimal` and `LocalConfigs` for the configuration round trip, `Receipts` for the classification of
acknowledgements, `FanoutReceipts` for the link between a receipt and the copies a publish left in the queues.

## Three promises that need a condition

- `mode(g)` only moves from graceful to immediate exactly when generation `g` has begun (`ModeTightensExactly`);
  `ModeMayLoosen` is a run that shows why.
- A join returns with all earlier jobs finished exactly when a worker was alive at the moment it stopped the pool, or
  nothing was queued then, or the pool was started in between (`JoinFinishesJobs`); `JoinWithoutWorkers` is a run in
  which it fails.
- The stop flag a join sets stays set over a continuation exactly when no failing start reaches its clean-up there
  (`StopLastsExactly`), and then no worker the join waits for sleeps without a notification due (`JoinIsNotForgotten`). `JoinMayMissItsStop` is a run in which a
  start that fails clears the flag of a join that is under way.

## Assumptions

- `usize` and `u64` are 64 bits wide. The wrapping counters (change version, shutdown generation, registration ids, lane
  versions, delay sequence) do not wrap. Saturating, checked and asserted arithmetic is written out.
- Subscription ids, payload types and wakers are numbers; payloads, subscriber names and error texts are not represented.
- Locks are fair to nobody: a step system lets any thread move at any time. Mutex poisoning and panics of foreign code
  are not represented.
- A poll of an asynchronous receive reads the clock once; the timer completes at that reading plus the requested wait.
- A subscription is borrowed by at most one receive at a time, and a ticket outlives the waits and futures that borrow it.

## Model

| member | source | states |
|---|---|---|
| `LocalBusTheorems.BudgetConserved` | src/local/local_event_bus_spi.rs:238-278 | in every run, between critical sections, the two budget counters equal the number and weight of all pending and in-flight deliveries, stay within their limits, no per-queue weight sum overflows, and neither underflow assertion of `release` ever fires |
| `LocalBusTheorems.CapacityRespected` | src/local/local_event_bus_spi.rs:245-249 | in every run no queue holds more than the configured capacity, in-flight deliveries included |
| `LocalBusTheorems.ExactlyOneFate` | src/local/local_event_subscription.rs:150-195 | in every run each admitted copy is in exactly one of outstanding, accepted, rejected, discarded; a copy never admitted is in none; a finished copy stays finished and never becomes outstanding again |
| `LocalBusTheorems.PayloadTypesMatch` | src/local/local_event_bus_spi.rs:214-232 | every event ever placed in a queue has the type its subscription declared, although the topic may be closed and rebound between a snapshot and its enqueue |
| `LocalBusTheorems.ShutdownIsFinal` | src/local/local_event_bus_spi.rs:399-465 | once an outcome is recorded, in every continuation the outcome is the same, all queues are closed and empty, none is added, and both counters are zero |
| `LocalBusTheorems.NoLostWakeup` | src/local/local_event_bus_spi.rs:133-170 | in every run, when no thread owes a version bump or a notification, a thread asleep in an idle wait or a graceful shutdown has a queue it asked about that is busy |
| `LocalBusTheorems.SignalsReleaseSleepers` | src/local/local_event_bus_spi.rs:583-588 | a thread that owes a signal can always deliver it: the bump raises the version and the notification leaves no thread asleep |
| `LocalBusTheorems.ReportIsTrue` | src/local/local_event_bus_spi.rs:236-283 | the report of a publish is a permutation of its visits sorted by distinct id; an entry is accepted exactly when the queue admitted one copy, and no queue outside the snapshot ever admitted one |
| `LocalBusTheorems.RefusalsCounted` | src/local/outstanding_budget.rs:100-108 | each rejection counter is the saturated number of refusals of its kind in the whole run |
| `LocalBusTheorems.TokensSettleOnce` | src/local/local_event_subscription.rs:157-190 | a settled token keeps its disposition in every continuation, settling with it again changes nothing, no delivery in flight is ever vouched for by it; each delivery in flight has an unsettled token of its own queue that no other delivery has |
| `LocalBusTheorems.PublishesTakeTurns` | src/local/state/topic_subscriptions.rs:50-60 | two successive publishes over the same subscribers start at cyclically successive subscribers |
| `LocalBusTheorems.RunLater` | src/local/local_event_bus_spi.rs:388-465 | over any run queues keep identity and closedness, ledgers and token dispositions only grow, and closed and outcome are never undone |
| `LocalBusSteps.RunOk` | src/local/local_event_bus_spi.rs:208-465 | every interleaving of publish, subscribe, receive, settle, close, idle wait and shutdown keeps the provider invariant |
| `LocalBusSteps.AdmitNextOk` | src/local/local_event_bus_spi.rs:238-278 | one visit of a publish keeps the invariant: budget, ledgers, report and wake-up debts |
| `LocalBusSteps.BeginPublishOk` | src/local/local_event_bus_spi.rs:214-232 | taking the rotated snapshot keeps the invariant and starts a truthful report |
| `LocalBusSteps.SnapshotOk` | src/local/local_event_bus_spi.rs:219-231 | a snapshot holds only queues of the published type, each id once, none of which has a copy yet |
| `LocalBusSteps.SubscribeOk` | src/local/local_event_bus_spi.rs:311-361 | registering a queue keeps the invariant; a closed provider, a type conflict or a duplicate id changes nothing, otherwise exactly one queue is added and registered |
| `LocalBusSteps.ReceiveStepOk` | src/local/local_event_subscription.rs:75-99 | moving a lane head that is ready by now into flight keeps the invariant, mints one token, keeps the copy outstanding and leaves a signal owed |
| `LocalBusSteps.SettleStepOk` | src/local/local_event_subscription.rs:161-193 | settling keeps the invariant, whatever token is presented |
| `LocalBusSteps.CloseStepOk` | src/local/local_event_subscription.rs:204-216 | discarding under the queue lock keeps the invariant, closes the queue and leaves a signal owed |
| `LocalBusSteps.DeregisterOk` | src/local/local_event_subscription.rs:217-228 | removing a closed queue leaves every other registration intact, also when the id was registered again meanwhile |
| `LocalBusSteps.BumpOk` | src/local/local_event_bus_spi.rs:583-587 | advancing the change version keeps the wake-up invariant of every waiter |
| `LocalBusSteps.NotifyOk` | src/local/local_event_bus_spi.rs:587 | the broadcast keeps the wake-up invariant of every waiter |
| `LocalBusSteps.ParkOk` | src/local/local_event_bus_spi.rs:146-170 | a waiter that found work goes to sleep if and only if the version has not moved since it read it, and the invariant is kept |
| `LocalBusSteps.ListOk` | src/local/local_event_bus_spi.rs:441-444 | the final pass lists every queue that is not closed and keeps the invariant |
| `LocalBusSteps.SweepOk` | src/local/local_event_bus_spi.rs:446-455 | closing one queue of the final pass keeps the invariant |
| `LocalBusSteps.CloseAdmissionOk` | src/local/local_event_bus_spi.rs:399-400 | closing admission and recording the outcome keep the invariant |
| `Deliveries.AdmitOk` | src/local/local_event_bus_spi.rs:242-271 | admitting or refusing one copy keeps budget, ledger, capacity, type and token facts of all queues |
| `Deliveries.ReceiveOk` | src/local/local_event_subscription.rs:75-96 | receiving keeps all delivery facts; the fresh token collides with none in flight |
| `Deliveries.SettleOk` | src/local/local_event_subscription.rs:163-190 | settling keeps all delivery facts for every token, disposition and queue |
| `Deliveries.CloseOk` | src/local/local_event_subscription.rs:208-215 | closing keeps all delivery facts and leaves the queue closed |
| `Deliveries.AddQueueOk` | src/local/local_event_bus_spi.rs:300-365 | a new empty queue keeps all delivery facts |
| `Deliveries.Covered` | src/local/outstanding_budget.rs:158-165 | the budget covers each queue, so no release can underflow and no sum can overflow |
| `Deliveries.FreshToken` | src/local/local_event_subscription.rs:84-96 | the next token text is not a key of the in-flight map, for arbitrary event ids |
| `DeliveryTheorems.SettleEffect` | src/local/local_event_subscription.rs:180-190 | accept and reject end exactly one outstanding copy, return exactly its reservation and leave the lanes alone |
| `DeliveryTheorems.RetryEffect` | src/local/local_event_subscription.rs:180-186 | a retry keeps budget, ledger and outstanding copies and puts the copy at the head of its lane |
| `DeliveryTheorems.OneFate` | src/local/local_event_subscription.rs:150-216 | an admitted copy is counted once over outstanding, accepted, rejected and discarded |
| `DeliveryTheorems.ClosedIsEmpty` | src/local/local_event_bus_spi.rs:446-461 | when all queues are closed they are empty and both counters are zero |
| `DeliveryTheorems.SpentToken` | src/local/local_event_subscription.rs:163-179 | a token with a disposition has no effect on any queue and vouches for no delivery |
| `Fanout.ReportStable` | src/local/local_event_bus_spi.rs:236-278 | steps of other threads do not disturb the report of a publish in progress |
| `Fanout.ReportExtends` | src/local/local_event_bus_spi.rs:242-277 | visiting the next queue extends the report truthfully |
| `Fanout.SortIs` | src/local/local_event_bus_spi.rs:282 | the sort returns a permutation in strictly increasing id order |
| `Fanout.SortUnique` | src/local/local_event_bus_spi.rs:282 | with distinct ids the sorted report is unique, so neither rotation nor an unstable sort shows |
| `Routing.PublishOrder` | src/local/state/topic_subscriptions.rs:50-60 | the visiting order holds each subscriber exactly once |
| `Routing.StartsTakeTurns` | src/local/state/topic_subscriptions.rs:50-60 | the starts of any number of successive publishes walk the sorted subscribers cyclically |
| `Routing.TurnInRound` | src/local/state/topic_subscriptions.rs:50-60 | one round of turns visits every position once and ends where it began |
| `QueueStates.LocalQueueState.EnqueueBackAt` | src/local/state/local_queue_state.rs:64-73 | appends to the lane of the event and keeps the scheduling index complete |
| `QueueStates.LocalQueueState.EnqueueFrontAt` | src/local/state/local_queue_state.rs:90-95 | puts the event at the head of its lane and reschedules the lane |
| `QueueStates.LocalQueueState.ClearPending` | src/local/state/local_queue_state.rs:122-131 | returns exactly the pending and in-flight events, once, and leaves nothing |
| `QueueStates.LocalQueueState.PopReady` | src/local/state/local_queue_state.rs:144-170 | pops an eligible lane head; no answer means that no lane has an eligible head |
| `QueueStates.LocalQueueState.NextReadyDelay` | src/local/state/local_queue_state.rs:180-185 | after an unsuccessful pop the exact least delay until some head is eligible |
| `QueueStates.LocalQueueState.ScheduleLaneHeadAt` | src/local/state/local_queue_state.rs:215-250 | re-registers a changed head under a new version as ready or delayed; both heap counters stay exact |
| `QueueStates.LocalQueueState.PromoteDueHeads` | src/local/state/local_queue_state.rs:261-285 | moves every due delayed head to the ready list without losing a lane |
| `QueueStates.LocalQueueState.DiscardStaleDelayedHeads` | src/local/state/local_queue_state.rs:289-298 | prunes stale heap entries until the top is live; the decrements cannot underflow |
| `QueueStates.LocalQueueState.CompactDelayedHeapIfNeeded` | src/local/state/local_queue_state.rs:302-327 | rebuilding keeps every delayed head and bounds the stale entries by the larger of eight and the live heads |
| `QueueStates.LocalQueueState.PopMessage` | src/local/local_event_subscription.rs:75-96 | moves one eligible head into flight under a new token, or reports that none is ready, or puts it back when tokens are exhausted |
| `QueueStates.LocalQueueState.RetryInFlight` | src/local/local_event_subscription.rs:180-186 | puts the in-flight event back at the head of its lane |
| `LocalQueues.LocalQueue.Admit` | src/local/local_event_bus_spi.rs:242-271 | one loop iteration of publish: refusal reasons in order of precedence, queue and budget as specified |
| `LocalQueues.LocalQueue.Receive` | src/local/local_event_subscription.rs:70-101 | one round of receive: closed, a message taken from an eligible lane head, exhausted, or nothing eligible |
| `LocalQueues.LocalQueue.Settle` | src/local/local_event_subscription.rs:150-195 | verdict and effect of a settlement; a refused one leaves queue, budget and token untouched |
| `LocalQueues.LocalQueue.CloseAndDiscard` | src/local/local_event_subscription.rs:207-215 | closes the queue, returns everything unsettled and releases it once |
| `LocalQueues.FanOut` | src/local/local_event_bus_spi.rs:236-278 | the publish loop without other threads: each queue decides with the budget its predecessors left |
| `LocalQueues.FanOutCharges` | src/local/local_event_bus_spi.rs:238-278 | a fan-out charges count and weight once for each admitting queue and never passes a limit |
| `LocalQueues.TotalWeight` | src/local/local_event_subscription.rs:211 | the unchecked weight sum is exact and does not overflow |
| `OutstandingBudgets.OutstandingBudget.constructor` | src/local/outstanding_budget.rs:48-55 | a new budget is empty |
| `OutstandingBudgets.OutstandingBudget.TryReserve` | src/local/outstanding_budget.rs:74-92 | reserves within both limits, or counts exactly one refusal, count before weight |
| `OutstandingBudgets.OutstandingBudget.RecordRejection` | src/local/outstanding_budget.rs:100-108 | counts queue refusals only |
| `OutstandingBudgets.OutstandingBudget.Release` | src/local/outstanding_budget.rs:158-165 | returns the reservation; the two assertions are its preconditions |
| `Decimal.TokenIdInjective` | src/local/local_event_subscription.rs:85 | `event_id:sequence` determines both parts, for event ids with colons and digits |
| `BlockingReceives.BlockedReceiveIsRight` | src/local/local_event_subscription.rs:67-129 | in every run a receive asleep on a closed queue is owed a notification, every sleeping receive wakes by itself no later than its timeout, and until then no lane head is ready |
| `BlockingReceives.OwedNotificationEndsReceive` | src/local/local_event_bus_spi.rs:446-455 | the notification a shutdown owes after it released the queue lock wakes the receive, and the look that follows ends it |
| `BlockingReceives.ClosedSleeperExists` | src/local/local_event_bus_spi.rs:446-455 | a run in which a receive sleeps on a closed queue: shutdown has released the queue lock and not yet notified |
| `BlockingReceives.LookOk` | src/local/local_event_subscription.rs:70-119 | one turn of the receive loop answers, or sleeps no longer than the next head and the timeout allow |
| `ReadyHeads.NextDelayIs` | src/local/state/local_queue_state.rs:180-185 | the next delay is the least over all lane heads, and there is none exactly without lanes |
| `FanoutReceipts.ReceiptOf` | src/model/publish_acknowledgement.rs:78-99 | for any fan-out that visited its whole snapshot: the accepted count is the number of queues that admitted a copy; at least one accepted destination is reported exactly when there is one; the requirement that nothing be rejected passes exactly when the snapshot is nonempty and every queue of it admitted a copy |
| `LocalBusTheorems.ReceiptCountsCopies` | src/local/local_event_bus_spi.rs:236-283 | the same for the receipt of every publish in every run of the synchronous provider |
| `AsyncBusTheorems.ReceiptCountsCopies` | src/local/async_local_event_bus_spi.rs:209-253 | the same for the receipt of every publish in every run of the asynchronous provider |
| `Receipts.ClassifyAdmission` | src/model/publish_acknowledgement.rs:78-99 | the counting loop returns the outcome defined by which statuses occur, with exact counts |
| `Receipts.SummaryIsComplete` | src/model/publish_acknowledgement.rs:84-91 | the three counts add up to the number of destinations |
| `Receipts.OutcomeIgnoresOrder` | src/model/publish_acknowledgement.rs:83-97 | outcome and every check are the same for any order of the destinations |
| `Receipts.RequirementsMean` | src/model/publish_receipt.rs:213-237 | what each of the three requirements means, that each is stronger than the one before, and what a rejection count is |
| `Receipts.BatchAgreesWithChecks` | src/model/batch_publish_result.rs:70-84 | the accepted count of a batch is the number of receipts that pass the weakest requirement; the strictest passes exactly for accepted visible items that did not fail |
| `Receipts.BatchCountsCover` | src/model/batch_publish_result.rs:89-122 | accepted, dropped and failed cover the batch: only partial items count twice and only silent ones not at all |
| `LocalConfigs.FromProviderOptions` | src/local/local_event_bus_config.rs:82-115 | in any order of the options: accepted exactly when all keys are known and all values are positive integers of the type, with the configuration they denote; otherwise the first offending field |
| `LocalConfigs.OptionsRoundTrip` | src/local/local_event_bus_config.rs:166-179 | parsing the printed options of any valid configuration returns it |
| `LocalConfigs.ReadBack` | src/local/local_event_bus_config.rs:82-115 | reading the printed options back gives the configuration, whatever the order of the map |
| `LocalConfigs.ZeroIsNotAccepted` | src/local/local_event_bus_config.rs:218-232 | a configuration with a zero limit is not accepted again |
| `Decimal.TextRoundTrip` | src/local/local_event_bus_config.rs:166-179 | printing and parsing is the identity on every `usize`, and rejects exactly zero where a positive number is asked for |
| `ShutdownCoordinators.ShutdownCoordinator.constructor` | src/facade/shutdown_coordinator.rs:49-57 | a coordinator without attempts |
| `ShutdownCoordinators.ShutdownCoordinator.BeginShutdown` | src/facade/shutdown_coordinator.rs:75-91 | joins the active generation or leads a new one |
| `ShutdownCoordinators.ShutdownCoordinator.RequestedMode` | src/facade/shutdown_coordinator.rs:100-107 | the mode of the current generation, immediate for any other |
| `ShutdownCoordinators.ShutdownCoordinator.Finish` | src/facade/shutdown_coordinator.rs:267-286 | an effective completion stores the result, ends the generation and hands over its wakers; any other changes nothing |
| `ShutdownCoordinators.ShutdownCoordinator.PollTicket` | src/facade/shutdown_coordinator.rs:186-212 | a result, an ended generation, or a registration under the same token |
| `ShutdownCoordinators.ShutdownCoordinator.UnregisterWaker` | src/facade/shutdown_coordinator.rs:221-235 | removes one registration and an emptied entry |
| `ShutdownCoordinators.ShutdownCoordinator.ReleaseTicket` | src/facade/shutdown_coordinator.rs:242-258 | the last ticket takes result and wakers along |
| `ShutdownCoordinators.ShutdownCoordinator.CheckTicket` | src/facade/shutdown_coordinator.rs:145-147 | one turn of the wait loop |
| `ShutdownRuns.RunOk` | src/facade/shutdown_coordinator.rs:75-286 | every interleaving of begin, complete, waits, futures and ticket drops keeps the coordinator invariant |
| `ShutdownRuns.BeginOk` | src/facade/shutdown_coordinator.rs:75-91 | begin keeps the invariant |
| `ShutdownRuns.CompleteOk` | src/facade/shutdown_coordinator.rs:267-286 | finish and abort_start keep the invariant, for any generation and however often they are called |
| `ShutdownRuns.PollOk` | src/facade/shutdown_coordinator.rs:186-212 | polling keeps the invariant |
| `ShutdownRuns.CheckOk` | src/facade/shutdown_coordinator.rs:141-170 | each turn of a blocking wait keeps the invariant |
| `ShutdownRuns.DropFutureOk` | src/facade/internal/shutdown_registration.rs:58-65 | dropping a registration keeps the invariant of all other futures |
| `ShutdownRuns.DropTicketOk` | src/facade/event_bus_shutdown.rs:158-166 | dropping a ticket keeps the invariant, and every future waiting for the active generation stays registered with its latest waker |
| `ShutdownTheorems.MapsCharacterized` | src/facade/shutdown_coordinator.rs:186-286 | in every run: waiters counts the unreleased tickets, results covers exactly the ended generations with tickets, wakers exist only for the active generation |
| `ShutdownTheorems.NothingRetained` | src/facade/shutdown_coordinator.rs:242-286 | with no active attempt and no ticket all three maps are empty |
| `ShutdownTheorems.OneLeaderOneCompletion` | src/facade/shutdown_coordinator.rs:75-91 | in every run each generation had exactly one leader and at most one effective completion, and exactly one once it ended |
| `ShutdownTheorems.LiveTicketSeesItsResult` | src/facade/shutdown_coordinator.rs:141-147 | a ticket still held reads the same result at any two moments after its generation ended, whatever later generations do |
| `ShutdownTheorems.AnswersAreResults` | src/facade/event_bus_shutdown.rs:120-135 | every answered wait and future carries the published result, so the missing-result branch of resolve is unreachable |
| `ShutdownTheorems.NoWaitMissesCompletion` | src/facade/shutdown_coordinator.rs:141-170 | a thread asleep in wait is asleep for the generation that is still active |
| `ShutdownTheorems.NoFutureIsForgotten` | src/facade/shutdown_coordinator.rs:186-212 | a pending future is registered with its latest waker, or that waker is owed a call, or it was called |
| `ShutdownTheorems.EachWakerWokenOnce` | src/facade/shutdown_coordinator.rs:278-285 | every waker registered at a completion is called exactly once, ever |
| `ShutdownTheorems.ModeTightensExactly` | src/facade/shutdown_coordinator.rs:100-107 | over all continuations the answer of mode for a generation only moves from graceful to immediate, if and only if the generation has already begun |
| `ShutdownTheorems.ModeMayLoosen` | src/facade/shutdown_coordinator.rs:100-107 | a run in which a generation that has not begun reads immediate first and graceful later |
| `SchedulerTheorems.CancelledAreRegistered` | src/facade/sync_delivery_scheduler.rs:475-552 | in every run, whenever the registered lock is free, cancelled is a subset of registered |
| `SchedulerTheorems.StopIsFinal` | src/facade/sync_delivery_scheduler.rs:427-447 | after an immediate stop no handler may start and nothing drains, in any continuation |
| `SchedulerTheorems.CancelHolds` | src/facade/sync_delivery_scheduler.rs:475-507 | a cancelled subscription stays fenced off until its own finish |
| `SchedulerTheorems.EachJobOnce` | src/facade/sync_delivery_scheduler.rs:581-605 | in every run each submitted job is queued once, or running at the one worker that took it, or finished |
| `SchedulerTheorems.JoinFinishesJobs` | src/facade/sync_delivery_scheduler.rs:559-573 | when a join returns all workers have exited and no job is running; every job submitted before it is finished if and only if a worker was alive when it stopped the pool, or nothing was queued then, or the pool was started in between |
| `SchedulerTheorems.JoinWithoutWorkers` | src/facade/sync_delivery_scheduler.rs:559-573 | a run in which the join of a pool that was never started returns with a job still queued |
| `SchedulerTheorems.NoWorkerIsForgotten` | src/facade/sync_delivery_scheduler.rs:581-597 | queued work has an awake worker or a notification under way, and no worker sleeps through a stop |
| `SchedulerTheorems.StopLastsExactly` | src/facade/sync_delivery_scheduler.rs:559-564 | from any state with the stop flag set, the flag is set throughout a continuation if and only if no failing start reaches its clean-up in it |
| `SchedulerTheorems.JoinIsNotForgotten` | src/facade/sync_delivery_scheduler.rs:559-573 | unless a failing start reached its clean-up since a join set the flag, the flag is still set and no worker the join waits for sleeps without a notification due |
| `SchedulerTheorems.JoinMayMissItsStop` | src/facade/sync_delivery_scheduler.rs:109-125 | a run in which a failing start clears the flag of a join, which then waits for a sleeping worker of a second start |
| `SchedulerPool.RunOk` | src/facade/sync_delivery_scheduler.rs:409-605 | every interleaving of submit, join, start and the worker loop keeps the pool invariant |
| `AsyncBusTheorems.BudgetConserved` | src/local/async_local_event_bus_spi.rs:210-248 | in every run of the asynchronous provider the budget equals all queue contents, respects limits and capacities, and no assertion fails |
| `AsyncBusTheorems.ExactlyOneFate` | src/local/async_local_event_subscription.rs:205-254 | in every run each admitted copy has one fate, keeps it, and carries the type its subscription declared |
| `AsyncBusTheorems.ShutdownIsFinal` | src/local/async_local_event_bus_spi.rs:410-429 | after the outcome is recorded everything is closed, empty and zero for ever, and the outcome is final |
| `AsyncBusTheorems.TokensSettleOnce` | src/local/async_local_event_subscription.rs:220-249 | a settled token is spent in every continuation, and each delivery in flight has an unsettled token of its own |
| `AsyncBusTheorems.ReportIsTrue` | src/local/async_local_event_bus_spi.rs:209-253 | the report is sorted by distinct id and accepted exactly where one copy was admitted |
| `AsyncBusTheorems.ReceiveIsNotForgotten` | src/local/async_local_event_subscription.rs:103-188 | a sleeping receive whose queue is closed or holds a ready delivery was woken, or its waker is about to be called, or it is registered and a notification is owed, or its timer has come due |
| `AsyncBusTheorems.ReceiveTimesOut` | src/local/async_local_event_subscription.rs:124-169 | a sleeping receive with a finite timeout was woken or has a timer armed no later than its deadline |
| `AsyncBusTheorems.ShutdownIsNotForgotten` | src/local/async_local_event_bus_spi.rs:353-406 | a sleeping graceful shutdown was woken, or its waker is about to be called, or it is registered and its queue is still busy or a notification is owed |
| `AsyncBusTheorems.ShutdownTimesOut` | src/local/async_local_event_bus_spi.rs:367-404 | a sleeping graceful shutdown with a finite timeout has its timer armed for exactly the end of the timeout, and from then on the timer wakes it |
| `AsyncBusTheorems.GivesUpInTime` | src/local/async_local_event_bus_spi.rs:367-404 | in every run a shutdown reports a timeout only after the end of a finite timeout; a poll that finds work left gives up if and only if the timeout is over |
| `AsyncBusTheorems.RefusalsCounted` | src/local/outstanding_budget.rs:100-108 | each rejection counter is the saturated number of refusals of its kind in the whole run of the asynchronous provider |
| `AsyncBusTheorems.QuietSleepersAreRight` | src/local/async_signal.rs:40-81 | with no notification or wake call under way, a sleeping receive has nothing ready and a sleeping shutdown has a busy queue |
| `AsyncBusTheorems.RunLater` | src/local/async_local_event_bus_spi.rs:410-429 | over any run queues, ledgers, tokens, closed and outcome only move forward |
| `AsyncBusSteps.RunOk` | src/local/async_local_event_bus_spi.rs:174-437 | every interleaving of the asynchronous operations keeps the provider invariant |
| `AsyncBusSteps.SubscribeOk` | src/local/async_local_event_bus_spi.rs:287-321 | subscribing keeps the invariant of mailboxes, topic index and payload types |
| `AsyncBusSteps.BeginPublishOk` | src/local/async_local_event_bus_spi.rs:189-205 | taking the snapshot keeps the invariant and starts a truthful report |
| `AsyncBusSteps.SnapshotOk` | src/local/internal/async_bus_state.rs:55-88 | every listed id has a mailbox of the topic and type, so the snapshot has each subscriber once |
| `AsyncBusSteps.AdmitNextOk` | src/local/async_local_event_bus_spi.rs:210-242 | one visit keeps the invariant; if it changed the queue, the publisher owes the queue a notification |
| `AsyncBusSteps.DrainReadyOk` | src/local/async_signal.rs:68-75 | draining a registry moves every wake-up to the notifier |
| `AsyncBusSteps.WakeOneOk` | src/local/async_signal.rs:76-80 | calling a waker keeps every other task covered |
| `AsyncBusSteps.RegisterWaiterOk` | src/local/internal/async_waiter.rs:44-60 | registering, refreshing and dropping a waiter keep every other task covered |
| `AsyncBusSteps.InspectOk` | src/local/async_local_event_subscription.rs:105-163 | the critical section of a poll keeps the invariant: a delivery, an end, or a timer that covers every lane head |
| `AsyncBusSteps.ArmedCovers` | src/local/async_local_event_subscription.rs:124-158 | after a fruitless look the timer fires no later than the first lane head becomes ready and the timeout ends |
| `AsyncBusSteps.SettleStepOk` | src/local/async_local_event_subscription.rs:220-251 | settling keeps the invariant; one that applies leaves both notifications owed |
| `AsyncBusSteps.CloseMailboxOk` | src/local/async_local_event_bus_spi.rs:449-470 | closing a mailbox keeps the invariant, closes its queue and leaves both notifications owed; when no mailbox of the topic is left its payload type is released |
| `AsyncBusSteps.RemoveMembers` | src/local/internal/async_bus_state.rs:142-161 | removal keeps mailboxes, topic index and types consistent |
| `AsyncBusSteps.CheckOk` | src/local/async_local_event_bus_spi.rs:355-361 | looking into one mailbox of the drain check keeps the invariant |
| `AsyncBusSteps.DecideOk` | src/local/async_local_event_bus_spi.rs:362-399 | retiring the previous registration, giving up or arming the timer keeps the invariant |
| `AsyncBusSteps.LockSweepOk` | src/local/async_local_event_bus_spi.rs:410-416 | the first shutdown to get here takes every mailbox; a later one returns the recorded outcome |
| `AsyncBusSteps.SweepStepOk` | src/local/async_local_event_bus_spi.rs:418-425 | closing one mailbox of the sweep keeps the invariant |
| `AsyncBusSteps.EndSweepOk` | src/local/async_local_event_bus_spi.rs:426-433 | recording the outcome keeps the invariant, all queues being closed |
| `AsyncSignals.AsyncSignal.RegisterWaker` | src/local/async_signal.rs:40-49 | registers under a new id |
| `AsyncSignals.AsyncSignal.UpdateWaiter` | src/local/async_signal.rs:56-62 | leaves the current waker registered under the same id |
| `AsyncSignals.AsyncSignal.DropWaiter` | src/local/internal/async_waiter.rs:63-72 | removes the registration |
| `AsyncSignals.AsyncSignal.DrainAll` | src/local/async_signal.rs:68-81 | empties the registry and returns each registered waker once |
| `ReceiveTimers.TimerInTime` | src/local/async_local_event_subscription.rs:124-188 | after any sequence of pending polls the timer is armed no later than the next ready delay and the remaining timeout, or its task has woken itself |
| `ReceiveTimers.ArmedInTime` | src/local/async_local_event_subscription.rs:141-162 | one pending poll arms in time, also when the deadline overflows the clock |
| `ReceiveTimers.ReceiveTimer.PollPending` | src/local/async_local_event_subscription.rs:141-175 | the timer part of a pending poll |
| `LockOrder.NoDeadlock` | src/local/async_local_event_bus_spi.rs:189-223 | for any sequence of provider operations on each of any number of threads, in any interleaving: while a thread is unfinished, some thread can take its next lock action |
| `LockOrder.ScriptsOrdered` | src/local/async_local_event_subscription.rs:220-251 | every operation, refused, cancelled and repeated ones included, takes its locks in the order provider, queue, token, budget, and releases them all |
| `LockOrder.RegistryIsAlone` | src/local/async_signal.rs:40-81 | a waker registry is only ever locked with nothing else held |

## Left out

- LocalBus: registry entries whose queue has been freed without closing are not represented, because a subscription
  closes and unregisters its queue when it is dropped.
- LocalBus, AsyncBus, Schedulers: registry, scheduler and threads are values of a step system rather than objects, because
  the statements are about interleavings of critical sections; update in place and aliasing are not captured there.
- LocalBus: a receive may take any ready lane head; which of them the queue picks is the subject of
  `QueueStates.LocalQueueState.PopReady`, and how a receive sleeps that of `BlockingReceives`.
- Liveness: that a notified thread or woken task is eventually scheduled.
- Timer failures, and the drift between reading the clock and starting a timer.
- Rejection of encoded payloads, unsupported subscription options and delay overflow before any state is touched.
- The capacity monitor snapshot, which copies fields.
- `DeliverySchedulerCore`, owners and their notification: the answer of the core to a registration is a parameter.
- Facade publish and delivery pipelines, retry and dead-letter handling, provider discovery, builders, validated
  identifiers, codecs and metrics: easy or foreign to the parts above.
- What `resolve` does with close errors and operating-system error codes.
