# Order-fulfilment platform: protocols and proofs

A Dafny model of the four protocols of the order-fulfilment platform, with machine-checked
proofs of what they guarantee over whole runs. `dafny verify dfyconfig.toml` checks everything.

| protocol | modules | what is proved |
|---|---|---|
| saga with its services | `Contracts`, `Saga`, `SagaBarrier`, `SagaConcurrency`, `SagaProvenance`, `Consumers`, `Fulfilment`, `Completion`, `Orphan`, `Progress`, `Liveness`, `FairRunExists` | concurrent handlers are serialisable, commands are sent at most once, the outcome of an order matches what the services did, every fair run ends |
| outbox with leases | `Outbox`, `OutboxWorkers`, `OutboxDrain`, `FairRelays`, `StuckRow` | claims take the oldest rows and never overlap, completions are fenced by claim, attempts are bounded, published means acknowledged, the table drains |
| event store, projection, replay | `EventStore`, `Projection`, `Replay`, `LiveReplay`, `StockAccounting`, `StockHistory` | dense numbering, exactly-once projection, replay independent of prior content, live rows equal replayed rows, stock counters equal outstanding reservations |
| idempotent consumer and dead letters | `IdempotentConsumer`, `DlqReplay`, `DlqRefinement` | bounded retries and waits, one ending per delivery, marks stop reprocessing until cleared, dead letters are all-or-nothing, REPLAYED means republished |
| across components | `Causality`, `Agreement`, `RowFolds`, `EventOrder`, `ReplayExactly` | for every causally ordered history the read model shows, column by column, what the saga row says; exactly which orders of effect make live rows and replayed rows agree |

## How the model is built

*Saga.* `Saga.React` is the guarded decision of `processEvent` on the row it read,
`ResolveBarrier` the transaction of the compensation barrier, `Handle` one undisturbed call.
`SagaConcurrency` cuts a call into read, save and emit: handlers of one topic are serial per
order (the log is keyed by order id), handlers of different topics interleave, any event may
arrive at any time and any number of times, and a handler may break off at every point.
`Fulfilment` adds the services as reply functions and a network that keeps every message and
delivers any of them at any time, so duplication, loss and reordering are all covered.

*Fairness.* `Liveness` assumes that emits succeed, that a request is answered once, and that
whatever is due (a save, an emit, an answer, a first delivery) eventually happens. It assumes
nothing about duplicates. `OutboxDrain` assumes that a busy worker takes another step or dies,
that claims which could take a given row keep being made, and that the clock advances.
`FairRunExists` and `FairRelays` exhibit runs that meet these assumptions.

*Database and broker.* A transaction is one step, or no step if it rolls back. A statement
outside a transaction may throw before or after it commits, where that makes a difference
(outbox completions, consumer marks, dead-letter replay). A send is acknowledged or not.
Fresh identifiers, clocks, random draws and chaos faults are parameters.

*In place and on values.* What the source updates in place is a class here
(`SagaOrchestrator`, `EventStoreTable`, `ReadModels`, `EventReplayService`, `OutboxTable`,
`OutboxRelay`, `BaseConsumer`, `DlqReplayService`); the methods are tied to functions on
values, and the run-level theorems are about those functions.

## What the proofs found

- A request answered twice (a service that throws after its reply was sent is retried, and
  replies again with new ids) can leave a payment nobody refunds or a reservation nobody
  releases: `Orphan.DoubleReplyOrphansAPayment`, `Orphan.LateAuthorisationOrphansAPayment`,
  `Orphan.LateReservationIsOrphaned`. `Fulfilment.OrphansExactly` says for each outcome which
  sets of replies leave nothing behind, and `Fulfilment.NothingOrphaned` that one reply per
  request is enough.
- If the dead-letter transaction fails, the error is only logged and the event is forgotten,
  although a comment there promises no data loss; exactly when is
  `IdempotentConsumer.TraceExactly`.
- The inline completion of a dead letter's outbox row is fenced on PROCESSING and never takes
  effect on the PENDING row just inserted: `IdempotentConsumer.InlineCompletionIsVoid`.
- A dead letter made from an unparsable message can never be replayed; which letters still can
  is `DlqReplay.ReplayableExactly`.
- A replay under way overrides a discard (`DlqReplay.ReplayOverridesDiscard` is a run); a
  discard lasts if and only if no replay of the letter is under way:
  `DlqReplay.DiscardLastsExactly`.
- Live consumption and replay can differ when two events of an order are appended before either
  is applied and are then applied the other way round: `LiveReplay.OutOfOrderDiffers`. They agree
  if and only if the two orders agree in the last event to give a status, the last to give a
  reason, which events with ids come after the order's creation, and the side of its
  authorisation the refund is on: `ReplayExactly.LiveEqualsReplayByOrder`.
- A replay applies the stock events of the order again. Because reserving is clamped at zero and
  releasing is not, even an order that holds nothing can free pieces another order has
  reserved: `StockAccounting.ReplayFreesForeignStock`. The exact drift of both counters, and
  when there is none, is `StockAccounting.ReplayShiftsStock`.
- A row whose worker dies, or whose completion is lost, on attempt 10 stays PROCESSING for
  ever: `StuckRow.SomeRowIsStuck`, `OutboxWorkers.DrainedExactly`, `OutboxWorkers.EndedForEver`.
- Explicit sequence numbers can break the numbering of the event store; exactly when is
  `EventStore.NumberingExactly`.
- The repository's state diagrams name saga states (`PAYMENT_APPROVED`, `INVENTORY_RESERVED`,
  `FRAUD_APPROVED`, `SHIPPED`) that no code path ever stores; the model follows the code.

## Model

| member | source | states |
|---|---|---|
| `Saga.SagaOrchestrator.ProcessEvent` | src/saga/saga-orchestrator.ts:65-553 | one call moves the order's row as the guarded transition says unless its write is lost, leaves every other order's row alone, and sends a prefix of the decided commands: none if the write threw, all if nothing did |
| `Saga.SagaOrchestrator.HandleCompensationCompletion` | src/saga/saga-orchestrator.ts:559-687 | the barrier works on the row read under lock and announces the cancellation only when satisfied and committed |
| `Saga.SagaOrchestrator.EmitAll` | src/consumers/base-consumer.ts:98-147 | commands go out in order up to the send that throws |
| `SagaBarrier.BarrierConfluence` | src/saga/saga-orchestrator.ts:583-658 | for every sequence of confirmations: cancelled if and only if they cover the pending list, announced exactly once and at the first covering prefix, the confirmed list never shrinks or repeats |
| `SagaBarrier.BarrierOrderIrrelevant` | src/saga/saga-orchestrator.ts:583-658 | two confirmation sequences with the same actions give the same verdict |
| `SagaBarrier.CoveringConfirmation` | src/saga/saga-orchestrator.ts:610-637 | the confirmation that completes the cover cancels the order and announces what was confirmed by then |
| `SagaBarrier.SettledAtFirstCover` | src/saga/saga-orchestrator.ts:583-592 | after the first covering prefix nothing changes and nothing more is sent |
| `SagaConcurrency.OneTopicLeaves` | src/saga/saga-orchestrator.ts:82-548 | a state that a plain transition leaves is left by the events of one topic only |
| `SagaConcurrency.WrittenIsHandled` | src/saga/saga-orchestrator.ts:572-667 | a handler whose guard still holds writes what an undisturbed handler would write |
| `SagaConcurrency.Serialisability` | src/saga/saga-orchestrator.ts:77-553 | every interleaving leaves the row and the decided commands of a serial run of the served events; each delivery is served once, at work or dropped, each decided command sent once, unsent or lost |
| `SagaConcurrency.CleanRunsAreSerial` | src/services/database.ts:810-827 | without failures the broker holds exactly the commands of a serial run of exactly the delivered events |
| `SagaConcurrency.CommandsAtMostOnce` | src/saga/saga-orchestrator.ts:82-548 | over any run, each kind of command is decided and sent at most once per order |
| `SagaConcurrency.TerminalAbsorbs` | src/saga/saga-orchestrator.ts:82-548 | COMPLETED, CANCELLED and FAILED absorb every further event |
| `SagaConcurrency.StepsFit` | src/saga/saga-orchestrator.ts:99-548 | in every interleaving the stored step fits the stored state and failure reason |
| `SagaProvenance.RowIsHeard` | src/saga/saga-orchestrator.ts:82-548 | in every interleaving, whatever the row says about the order, its payment, reservation, fraud check, shipment and failure was said by an event that was delivered and served |
| `SagaProvenance.GuardsExactly` | src/saga/saga-orchestrator.ts:82-548 | an order that does not exist or was merely created is started by its creation alone, and every other state is left by the answers it waits for and nothing else |
| `SagaProvenance.EchoesAreIgnored` | src/saga/saga-orchestrator.ts:65-80 | the saga reads the topics of all its commands but the notification, requests share the topic of their replies and endings that of the order, and only a release ever moves a row |
| `SagaProvenance.MissingListsDefault` | src/saga/saga-orchestrator.ts:599-611 | a compensating row without lists waits for the refund alone |
| `Consumers.RepliesAnswer` | src/consumers/payment-consumer.ts:26-92 | exactly the five requests are answered, and an answer names the payment, amount and items of its request, never reserves unavailable stock and never approves a high risk |
| `Consumers.ServicesAcceptExactly` | src/consumers/shipping-consumer.ts:23-63 | when each service accepts, exactly, with the literal limits 500 and 10000, and what its reply carries |
| `Fulfilment.RiskyOrdersNeverComplete` | src/consumers/inventory-consumer.ts:25-67 | in every run, an order for unavailable items, of a large amount or by a suspicious user is never COMPLETED, and one for unavailable items never reaches the fraud check |
| `Completion.CompletableExactly` | src/consumers/fraud-consumer.ts:25-68 | some run completes an order if and only if every item is an ordinary one in a quantity of at most 500, the amount is at most 10000 and the user is not suspicious |
| `Completion.EveryOrderCanEndBadly` | src/saga/saga-orchestrator.ts:166-291 | with injected faults every order can end FAILED and every order can end CANCELLED |
| `Fulfilment.CompensationMatchesEffects` | src/saga/saga-orchestrator.ts:128-548 | in every reachable state: COMPLETED means paid, reserved, approved, shipped and no refund or release; CANCELLED means the accepted payment refunded in full and the accepted reservation released; FAILED means neither was accepted |
| `Fulfilment.RefundsAreInFull` | src/saga/saga-orchestrator.ts:384-392 | in every run, a refund asked for or made names a payment authorised for this order and carries the order's amount |
| `Fulfilment.ReleaseFollowsReservation` | src/saga/saga-orchestrator.ts:372-376 | in every run, a release on the log names a reservation of this order that is on the log too, with its items |
| `Fulfilment.NothingOrphaned` | src/consumers/base-consumer.ts:199-211 | if no request is answered twice, no authorised payment and no reservation of a cancelled or failed order is left behind |
| `Fulfilment.OrphansExactly` | src/consumers/base-consumer.ts:217-269 | in every run, stated on the services' replies: a CANCELLED order has every authorised payment refunded iff the authorising replies name one payment, and every reservation released iff the reserving replies name one reservation (none, if the fraud check was never answered); a FAILED order keeps no payment iff no reply authorised one; a COMPLETED order paid and reserved once iff the replies name one of each |
| `Orphan.DoubleReplyOrphansAPayment` | src/consumers/base-consumer.ts:217-269 | a concrete run with two authorisations that ends CANCELLED with a payment never refunded |
| `Orphan.LateAuthorisationOrphansAPayment` | src/saga/saga-orchestrator.ts:166-201 | a concrete run that fails on a rejection and is then authorised: FAILED with a payment never refunded |
| `Orphan.LateReservationIsOrphaned` | src/saga/saga-orchestrator.ts:243-291 | a concrete run that is cancelled for lack of stock and then reserved: CANCELLED with a reservation never released |
| `Progress.FirstDeliveryIsAccepted` | src/saga/saga-orchestrator.ts:82-548 | after any run without failures, the first delivery of every awaited message finds the saga in the accepting state |
| `Liveness.NeverStuck` | src/saga/saga-orchestrator.ts:82-548 | after any run without failures, an order that is not settled has a save, an emit, an answer or a first delivery due |
| `Liveness.EveryOrderTerminates` | src/saga/saga-orchestrator.ts:82-548 | every fair run brings the order to COMPLETED, CANCELLED or FAILED with all its commands sent, and the row never changes again |
| `FairRunExists.SomeRunIsFair` | src/saga/saga-orchestrator.ts:82-160 | there is a run that meets the fairness assumptions |
| `EventStore.AppendKeeps` | src/services/database.ts:848-890 | an append keeps ids and numbers unique and everything already stored in place; appending again changes nothing |
| `EventStore.StoreOrder` | src/services/database.ts:848-890 | under any interleaving of appends without explicit numbers, each order's numbers are 1..n in append order and the store is the distinct events in order of first append |
| `EventStore.NumberingExactly` | src/services/database.ts:855-875 | the numbering stays dense if and only if an explicit number is the next one |
| `EventStore.ReadInOrder` | src/services/database.ts:892-897 | a read returns exactly the order's entries in strictly increasing sequence order |
| `EventStore.DenseReadsInAppendOrder` | src/services/database.ts:892-897 | with dense numbers, reading in sequence order is reading in append order |
| `EventStore.EventStoreTable.AppendToEventStore` | src/services/database.ts:848-890 | the table after an append, and its error for a taken number |
| `Projection.ExactlyOnce` | src/application/projections/projection-consumer.ts:55-66 | over any deliveries with duplicates, rollbacks and retries, all four read models equal the fold of the distinct events in order of first commit, and the applied log holds exactly their ids |
| `Projection.ReadModels.ApplyHistoricalEvent` | src/application/projections/projection-consumer.ts:51-343 | whichever statement of the transaction throws, the error is seen and the tables are as before, or, if it was a commit that took effect, the event is applied exactly once |
| `Projection.ReadModels.UpdateStock` | src/application/projections/projection-consumer.ts:166-197 | the item loops move the stock counters item by item, up to the statement that throws |
| `Replay.ReplayIndependence` | src/replay/event-replay-service.ts:41-62 | from any prior content, a replay gives the order, payment and shipment rows its events define on their own |
| `Replay.ReplayAfterCrash` | src/services/database.ts:722-728 | a replay after one that crashed anywhere gives the same rows, and replaying is idempotent |
| `Replay.ResetGoesInOrder` | src/services/database.ts:722-728 | a reset cut off anywhere has removed the order row first, then payments, then shipments, and the applied log only when all rows are gone |
| `Replay.ReplayLeavesOthers` | src/replay/event-replay-service.ts:41-62 | other orders' rows are unchanged, by a complete replay and by one that crashed anywhere |
| `Replay.ReplayFaithfulExactly` | src/application/projections/projection-consumer.ts:68-317 | the rebuilt rows are right if and only if no other order owns a row under one of the order's payment or shipment ids |
| `Replay.EventReplayService.ReplayAggregate` | src/replay/event-replay-service.ts:41-94 | the tables after a complete replay of the stored events in sequence order, and after one cut off at any deletion or transaction, whether or not the throwing one took effect |
| `LiveReplay.LiveEqualsReplay` | src/application/projections/projection-consumer.ts:30-40 | if an order's events took effect in append order, its live rows equal the replayed ones, whatever other orders did |
| `LiveReplay.ExclusiveLiveEqualsReplay` | src/replay/event-replay-service.ts:48-59 | if each event is applied before the next of its order is appended, live rows equal replayed rows |
| `LiveReplay.OutOfOrderDiffers` | src/application/projections/projection-consumer.ts:30-40 | without that, live and replayed rows can differ |
| `ReplayExactly.LiveEqualsReplayExactly` | src/application/projections/projection-consumer.ts:30-40 | for every run, the live rows are the replayed rows if and only if the events in order of effect and in order of append leave the same last value in each column, the same payments and shipments and the same timestamps |
| `ReplayExactly.LiveEqualsReplayByOrder` | src/replay/event-replay-service.ts:48-59 | for a real order whose events have all been applied: if and only if the two orders agree in the last event to give a status, the last to give a reason, the events with ids after the order's creation, and the side of the refund |
| `ReplayExactly.LiveEqualsReplayByCauses` | src/replay/event-replay-service.ts:48-59 | the same for events appended in causal order: same last status and reason, every event with an id applied after the creation, the refund applied after its authorisation |
| `RowFolds.ScratchExactly` | src/application/projections/projection-consumer.ts:68-314 | two sequences of an order's events build the same rows if and only if their folds agree |
| `EventOrder.FoldsByOrder` | src/application/projections/projection-consumer.ts:68-314 | for events that can be told apart by what they write, the folds agree if and only if the orders that matter do |
| `StockAccounting.CountersFollowReservations` | src/application/projections/projection-consumer.ts:166-197 | from any counters, a history whose releases follow their reservations moves reserved stock by exactly what it leaves outstanding, and available stock by the same up to what was overdrawn |
| `StockAccounting.StockAccounts` | src/application/projections/projection-consumer.ts:166-197 | reserved equals the outstanding reservations, counters stay non-negative, reserved plus available is total plus what was overdrawn, so equal to total exactly while no reservation exceeded available |
| `StockAccounting.CountersNeverNegative` | src/application/projections/projection-consumer.ts:166-197 | whatever is delivered, paired or not, no counter goes negative, totals never change and no stock row appears or disappears |
| `StockAccounting.UnpairedReleaseIsClamped` | src/application/projections/projection-consumer.ts:183-197 | a release without its reservation brings the reserved counter to zero and makes its pieces available all the same |
| `StockAccounting.ReplayShiftsStock` | src/services/database.ts:722-728 | the exact drift of both counters under a replay; it leaves them alone if and only if the order holds none of the item and its reservations fit into what is available now |
| `StockAccounting.ReplayFreesForeignStock` | src/application/projections/projection-consumer.ts:166-197 | a concrete replay of an order that holds nothing makes five pieces available that another order has reserved |
| `StockHistory.HistoryIsPaired` | src/saga/saga-orchestrator.ts:372-376 | in every causal history of every run, with whatever failures and repeated replies, a release comes after its own reservation |
| `StockHistory.InterleavingIsPaired` | src/application/projections/projection-consumer.ts:166-197 | any interleaving of paired orders is paired |
| `StockHistory.StockFollowsOrders` | src/application/projections/projection-consumer.ts:166-197 | the stock accounting holds for any interleaving of real orders' events, however far the projection has got with each topic of each |
| `Causality.CausalAlways` | src/saga/saga-orchestrator.ts:82-548 | every command on the log was sent because of one event of the kind that triggers it |
| `Causality.ChecksAlways` | src/saga/saga-orchestrator.ts:203-241 | in every run the fraud check was sent because of the very reservation the row has stored |
| `Causality.EndingClosesHistory` | src/saga/saga-orchestrator.ts:82-548 | in every causal history the message that ends the order comes after its whole main line |
| `Agreement.LogIsHistory` | src/consumers/base-consumer.ts:98-147 | the broker's log is itself a causally ordered history |
| `Agreement.FoldField` | src/application/projections/projection-consumer.ts:68-314 | for every history, each column of the order row holds what the last message to write it wrote |
| `Agreement.FoldRows` | src/application/projections/projection-consumer.ts:100-278 | for every history, the payment and shipment rows are those its authorisations, refunds and dispatches call for |
| `Agreement.ReadModelAgrees` | src/application/projections/projection-consumer.ts:68-314 | for every causally ordered history of a settled order, the read model shows `completed` / `cancelled` / `failed` exactly when the saga is COMPLETED / CANCELLED / FAILED, the payment row AUTHORIZED / REFUNDED / absent with the order's user and amount, the shipment row under the saga's tracking number, and every other column as the saga row has it; a replay shows the same |
| `Agreement.FinalStatusIsTrue` | src/application/projections/projection-consumer.ts:279-314 | in any run, whatever part of the log is folded, a final status is never shown before the saga reached it |
| `Outbox.OutboxTable.GetPendingOutboxEvents` | src/services/database.ts:441-486 | the claim loop takes exactly the oldest free claimable rows up to the limit, leases them to the worker until the time it asked for, counts the attempt, and changes no others |
| `Outbox.FreeExactly` | src/services/database.ts:456-462 | the rows a claim may take: waiting, or in progress with a lease that has ended or was never dated, fewer than ten attempts, not locked |
| `Outbox.OutboxTable.Oldest` | src/services/database.ts:459 | the first row of a set in creation order |
| `Outbox.OutboxTable.InsertOutboxEvent` | src/services/database.ts:401-439 | an insert adds a pending row once |
| `Outbox.OutboxTable.MarkOutboxEventPublished` | src/services/database.ts:488-512 | succeeds exactly on a row in progress leased to the caller |
| `Outbox.OutboxTable.MarkOutboxEventFailed` | src/services/database.ts:514-538 | same fence; puts the row back, or gives it up after ten attempts |
| `Outbox.LeaseEndsAsAsked` | src/services/database.ts:450-458 | a row leased at t for L is claimable exactly later than t + L, if it has attempts to spare |
| `Outbox.ClaimIsDetermined` | src/services/database.ts:454-461 | with distinct creation times a claim has no choice |
| `Outbox.ConcurrentClaims` | src/services/database.ts:448-464 | two concurrent claims are disjoint and together one claim with the sum of their limits |
| `Outbox.ManyConcurrentClaims` | src/services/database.ts:448-464 | the same for any number of workers |
| `Outbox.OutboxRelay.PublishEvent` | src/infrastructure/outbox/outbox-relay.ts:123-206 | acknowledged rows are marked published, others failed; a publication that cannot be recorded is recorded as a failure, and only a failure that cannot be recorded is thrown |
| `Outbox.OutboxRelay.PublishAll` | src/infrastructure/outbox/outbox-relay.ts:112-115 | the batch loop completes every claimed row once, in any order |
| `Outbox.OutboxRelay.ProcessBatch` | src/infrastructure/outbox/outbox-relay.ts:89-121 | a sweep publishes the acknowledged rows of its claim, puts back or gives up the others, touches nothing else, and is refused while busy |
| `Outbox.OutboxRelay.Trigger` | src/infrastructure/outbox/outbox-relay.ts:66-69 | refused while stopped or busy, else a sweep |
| `OutboxWorkers.PublishedWasAcknowledged` | src/infrastructure/outbox/outbox-relay.ts:112-206 | over all interleavings with crashes, send failures and lease expiry, PUBLISHED implies an acknowledged send of that row, and no row is deleted |
| `OutboxWorkers.FenceIsByClaim` | src/services/database.ts:489-501 | the owner check lets a completion through exactly while the row is in progress under the very claim the worker holds |
| `OutboxWorkers.StaleClaimIsPowerless` | src/services/database.ts:515-527 | once a row was claimed again, the old claim can never change it |
| `OutboxWorkers.LeaseHolds` | src/services/database.ts:448-464 | along every continuation, until the lease has run out or the holder has completed its claim, nobody changes the row |
| `OutboxWorkers.ClaimLastsExactly` | src/services/database.ts:448-464 | along every continuation without a completion, a claim at time t with lease L keeps its row unchanged up to t + L, is taken over only later, and until then leaves the row claimable exactly from t + L on if it has attempts to spare |
| `OutboxWorkers.AttemptsAreBounded` | src/services/database.ts:454-458 | attempts count the claims and never exceed 10, PENDING means fewer than 10, FAILED exactly 10, owned and leased exactly while PROCESSING, sends never exceed attempts |
| `OutboxWorkers.EverySendIsRecorded` | src/infrastructure/outbox/outbox-relay.ts:123-160 | the record of sends that the bound speaks of counts every send of the run |
| `OutboxWorkers.DrainedExactly` | src/services/database.ts:514-524 | a row nobody holds has ended (published, failed, or given up on attempt 10) if and only if it can never be claimed again |
| `OutboxWorkers.EndedForEver` | src/services/database.ts:454-458 | an ended row never changes again |
| `OutboxDrain.PassedOver` | src/services/database.ts:459 | a claim that passes over a claimable row uses up an attempt of an older one |
| `OutboxDrain.EveryRowEnds` | src/infrastructure/outbox/outbox-relay.ts:89-121 | in every fair run every row ends published, failed, or given up by its worker on attempt 10 |
| `FairRelays.SomeRunIsFair` | src/infrastructure/outbox/outbox-relay.ts:71-121 | there is a fair run, in which a row is published |
| `StuckRow.SomeRowIsStuck` | src/services/database.ts:454-458 | a concrete run of ten claims and crashes leaves a row in progress with its lease expired and not claimable |
| `IdempotentConsumer.BaseConsumer.HandleMessage` | src/consumers/base-consumer.ts:149-282 | at most `maxRetries` calls; each wait is the base delay doubled per failed attempt, capped at 10000, plus its draw, and all together stay below the geometric sum plus the draws; the ending, the tables, the counters and the health afterwards |
| `IdempotentConsumer.EndingExactly` | src/consumers/base-consumer.ts:199-281 | rethrown iff the look-up throws, skipped iff the pair carries a PROCESSED mark (a FAILED mark never stops a delivery), processed iff some attempt succeeds, else dead-lettered iff the transaction takes effect |
| `IdempotentConsumer.StoreExactly` | src/consumers/base-consumer.ts:217-431 | marks, dead letters and dead-letter outbox after each ending |
| `IdempotentConsumer.BackoffDoubles` | src/consumers/base-consumer.ts:264-267 | the first wait is the base delay and each further one twice the one before, up to 10000 |
| `IdempotentConsumer.BaseConsumer.RetryLoop` | src/consumers/base-consumer.ts:213-269 | calls, waits and marks of the loop, up to the first success |
| `IdempotentConsumer.BaseConsumer.HandleExhaustedRetriesDlq` | src/consumers/base-consumer.ts:347-431 | whichever statement throws, and whether or not a throwing commit took effect, the tables hold dead letter, FAILED mark and outbox row together or are untouched; the letter is sent only if nothing threw, and its outbox row is still pending after the inline completion |
| `IdempotentConsumer.BaseConsumer.HandleNonRetryableDlq` | src/consumers/base-consumer.ts:287-345 | the same for dead letter and outbox row of an unparsable message, with no mark |
| `IdempotentConsumer.TotalWait` | src/consumers/base-consumer.ts:264-267 | any waits the loop makes are capped one by one, and bounded in sum |
| `IdempotentConsumer.FirstSuccess` | src/consumers/base-consumer.ts:217-252 | the first attempt that succeeds, or the limit |
| `IdempotentConsumer.TraceExactly` | src/consumers/base-consumer.ts:217-281 | a delivery leaves a trace of its event if and only if the dead-letter transaction can commit, or some attempt succeeds or has its mark committed before it throws |
| `IdempotentConsumer.InlineCompletionIsVoid` | src/services/database.ts:615-629 | completing the outbox row just inserted changes nothing |
| `IdempotentConsumer.InlineCompletionExactly` | src/services/database.ts:615-629 | the completion takes effect exactly on a row in progress under the consumer's own lease, and only publishes that row |
| `DlqReplay.ProcessedStops` | src/consumers/base-consumer.ts:199-211 | once a pair is marked PROCESSED and its delivery is over, the consumer never processes the event again until a replay clears exactly that pair |
| `DlqReplay.OtherPairsUntouched` | src/services/database.ts:649-688 | no step concerns the marks, deliveries or calls of another event-consumer pair |
| `DlqReplay.CallsAreBounded` | src/consumers/base-consumer.ts:217-252 | one delivery calls the service at most `retries` times, and a PROCESSED mark means it was called |
| `DlqReplay.AllTogetherOrNotAtAll` | src/consumers/base-consumer.ts:380-404 | dead letter, outbox row and FAILED mark appear in the same step or not at all |
| `DlqReplay.LettersAreConsistent` | src/consumers/base-consumer.ts:380-404 | in every run each letter has a pending outbox row, each FAILED mark a letter, each readable letter a mark unless cleared by a replay |
| `DlqReplay.ReplayedWasRepublished` | src/replay/event-replay-service.ts:99-169 | REPLAYED implies an acknowledged republication, and unparsable letters are never REPLAYED |
| `DlqReplay.ReplayableExactly` | src/replay/event-replay-service.ts:99-169 | a letter can still end REPLAYED if and only if it carries its original event and is not discarded or has a replay under way |
| `DlqReplay.DiscardLastsExactly` | src/replay/event-replay-service.ts:107-157 | a letter discarded in some run stays discarded along every continuation if and only if no replay of it is under way |
| `DlqReplay.ReplayOverridesDiscard` | src/replay/event-replay-service.ts:139-141 | a concrete run in which a letter discarded during its replay ends REPLAYED |
| `DlqReplay.DlqReplayService.ReplayDlq` | src/replay/event-replay-service.ts:99-169 | result, status, mark and republication of one call, for every way its statements can fail |
| `DlqRefinement.DeliveryRefines` | src/consumers/base-consumer.ts:199-281 | an undisturbed delivery of the step system leaves the tables and calls of one `handleMessage` |
| `DlqRefinement.RefusedExactly` | src/services/database.ts:649-656 | the step system refuses a delivery exactly when `handleMessage` would skip it or is at work on it |
| `DlqRefinement.RejectRefines` | src/consumers/base-consumer.ts:287-345 | an unparsable message leaves the same tables in both |
| `DlqRefinement.ReplayRefines` | src/replay/event-replay-service.ts:99-169 | an undisturbed replay of the step system leaves the tables and republications of one `replayDLQ` |

## Left out

- Order creation (`src/services/order-service.ts`): one transaction writing an order row and its outbox row; it would only add easy members.
- JSON parsing, schema validation and legacy envelope defaults: a delivery is valid or malformed.
- Notification consumer, realtime gateway, HTTP routes, metrics, health and logging: no effect on the modelled state beyond the `NotificationRequested` command.
- Legacy services and producers: not part of the fulfilment protocol.
- The lease protocol of the dead-letter outbox: same statements as the main outbox, and nothing drains it.
- Payload fields no component branches on (currency, shipping address, correlation ids, carrier constants, row version, saga timestamps) and the fallbacks for a missing user name.
- Consumers of one group running twice on a partition during a rebalance: deliveries of one order on one topic, and of one event to one consumer, are serial.
- The order in which a claimed batch is published: a claim returns its rows in no defined order, so batches are sets or arbitrary lists.
- Replay equality for the inventory table: the reset does not cover it, so `StockAccounting.ReplayShiftsStock` states the exact drift of both counters instead.
- Truncated random identifiers: freshness of dead-letter, payment, reservation and shipment ids is assumed where a statement needs it.
- Agreement.ReadModelAgrees: does not cover the timestamps of the rows, because the saga row has no counterpart for them.
- Outbox.OutboxRelay.ProcessBatch: states an undisturbed sweep; interference, throwing completions and crashes are the subject of `OutboxWorkers`.
