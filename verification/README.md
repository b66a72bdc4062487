# Verification model of the commerce event pipeline

The repository is an at-least-once Kafka pipeline. A generator writes customer journeys to Kafka.
A processor validates each record, takes a Redis lease, runs one PostgreSQL transaction, completes
the lease and records the offset. A second service publishes fraud alerts from an outbox table.
This project models those parts in Dafny and proves what the pipeline promises over whole runs.

Check everything with `dafny verify dfyconfig.toml`.

## How it is laid out

Every stateful part exists twice. A value-level specification says what one call does, and whole
runs are quantified over that specification. Where the program updates state in place there is also
a class, or a loop, whose methods are proved equal to the specification.

| files | what they cover |
|---|---|
| `Frontier`, `OffsetTracker`, `Consumer`, `Loops` | the contiguous-safe offset of a partition, batched commits, the consumer callbacks, the sequential loop and the pooled loop |
| `RecordProtocol`, `MessageProcessor` | the control flow of one record and the run counters |
| `Commerce`, `CommerceAnswers`, `CommerceStore`, `Ledger` | the business tables, what they answer to each event, the event ledger, and the transaction that writes both |
| `Idempotency`, `Pipeline`, `PipelineSteps`, `PipelineRecords`, `PipelineSafety`, `LeaseFencing`, `DeadLetters`, `FaultFree`, `PooledEpochs` | processors, Redis, PostgreSQL, Kafka and the dead-letter topic as one step system with crashes, lease expiry, rebalances, refused commits and lost answers; what each step does, what all of them keep about records, leases and offsets, why a record may be dead-lettered, and that runs without faults store everything |
| `Outbox`, `OutboxSafety`, `OutboxService` | the outbox table shared by several publishers |
| `Journey` | the journey generator run against the business store |
| `Fraud`, `History`, `HistoryContext` | the fraud rules, their aggregation, bounded history queries, and when the engine decides on pages as on the whole history |
| `Pacing` | the deadline pacing loop with its rebase |
| `Validation`, `ValidationFaults` | record validation, message construction, the anomaly tag, and which fault each refusal names |

Money in the store is an exact integer number of the smallest stored unit. Identifiers are numbers;
a uuid4 is a number not used before. The canonical digest of an event is taken to be injective. A
database transaction is one atomic step that may commit, roll back, or commit with its answer lost.
Offsets delivered in a partition are consecutive.

## Where the code does not meet a plain reading of its promise

- The pooled loop can lose a record. A record dispatched before a partition was revoked may complete
  after the partition is assigned again and before anything new is dispatched from it. The tracker then
  anchors at that record's predecessor. This is harmless as long as the record is not ahead of the next
  offset of the partition, which the poll thread could test. `PipelineSafety.NoLossPooled` covers every
  run in which no such completion is ahead, `PooledEpochs.StaleDrainSkipsIff` says that exactly the ones
  ahead jump over undelivered offsets, `PooledEpochs.StaleDrainLosesIff` says exactly when the next flush
  then loses something, and `PooledEpochs.PooledLoopCanLose` is a run that does. The sequential loop is
  free of it, because callbacks run inside `poll`.
- The number of outbox attempts is not bounded by the configured maximum once abandoned claims are
  recovered. It is bounded by the maximum plus the number of recoveries (`OutboxSafety.OutboxAlways`), and
  `OutboxSafety.ClaimBoundIsTight` shows that this bound is met for every maximum and every number of recoveries.
- A journey that returns to an abandoned cart is always refused, because the cart remembers its first
  session. `Journey.JourneyBuilder.Build` states that this is the only way a journey is refused, and
  `JourneySpec.ReturningToACartIsRefused` is an example.
- Bounded history can change a fraud verdict. `HistoryContext.RuleDecidesTheSame` gives, rule by rule, the exact
  condition under which a rule finds the same on the pages as on the whole history, and
  `HistoryContext.EngineDecidesTheSame` does so for the engine's findings. Whatever the limit, some history makes the
  verdict differ for the failed-payment burst, because successes share the page with failures
  (`History.NoLimitProtectsBursts`), for several countries (`History.SpreadCanBeCrowdedOut`), for a new device
  (`History.NoLimitProtectsNewDevice`), for the deviating amount (`HistoryContext.NoLimitProtectsHighAmount`) and for
  account takeover (`HistoryContext.NoLimitProtectsTakeover`). Velocity is protected for every history exactly when
  its threshold is within the limit and its window within the lookback, which the configuration does not require
  (`History.ThresholdWithinLimit`). For the facts from earlier payments, whose query has no lookback, all earlier
  payments on the page suffice; `History.PriorIsExact` says what is needed.
- `RunSummary` conserves outcomes only for classified errors: an exception of the transaction outside the error
  classes ends `process` uncounted. A completed-marker recovery that finds the row already stored is counted after
  the offset commit, so it is missed if that commit raises. `MessageProcessor.TallyBalances` states the equations
  with both terms, so each holds as documented exactly when its term is zero.

## Model

| member | source | states |
|---|---|---|
| Frontier.RunEnd | services/event_processor/offset_tracker.py:78-82 | the end of the longest consecutive run above a base: everything up to it is marked, the next offset is not |
| Frontier.RunEndUnique | services/event_processor/offset_tracker.py:34-43 | three facts determine the frontier: it is not below the base, everything up to it is marked, the next offset is not |
| Frontier.MarkRefines | services/event_processor/offset_tracker.py:61-82 | marking one more offset moves a state determined by the set of marked offsets to the one determined by the larger set |
| Frontier.HistoryRefinesRunEnd | services/event_processor/offset_tracker.py:52-88 | after base + 1 is observed, any history of dispatches, completions in any order with repeats, and commits leaves the safe offset, pending set and counter that the set of completed offsets determines |
| Frontier.OrderIndependent | services/event_processor/offset_tracker.py:61-82 | two histories that mark the same set have the same frontier and the same pending set |
| Frontier.BootstrapSkipsIff | services/event_processor/offset_tracker.py:62-73 | without a dispatch floor, the first mark declares an unmarked offset safe exactly when it is ahead of the next offset to be delivered |
| OffsetTracker.HeapPush | services/event_processor/offset_tracker.py:76 | pushing keeps the heap ordered and adds exactly the new element |
| OffsetTracker.DrainStep | services/event_processor/offset_tracker.py:78-81 | one pop of the drain loop moves the frontier by one and keeps heap, seen-set and frontier in agreement |
| OffsetTracker.DrainEnd | services/event_processor/offset_tracker.py:78-82 | where the drain stops is the run end, and what is left lies strictly beyond a gap |
| OffsetTracker.PartitionState.Observe | services/event_processor/offset_tracker.py:52-59 | only the first dispatch sets the floor, and nothing else changes |
| OffsetTracker.PartitionState.MarkTerminal | services/event_processor/offset_tracker.py:61-82 | the heap, seen-set and drain loop compute the set-based mark |
| OffsetTracker.OffsetCommitTracker.MarkTerminal | services/event_processor/offset_tracker.py:122-126 | one partition is marked, the flush counter grows by one, other partitions are untouched |
| OffsetTracker.OffsetCommitTracker.Observe | services/event_processor/offset_tracker.py:128-144 | one partition is observed and no counter changes |
| OffsetTracker.OffsetCommitTracker.Flush | services/event_processor/offset_tracker.py:178-241 | the mapping committed, the state after success, and an unchanged state after a refusal; only a full flush resets the counters |
| OffsetTracker.OffsetCommitTracker.MaybeFlush | services/event_processor/offset_tracker.py:146-154 | flushes exactly when a record is pending and the batch or the interval is full |
| OffsetTracker.OffsetCommitTracker.DropPartition | services/event_processor/offset_tracker.py:171-176 | forgets one partition and nothing else |
| TrackerSpec.FlushKeeps | services/event_processor/offset_tracker.py:178-237 | a refused flush keeps everything and can reissue the same non-empty mapping; a flush that returns leaves nothing to commit in its scope |
| TrackerSpec.NoStrandedCommit | services/event_processor/offset_tracker.py:122-159 | in every state reached from a new tracker a zero record counter means that no partition has an uncommitted safe offset, and committed never passes safe |
| TrackerSpec.BatchBound | services/event_processor/consumer.py:221-228 | a commit_terminal that returns leaves fewer pending records than the batch size |
| TrackerSpec.FlushesWhenDue | services/event_processor/offset_tracker.py:146-159 | a flush happens exactly with a record pending on a full batch or after the interval, it raises exactly when refused with something to commit, and a call that returns leaves nothing due |
| TrackerSpec.MarkedStays | services/event_processor/offset_tracker.py:61-88 | a completion is recorded, and stays so through every later completion, dispatch and flush |
| TrackerSpec.PositionsIncrease | services/event_processor/offset_tracker.py:178-237 | positions committed for a partition strictly increase along every history that does not revoke it |
| Consumer.KafkaEventConsumer.OnAssign | services/event_processor/consumer.py:137-142 | assignment clears exactly the revoked marks of those partitions |
| Consumer.KafkaEventConsumer.OnRevoke | services/event_processor/consumer.py:154-177 | flushes exactly the revoked partitions, swallows a refusal, forgets and marks them either way |
| Consumer.KafkaEventConsumer.ObserveDispatched | services/event_processor/consumer.py:230-236 | passes the dispatch to the tracker |
| Consumer.KafkaEventConsumer.CommitTerminal | services/event_processor/consumer.py:221-228 | raises without any change on a revoked partition; otherwise marks and flushes when due, and the broker moves exactly when it accepts |
| Consumer.KafkaEventConsumer.MaybeFlushIdle | services/event_processor/consumer.py:258-266 | an idle poll flushes only when due |
| Consumer.KafkaEventConsumer.FlushPending | services/event_processor/consumer.py:268-270 | shutdown flushes every partition |
| Loops.Leading | services/event_processor/main.py:142-146 | how many records precede the first that is not terminal |
| Loops.PrefixFrontier | services/event_processor/offset_tracker.py:78-82 | the frontier of the terminal offsets ends right before the first record that is not terminal |
| Loops.RunProcessor | services/event_processor/main.py:102-162 | however a sequential run ends, among records of other partitions and idle flushes, nothing committed passes a record that is not terminal; it ends clean whenever the broker accepts and no record is from a revoked partition; a clean run has finished every record before the first that is not terminal, made exactly the tracker calls of those events, resumes right behind the last of the partition and leaves nothing to commit |
| Loops.RunProcessorPooled | services/event_processor/main_pooled.py:187-260 | in every interleaving of dispatches, completions, other partitions and idle flushes, however the run ends, nothing committed passes a record that is not terminal; it ends clean whenever the broker accepts and nothing is drained for a revoked partition; a clean run has carried out its whole schedule and leaves nothing to commit, and with all completions drained resumes where the sequential loop would |
| Loops.NeverPasses | services/event_processor/offset_tracker.py:61-88 | in every state on track the committed position is at or before the first record that is not terminal |
| RecordProtocol.RetriesUntilLast | services/event_processor/retry.py:29-46 | the retry loop ends at the first answer that is not retryable, or at the last attempt |
| RecordProtocol.LastAttempt | services/event_processor/retry.py:37-45 | every earlier attempt was retryable, and a retryable last answer means the attempts are used up |
| RecordProtocol.DriveTail | services/event_processor/processor.py:226-266 | where completion, release, dead-lettering and the offset step end, for every combination of answers |
| RecordProtocol.DriveHead | services/event_processor/processor.py:97-172 | an invalid record goes to the dead-letter queue, any other depends on the reservation |
| RecordProtocol.Endings | services/event_processor/processor.py:97-266 | which answers lead to which end, each as an if-and-only-if: a record met with another worker's lease or an unavailable Redis is left unresolved; dead letters are exactly the delivered invalid records and those refused for good or too often; and the attempts reported |
| MessageProcessor.MessageProcessor.RunWithRetry | services/event_processor/processor.py:268-303 | one started transaction per attempt, one rollback per failed attempt, one retry between attempts |
| MessageProcessor.MessageProcessor.Commit | services/event_processor/processor.py:464-476 | a commit counts as a success, or as a failure and unresolved |
| MessageProcessor.MessageProcessor.DeadLetter | services/event_processor/processor.py:425-462 | counted dead-lettered exactly when both delivery and offset succeed |
| MessageProcessor.MessageProcessor.Recover | services/event_processor/processor.py:134-160 | the completed-marker branch follows the protocol, and every counter grows by what the record's end and the answers mean |
| MessageProcessor.MessageProcessor.Handle | services/event_processor/processor.py:174-266 | the reserved branch follows the protocol, and every counter grows by what the record's end and the answers mean |
| MessageProcessor.MessageProcessor.Process | services/event_processor/processor.py:91-266 | each call ends where the record protocol says, on the terms of the answers, and adds exactly the contribution of that end to every modelled counter |
| MessageProcessor.MessageProcessor.ProcessAll | services/event_processor/processor.py:91-476 | a run from a fresh summary leaves the tally of its calls, which satisfies the three equations with their exact remainders |
| MessageProcessor.ContributionBalances | services/event_processor/processor.py:91-266 | one call keeps the three equations, except for an exception that escapes the error classes and a recovery whose count is lost |
| MessageProcessor.ContributionMeans | services/event_processor/processor.py:91-476 | every counter on the terms of the answers: the cases in which one call adds one to it |
| MessageProcessor.TallyBalances | services/event_processor/processor.py:91-476 | over any run, exactly: consumed = processed + duplicate + dlq + unresolved + calls ended by unclassified errors, commit successes = processed + duplicate + dlq, started = committed + rolled back + already persisted + recoveries whose count was lost |
| MessageProcessor.NoneUncounted | services/event_processor/processor.py:152-155 | while no offset commit raises, no recovery loses its count |
| MessageProcessor.MergeSummaries | services/event_processor/main_pooled.py:84-130 | every counter of the merged summary is the sum over the workers |
| MessageProcessor.TotalAddsUp | services/event_processor/main_pooled.py:84-130 | each counter of the merged summary is the sum of that counter, and no other, over the workers |
| MessageProcessor.TotalBalances | services/event_processor/main_pooled.py:84-130 | summed summaries satisfy the three equations with the unaccounted calls summed too |
| CommerceInvariants.UpsertLookup | services/event_processor/persistence/repositories/carts.py:49-66 | replacing a line changes exactly the line of that product |
| CommerceInvariants.UpsertOk | services/event_processor/persistence/repositories/carts.py:49-66 | replacing a line keeps one line per product with the right line total |
| CommerceInvariants.AddItemKeeps | services/event_processor/persistence/repositories/carts.py:15-84 | adding or replacing a line keeps every table invariant |
| CommerceInvariants.CheckoutKeeps | services/event_processor/persistence/repositories/carts.py:86-122 | checkout keeps every table invariant |
| CommerceInvariants.PlaceOrderKeeps | services/event_processor/persistence/repositories/orders.py:15-80 | an accepted order keeps every table invariant |
| CommerceInvariants.RecordPaymentKeeps | services/event_processor/persistence/repositories/payments.py:31-96 | an accepted payment keeps every table invariant |
| CommerceInvariants.RecordRefundKeeps | services/event_processor/persistence/repositories/refunds.py:15-96 | an accepted refund keeps every table invariant |
| CommerceInvariants.ReplayIsGood | services/event_processor/persistence/repositories/carts.py:67-83 | after every accepted history: cart totals equal their lines, order totals are consistent and not negative, and customer, session and currency agree along every chain |
| CommerceInvariants.TablesMatchBooks | services/event_processor/persistence/repositories/refunds.py:41-96 | the tables hold exactly the refunds granted and the amount paid that the history itself shows |
| CommerceInvariants.RefundConservation | services/event_processor/persistence/repositories/refunds.py:49-52 | in every accepted history the refunds of a payment are between zero and its amount |
| CommerceInvariants.StatusFollowsRefunds | services/event_processor/persistence/repositories/refunds.py:76-84 | a payment is completed, partially refunded or refunded exactly as its refunds are none, partial or full |
| CommerceInvariants.CartHoldsLastAdditions | services/event_processor/persistence/repositories/carts.py:49-66 | a cart's line for a product is the last accepted addition of that product |
| CommerceAnswers.AnswerOf | services/event_processor/persistence/repositories/orders.py:15-39 | for each kind of event when it is accepted, and that it is refused for now exactly when a parent row is missing |
| CommerceAnswers.AdditionChanges | services/event_processor/persistence/repositories/carts.py:15-84 | an accepted addition changes one line of one cart and its totals, and neither owner, discount nor status |
| CommerceAnswers.CheckoutChanges | services/event_processor/persistence/repositories/orders.py:40-80 | a checkout fixes discount and total of one cart; an order takes all its terms from its cart and marks it ordered |
| CommerceAnswers.PaymentChanges | services/event_processor/persistence/repositories/payments.py:31-96 | a payment adds one row with the order's own terms, and only a completed one marks the order, as paid |
| CommerceAnswers.RefundChanges | services/event_processor/persistence/repositories/refunds.py:62-96 | a refund adds one row, and payment and order show whether anything is left to refund |
| CommerceAnswers.MissingMeansNotYet | services/event_processor/persistence/repositories/payments.py:39-49 | after every accepted history a dependency is missing exactly when no earlier event introduces it |
| CommerceAnswers.OrdersRepeatTheirCarts | services/event_processor/persistence/repositories/orders.py:17-80 | in every accepted history and for ever after, an order's subtotal and item count are the sums of its cart's lines when it was placed, and its total is that less the checkout's discount |
| CommerceStore.Tables.RegisterCustomer | services/event_processor/persistence/repositories/customers.py:9-56 | carries out its specification in place, nearly line by line (registers once, another identity is refused); what the specification guarantees is `CommerceInvariants.ReplayIsGood`, and its use in the transaction is `CommerceStore.Tables.PersistEvent` |
| CommerceStore.Tables.InsertSession | services/event_processor/persistence/repositories/sessions.py:12-54 | carries out its specification in place, nearly line by line (needs the customer, another identity is refused); what the specification guarantees is `CommerceInvariants.ReplayIsGood`, and its use in the transaction is `CommerceStore.Tables.PersistEvent` |
| CommerceStore.Tables.InsertView | services/event_processor/persistence/repositories/product_views.py:9-37 | carries out its specification in place, nearly line by line (needs customer and session, a repeat changes nothing); what the specification guarantees is `CommerceInvariants.ReplayIsGood`, and its use in the transaction is `CommerceStore.Tables.PersistEvent` |
| CommerceStore.Tables.AddCartItem | services/event_processor/persistence/repositories/carts.py:15-84 | header, line and recomputed totals together do what the specification says |
| CommerceStore.Tables.CheckoutCart | services/event_processor/persistence/repositories/carts.py:86-122 | carries out its specification in place, nearly line by line (refuses any disagreement with the stored cart); what the specification guarantees is `CommerceInvariants.CheckoutKeeps`, and its use in the transaction is `CommerceStore.Tables.PersistEvent` |
| CommerceStore.Tables.InsertOrder | services/event_processor/persistence/repositories/orders.py:15-80 | carries out its specification in place, nearly line by line (the order repeats its cart and the cart becomes ordered); what the specification guarantees is `CommerceInvariants.PlaceOrderKeeps`, and its use in the transaction is `CommerceStore.Tables.PersistEvent` |
| CommerceStore.Tables.InsertPayment | services/event_processor/persistence/repositories/payments.py:31-96 | carries out its specification in place, nearly line by line (the payment equals the order, only a completed one marks it paid); what the specification guarantees is `CommerceInvariants.RecordPaymentKeeps`, and its use in the transaction is `CommerceStore.Tables.PersistEvent` |
| CommerceStore.Tables.InsertRefund | services/event_processor/persistence/repositories/refunds.py:15-96 | carries out its specification in place, nearly line by line (a refund within the remaining balance updates payment and order); what the specification guarantees is `CommerceInvariants.RecordRefundKeeps`, and its use in the transaction is `CommerceStore.Tables.PersistEvent` |
| CommerceStore.Tables.InsertIdentity | services/event_processor/persistence/repositories/processed_events.py:21-87 | the ledger's verdict on id, content and coordinate; only a new identity adds a row |
| CommerceStore.Tables.PersistEvent | services/event_processor/persistence/unit_of_work.py:97-233 | the transaction does what the ledger specification says, so it answers as `Ledger.PersistAnswers` describes, and any other result than committed leaves every table as it was |
| Ledger.FindEvent | services/event_processor/persistence/repositories/processed_events.py:31-39 | finds a row with this id if and only if there is one |
| Ledger.PersistEffect | services/event_processor/persistence/unit_of_work.py:110-233 | one attempt keeps the exactly-once form, appends at most its own row, and if it reports success the event is in the ledger |
| Ledger.PersistAnswers | services/event_processor/persistence/unit_of_work.py:110-233 | committed exactly for an event with an unknown id and an unused coordinate that the handler accepts, with that row and the handler's tables; already persisted exactly when the ledger holds the event; when it is refused for now and when for good |
| Ledger.RedeliveryIsHarmless | services/event_processor/persistence/repositories/processed_events.py:40-42 | a recorded event is reported already persisted from any coordinate and nothing changes |
| Ledger.KnownIdWritesNothing | services/event_processor/persistence/repositories/processed_events.py:40-45 | a known id never causes a new row, even with other content |
| Ledger.RecordedStays | services/event_processor/persistence/repositories/processed_events.py:31-45 | as the ledger grows a known id keeps its content |
| Ledger.ExactlyOnceIsGood | services/event_processor/persistence/unit_of_work.py:132-154 | a database in exactly-once form satisfies all table invariants and conserves refunds |
| Idempotency.IdempotencyStore.Reserve | services/event_processor/idempotency.py:19-28 | takes the lease only when the key is absent, and tells a completed marker from a live lease |
| Idempotency.IdempotencyStore.Complete | services/event_processor/idempotency.py:30-37 | replaces the lease by the marker only for its own token |
| Idempotency.IdempotencyStore.Release | services/event_processor/idempotency.py:39-45 | deletes the lease only for its own token |
| PipelineRecords.StepKeepsRecords | services/event_processor/processor.py:91-266 | every step, stale completions included, keeps what is known of records, leases, tokens and the ledger, and only adds to the durable state |
| PipelineSteps.ReserveMeans | services/event_processor/processor.py:124-172 | a reservation leases a free event, sends a completed one to be reconciled, and leaves one leased by another worker alone: no lease, ledger row, dead letter or offset changes, the record's work ends and a sequential loop stops |
| PipelineSteps.TransactMeans | services/event_processor/processor.py:176-225 | a stored event goes on to completion or commit, a missing dependency is retried while attempts are left, anything else goes the way of the dead letters |
| PipelineSteps.CompleteMeans | services/event_processor/processor.py:226-239 | only the lease holder's answered completion leads to a commit |
| PipelineSteps.PublishMeans | services/event_processor/processor.py:439-446 | a confirmed dead letter leads to the commit, any other answer leaves the record for later |
| PipelineSteps.FinishMeans | services/event_processor/consumer.py:221-228 | the sequential commit records the offset, and ends the loop on a revoked partition |
| PipelineSteps.AssignMeans | services/event_processor/consumer.py:137-142 | a new owner starts at the committed position or the origin |
| PipelineSteps.RevokeMeans | services/event_processor/consumer.py:154-177 | a revocation commits what the lost partitions finished if the broker accepts, and forgets them either way |
| DeadLetters.DeadLettersAreJustified | services/event_processor/processor.py:185-224 | in every run a record is dead-lettered only if it is malformed or one of its transactions was refused for good or was its last attempt |
| FaultFree.CalmRunsStoreEverything | services/event_processor/main.py:102-162 | in every run without faults over acceptable records the ledger holds the records in order, nothing is dead-lettered, and a shutdown leaves the next owner right behind the last finished one |
| FaultFree.CalmRunsGetThere | services/event_processor/main.py:102-162 | from any point of such a run at most six steps a record lead to every record in the ledger, an empty dead-letter topic and the position behind the last |
| PipelineSafety.StepKeeps | services/event_processor/processor.py:91-266 | every processor and environment step keeps the safety invariant, except a stale completion ahead of its partition's next offset |
| PipelineSafety.NoLossSingleThreaded | services/event_processor/main.py:102-162 | in every reachable state of sequential processors each offset below a committed position is in the ledger with its id and content, or in the dead-letter topic |
| PipelineSafety.NoLossPooled | services/event_processor/main_pooled.py:162-254 | the same for any mixture of pooled and sequential processors, in runs where no completion of an earlier epoch is ahead of its partition's next offset |
| PipelineRecords.ExactlyOnceAlways | services/event_processor/persistence/unit_of_work.py:110-233 | in every run the tables are the fold of the handlers over the ledger, no id or coordinate is in the ledger twice, and rows are only added |
| PipelineRecords.TablesAreAlwaysGood | services/event_processor/persistence/unit_of_work.py:132-154 | in every state reached from a log of schema-valid events all table invariants hold and refunds are conserved |
| PooledEpochs.PooledLoopCanLose | services/event_processor/consumer.py:141-142 | a concrete run across two ownership epochs, with the default batch size, whose interval flush commits past an unhandled record |
| PooledEpochs.StaleDrainSkipsIff | services/event_processor/offset_tracker.py:71-73 | a stale completion declares an undelivered offset safe exactly when it is ahead of the partition's next offset, whether or not it triggers a flush |
| PooledEpochs.StaleDrainLosesIff | services/event_processor/main_pooled.py:187-196 | after a stale completion the tracker stays sound, and the next full flush loses nothing, exactly when every record between the partition's next offset and the completion was handled, for every batch size and commit answer |
| LeaseFencing.LeaseIsFenced | services/event_processor/idempotency.py:30-45 | besides expiry only the holder's own token changes a live lease, and a completed marker does not change |
| LeaseFencing.OneHolder | services/event_processor/processor.py:124-128 | in every run at most one worker holds the live lease of an event, with one token |
| LeaseFencing.RecoveryWritesNothing | services/event_processor/processor.py:134-160 | in every run the completed-marker branch writes no row, whatever else goes wrong with its transaction |
| LeaseFencing.ReachableIsFenced | services/event_processor/processor.py:225-239 | in every run, stale completions included, a completed marker stands for a ledger row |
| Outbox.Tickets | services/fraud_outbox_publisher/repository.py:69-84 | a claim hands out one record for each claimed row, with the increased attempt number and the new token |
| OutboxSafety.RowsAdvance | services/fraud_outbox_publisher/repository.py:112-152 | one step never loses a row or its alert, never changes a published or failed row, publishes only for the holder of the live claim, and raises attempts only by a claim |
| OutboxSafety.StaleHolderIsHarmless | services/fraud_outbox_publisher/repository.py:120-143 | published and failed called without the live claim change nothing |
| OutboxSafety.StepKeeps | services/fraud_outbox_publisher/repository.py:30-152 | every step of every publisher keeps the protocol invariant |
| OutboxSafety.OutboxAlways | services/fraud_outbox_publisher/repository.py:30-152 | in every reachable state: a token exactly while publishing, published only after a confirmed delivery, failed only after all attempts, claims at most maximum plus recoveries, no queued alert without its row |
| OutboxSafety.RunRowsAdvance | services/event_processor/fraud/repository.py:98-165 | over any stretch of a run from a state with the invariant rows stay, keep their alert, and are final once published or failed |
| OutboxSafety.WritesRunOut | services/fraud_outbox_publisher/service.py:59-90 | every write to a row other than recovery uses up a non-negative measure |
| OutboxSafety.OneLiveClaim | services/fraud_outbox_publisher/repository.py:31-68 | in every run at most one publisher holds a row's live claim |
| OutboxSafety.ClaimBoundIsTight | services/fraud_outbox_publisher/repository.py:33-43 | for every configuration and n some run claims one row maximum + n times with n recovered claims |
| OutboxSafety.DelayBounds | services/fraud_outbox_publisher/repository.py:131-134 | retry delays never shrink with attempts and stay between the initial and maximum backoff |
| OutboxSafety.DelayDoubles | services/fraud_outbox_publisher/repository.py:131-134 | the delay starts at the initial backoff and doubles with every further attempt up to the maximum |
| OutboxSafety.FailureBacksOff | services/fraud_outbox_publisher/repository.py:127-152 | for the live claim: failed for good exactly at the last attempt, otherwise pending until the backoff delay has passed, and no other row changes |
| OutboxSafety.RetryWaits | services/fraud_outbox_publisher/repository.py:49 | a pending row is not touched before it becomes available |
| OutboxSafety.RowsInEveryRun | services/fraud_outbox_publisher/repository.py:44-152 | in every run from the start, from any point on: each step changes a row only as allowed, rows stay and keep their alert, published and failed rows are final, and a pending row is untouched before it is available |
| OutboxSafety.FailureInEveryRun | services/fraud_outbox_publisher/repository.py:127-152 | in every run from the start a failure reported for a live claim ends the row exactly at the last attempt and otherwise delays it within the backoff bounds |
| OutboxSafety.StepMeans | services/fraud_outbox_publisher/repository.py:30-152 | what each step does to a row: a claim leaves a claim that is not older than the ttl alone, gives up or takes over an older one and takes available pending rows; the holder's mark publishes; nothing else touches rows |
| OutboxSafety.LiveClaimStands | services/fraud_outbox_publisher/repository.py:33-43 | until the ttl has passed only the holder can change a claimed row, whatever other publishers do |
| OutboxSafety.ClaimsInEveryRun | services/fraud_outbox_publisher/repository.py:33-68 | both from the start of every run |
| OutboxService.OutboxRepository.Claim | services/fraud_outbox_publisher/repository.py:30-84 | takes the oldest free rows up to the batch under one new token, where a row is free if it is pending or its claim is older than the ttl, gives up the other old claims and leaves all younger ones alone |
| OutboxService.OutboxRepository.SelectDue | services/fraud_outbox_publisher/repository.py:44-56 | the oldest due rows, and none left behind while the batch has room |
| OutboxService.OutboxRepository.MarkPublished | services/fraud_outbox_publisher/repository.py:112-125 | publishes only the live claim and reports a lost one |
| OutboxService.OutboxRepository.MarkFailed | services/fraud_outbox_publisher/repository.py:127-152 | gives back or finally fails only a row whose token matches |
| OutboxService.OutboxService.RunBatch | services/fraud_outbox_publisher/service.py:47-90 | each claimed row ends as its own record's answers say, each counter grows by the records that end its way, and claimed = published + retried + failed |
| OutboxService.BatchSettles | services/fraud_outbox_publisher/service.py:59-90 | every row of a batch is settled by its own record's answers and no other row changes |
| OutboxService.HandlingIsARun | services/fraud_outbox_publisher/service.py:59-90 | the service's treatment of a record is a run of the outbox protocol |
| OutboxService.LostAcknowledgementIsHarmless | services/fraud_outbox_publisher/service.py:73-74 | the retry after a lost answer cannot undo a publication |
| JourneySpec.HalfEvenIsNearest | services/event_generator/journey.py:456 | rounding moves an amount by at most half a unit |
| JourneySpec.TotalsAreSound | services/event_generator/journey.py:212-225 | for every product, quantity and persona the total is positive and half of it is a legal refund |
| JourneySpec.OnlyTheLastPays | services/event_generator/journey.py:494-547 | within the attempt limit all but the last payment attempt failed |
| JourneySpec.ScriptMeans | services/event_generator/journey.py:108-306 | each kind of event occurs exactly as often as the draws say: one success exactly when some attempt pays after failed ones, a refund exactly after a success |
| JourneySpec.TermsOfFit | services/event_generator/journey.py:188-225 | the product is a viewed one, dearest or cheapest where the persona says so; the discount is the persona's percentage to the nearest hundredth where one applies, else zero |
| JourneySpec.ReturningToACartIsRefused | services/event_generator/journey.py:190-194 | a concrete returning customer whose addition to an abandoned cart is refused |
| Journey.JourneyBuilder.Begin | services/event_generator/journey.py:337-367 | a new customer needs room in the pool; logical time starts now, or exactly when the return delay since the last activity has passed |
| Journey.JourneyBuilder.Pay | services/event_generator/journey.py:475-547 | payment attempts follow the script, are accepted when the order was, and leave a refundable payment when one succeeds |
| Journey.JourneyBuilder.Commit | services/event_generator/state.py:127-142 | replaces one customer, refusing a full pool and activity that moves backwards |
| Journey.JourneyBuilder.Build | services/event_generator/journey.py:108-306 | after any number of earlier journeys: the events follow the script, carry the amounts of the journey's terms, meet their schemas, are one action delay apart, and are all accepted by the store exactly when no abandoned cart is reused; the customer is replaced by what it remembers |
| Fraud.Evaluate | services/event_processor/fraud/engine.py:30-49 | the first failing rule ends the evaluation with its own error; otherwise the score is the lesser of 100 and the points of the matched shares, block, review and approve follow the two thresholds exactly, and the severity is the greatest of the matched ones and the decision's own |
| Fraud.HistoryRulesAdd | services/event_processor/fraud/rules/velocity.py:18-34 | for which events and counts the rules on history match, and the score and severity they add |
| Fraud.CountryRuleAdds | services/event_processor/fraud/rules/geography.py:24-42 | what a purchase away from home and several recent countries add |
| Fraud.EventRulesAdd | services/event_processor/fraud/rules/account_takeover.py:30-45 | when the rapid-checkout and amount-mismatch rules match and what they add |
| Fraud.AmountRuleAdds | services/event_processor/fraud/rules/amount.py:34-57 | what a large amount and one above the multiple of the average add |
| Fraud.RefundRuleAdds | services/event_processor/fraud/rules/refund.py:19-47 | three recent refunds match, and two with a hasty and nearly full one |
| Fraud.EngineOutcome | services/event_processor/fraud/engine.py:30-49 | success of the loop and its verdict, characterised rule by rule |
| Fraud.BuiltInIsSound | services/event_processor/fraud/rules/helpers.py:20-31 | every built-in rule scores between zero and its own maximum, and nothing when it does not match |
| Fraud.BuiltInsAreSound | services/event_processor/fraud/engine.py:44-47 | built-in rules never trip the engine and the score lies within 0..100 |
| Fraud.SeverityMatchesDecision | services/event_processor/fraud/scoring.py:25-40 | a block is at least high and a review at least medium |
| Fraud.MoreResultsNeverHelp | services/event_processor/fraud/scoring.py:18-41 | adding a result never lowers score, decision or severity |
| Fraud.KindIsMonotone | services/event_processor/fraud/rules/amount.py:34-58 | raising the amount never weakens any rule's finding |
| Fraud.RaisingTheAmountNeverHelps | services/event_processor/fraud/scoring.py:18-41 | raising the amount, other facts fixed, never lowers score, decision or severity |
| Fraud.OrderDoesNotMatter | services/event_processor/fraud/engine.py:32-49 | any permutation of the rules gives the same verdict |
| Fraud.HitCounts | services/event_processor/fraud/scoring.py:23-41 | one matched rule is a lower bound on score and severity, wherever it stands |
| Fraud.MismatchBlocks | services/event_processor/fraud/rules/amount.py:69-80 | if the mismatch score reaches the block threshold, a payment that does not reconcile is blocked as critical whatever else is known |
| Fraud.TakeoverCountsSignals | services/event_processor/fraud/rules/account_takeover.py:39-49 | the composite rule matches exactly when enough different signals show at once |
| Fraud.TakeoverBlocks | services/event_processor/fraud/rules/account_takeover.py:56-87 | if the takeover score reaches the block threshold, enough signals at once block as critical |
| Fraud.NoHitApproves | services/event_processor/fraud/scoring.py:31-37 | without a matched rule the verdict is approval with score zero and low severity |
| History.BoundedCount | services/event_processor/fraud/context.py:133-144 | a window counted inside the newest rows counts the lesser of the limit and the exact number |
| History.VerdictOf | services/event_processor/fraud/rules/velocity.py:21-24 | for one history the bounded query decides as the full one exactly when the threshold is not reached, or is within the limit and reached within the lookback |
| History.ThresholdWithinLimit | services/event_processor/fraud/rules/velocity.py:21-24 | it does so for every history exactly when the threshold is zero, or within the limit with the window within the lookback |
| History.BoundedFailures | services/event_processor/fraud/context.py:210-221 | bounded failures plus the failures cut off by the limit are the exact number within the lookback; so they are exact if and only if none was cut off, as when the window fits the page |
| History.BurstVerdictOf | services/event_processor/fraud/rules/payment.py:21-24 | the burst is judged as on the whole history exactly when neither the limit nor the lookback hides a crossing of the threshold |
| History.NoLimitProtectsBursts | services/event_processor/fraud/rules/payment.py:21-24 | it is judged so for every history exactly when the threshold is zero |
| History.BoundedCountries | services/event_processor/fraud/context.py:213-224 | the countries on the page together with the hidden ones are those of the window, and the page shows all exactly when every hidden one is on it |
| History.SpreadVerdictOf | services/event_processor/fraud/rules/geography.py:24-33 | several countries are seen as on the whole history exactly when the page shows two, or there are not two with the hidden ones |
| History.SpreadCanBeCrowdedOut | services/event_processor/fraud/rules/geography.py:24-33 | for every limit some history has several countries of which the page shows at most one |
| History.PriorIsExact | services/event_processor/fraud/context.py:145-156 | for earlier payments: the successes are exact if and only if none was cut off, the devices if and only if each device cut off is on the page, the average if and only if the amounts cut off have the mean of the page |
| History.PriorMembers | services/event_processor/fraud/context.py:146-156 | the earlier payments are those strictly before the event, whatever their age |
| History.NewDeviceVerdictOf | services/event_processor/fraud/rules/device.py:21-26 | the new-device rule decides as on the whole history exactly when the cut hides neither the device nor the successes it needs |
| History.PastCanBeCrowdedOut | services/event_processor/fraud/context.py:145-156 | for every limit some history has successes, a device and an average of which the page shows nothing |
| History.NoLimitProtectsNewDevice | services/event_processor/fraud/rules/device.py:21-26 | for every limit some new device goes unnoticed; a known device is taken for new in some history exactly when the limit reaches the required number of successes |
| HistoryContext.SignalsKept | services/event_processor/fraud/rules/account_takeover.py:56-74 | established history, new device and deviating amount each agree with the whole history exactly under their own condition on the rows cut off |
| HistoryContext.SignalsShift | services/event_processor/fraud/rules/account_takeover.py:56-74 | the number of signals on the whole history is the one on the page plus what the rows cut off change, each judged by its own condition |
| HistoryContext.RuleDecidesTheSame | services/event_processor/fraud/context.py:133-224 | each built-in rule finds the same on the paged context as on the one of the whole history exactly when its own condition on limit, lookback and cut rows is met |
| HistoryContext.EngineDecidesTheSame | services/event_processor/fraud/engine.py:30-49 | all findings of the engine agree exactly when every rule that applies to the event meets its condition, and then the verdict agrees |
| HistoryContext.NoLimitProtectsHighAmount | services/event_processor/fraud/rules/amount.py:34-47 | for every limit some deviating amount is not recognised on the page |
| HistoryContext.NoLimitProtectsTakeover | services/event_processor/fraud/rules/account_takeover.py:56-74 | for every limit and required number of signals some takeover is recognised on the whole history and not on the page |
| History.BurstCanBeCrowdedOut | services/event_processor/fraud/context.py:133-144 | for every limit and threshold some burst of failures is invisible |
| Pacing.Pace | services/demo_control_api/services/scenario_runner.py:231-266 | event k starts no earlier than k intervals after the start and no later than that plus the delays so far, and any k consecutive gaps last at least k - 2 intervals |
| Pacing.NoLongBurst | scripts/benchmark/direct_injector.py:219-228 | the same spacing bound for all delays, from the rebase |
| Pacing.RebaseCatchesUp | services/demo_control_api/services/scenario_runner.py:256-259 | the next deadline is never more than one interval behind an event's start |
| Pacing.NeverIdle | services/demo_control_api/services/scenario_runner.py:247-263 | event k is late by at most the delays before it |
| Pacing.OnSchedule | services/demo_control_api/services/scenario_runner.py:247-263 | when every event is published within its interval each starts exactly on schedule |
| Pacing.BurstBoundIsTight | services/demo_control_api/services/scenario_runner.py:256-259 | the k - 2 bound is reached by a concrete stall |
| Validation.GroupHeaders | services/event_processor/validation.py:83-85 | groups every value of a header in order |
| Validation.ValidateMessage | services/event_processor/validation.py:76-223 | the checks in order, with the anomaly each error reports |
| ValidationFaults.CategoryReported | services/event_processor/validation.py:76-223 | each category is reported exactly when the record has that fault and none that is checked earlier, and a record is valid exactly when it has no fault |
| Validation.RoundTrip | services/event_generator/anomalies.py:14-23 | a message built from an event validates to that event exactly when its version is 1 |
| Validation.OnlyRequiredHeadersMatter | services/event_processor/validation.py:93-125 | the verdict depends on headers only through the values of the required ones |
| Validation.ExtraHeadersAreIgnored | services/event_processor/validation.py:83-125 | appending any non-required headers never changes the verdict |
| Validation.TagIsReported | services/event_generator/anomalies.py:128-150 | the anomaly tag never changes a verdict and is what the error reports |

## Left out

- Kafka, Redis and PostgreSQL clients, connection pooling, SQL isolation and schema checks at start-up: each remote call is one atomic step with success and failure outcomes.
- Exceptions outside the error classes from the reservation, the completion and the dead-letter publication: in `MessageProcessor` only the transaction raises them; the step system lets any call fail or lose its answer.
- Metrics, logging, health files, signals, HTTP endpoints, dashboards and reports: no property lives there.
- The fraud tables inside the ingest transaction: the transaction model has the ledger and the business tables; an alert with its outbox row enters the outbox model as one step.
- `fraud_alert_created` events and their handler: they write no business row.
- NUMERIC scale and rounding, 32-bit counters, the text form of IP addresses and UUIDs: money is exact, identities are compared as wholes.
- Division of Decimals to 28 digits in averages and refund rates: exact real numbers instead.
- The layout of `heapq`: the pending heap is an ascending list, which has the heap's observable behaviour.
- A handler missing from the registry, and event types without a handler: every event type has one here.
- Retry delays between processing attempts and their jitter: the protocol does not depend on them.
- Worker threads of the pooled loop step by step: the pool appears as any order of completions, and the step system interleaves the workers' calls.
- Order status after several completed payments on one order: it follows the latest event, so only payment status is claimed.
- Partitions with missing offsets: the frontier stalls there.
- `JourneyBuilder` draws: which personas, products and repeats the probabilities choose is left to the parameters of a journey; ranking and repeated views are not modelled.
- Customer statistics that no later decision reads (totals, spend, device and session lists).
- Interleaving of several customers' journeys: journeys reach the store one after another.
- Anomaly mutations other than the tag: they are meant to be refused.
- The progress updater of the scenario runner, demo run status changes, migrations, benchmark samplers and percentile helpers.
