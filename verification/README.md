# Verified model of the rocket order system

A Dafny model of the services behind a rocket order: the order service with its `orders` table,
the payment service, the inventory, the assembly service, the two Kafka topics between them, and
the platform code that consumes messages and shuts a service down. `dafny verify dfyconfig.toml`
checks everything.

## What is modelled

**The saga** (`Saga`, `SagaSafety`, `SagaSteps`, `SagaResults`, `SagaCharges`, `SagaAnnouncements`,
`SagaEdges`, `SagaDoublePay`, `SagaDuplicates`, `SagaSerial`, `SagaStranded`, `SagaDrain`,
`SagaExamples`, `OrderService`, `OrderAnswers`, `OrderTable`, `Payments`). One state
holds the table, the payment ledger, the requests in flight with the row each of them read, the
topics `order.paid` and `order.assembled`, and the offsets of their consumers. `Pay`, `Cancel` and
the two handlers are split at every I/O point, so any other step may come in between; every call
can fail before or after it took effect, a handler can fail or panic, a message can be delivered
again, and a request can be abandoned anywhere. The results speak of all runs from the empty
system. `OrderService.Services` writes the same operations as they run, and each is proved to do
exactly what its own steps do when nothing comes in between. `SagaSteps` says of each step when it can
be taken and what the whole state is after it, and `OrderAnswers` what a caller is told, neither of them
through the functions that the steps are made of.

**The consumer** (`Kafka`, `KafkaSessions`). The middleware fold, the claim loop and the session loop. A message is
its offset. Taken from the Kafka client: marking moves the mark to the offset plus one and never
backwards, a commit stores a value between the last committed offset and the mark, and a session
resumes at the committed offset, or at the oldest one when there is none.

**Shutdown** (`Shutdown`, `ShutdownOutcomes`, `Closer`). `CloseAll` as interleaved goroutines: workers, the goroutine
that waits and closes the channel, the reader, and the context. Above it the once flag, the swap
of the list and any number of concurrent callers. `ShutdownOutcomes` reads outcomes, errors and the
result off the steps of a run.

**The parts query and the price** (`Country`, `PartsQuery`, `InventoryApi`, `PartsAnswers`,
`OrderCreate`, `CreateExamples`). The
Mongo filter against the promised meaning of a filter, the collection that `CreateBatch` builds,
the call across the wire, and the length check and `int64` total of `Create`.

**Small cores** (`Money`, `Router`, `OrderJson`, on `Ids` and `Prelude`). The price printer, the
generated prefix-tree router with the client's paths, and the generated codec of an order with its
required-field bit set.

## Where the code and its promises part

The model follows the code. For each case below the exact condition is proved, and a run or an
input shows that it occurs.

- `shared/api/order/v1/paths/order_cancel.yaml:9-12` promises a conflict when a paid order is
  cancelled. Between the read and the write another request can pay it. `StaleExactlyWhenRaced`: a
  write is stale exactly when another write to the order landed after the request's read.
  `DesignedExactlyWhenUnraced`: all writes of a run follow the designed transitions exactly when no
  write of `Pay` or `Cancel` was raced. `OverlapCompletesCancelledOrder` is a run in which a
  cancelled order carries a transaction and is completed.
- `shared/api/order/v1/paths/order_pay.yaml:53-56` promises a conflict for every state in which an order
  cannot be paid. `ConflictExactly`: an order that is no longer pending is answered so exactly when it is
  not COMPLETED; that one is an unknown status. `PayAnswers` and `CancelAnswers` list every answer.
- An order can be paid twice. `PaidOnceExactlyWhenUnraced`: this happens exactly when one payment of the
  order is written between the read and the write of another; `OrderIsPaidTwice` is a run.
- A user can be charged for an order that stays unpaid. `EveryChargeHasOneFate`: in any run a charge
  is written, or held by one request, or was given up by one of four events. For a `Pay` that nobody
  disturbs, `ChargedExactly` and `ChargedButUnpaid` say when; `ChargedOrderStaysPending` is a run.
- Nothing retries the message of a paid order. `EveryPaymentHasOneFate`: in any run a written payment has
  its message on the topic, or a request about to send it, or its message was given up by one of
  three events and is never sent. `StrandedExactly` and `StrandedForever` say which orders stay PAID for
  ever when requests on one order do not overlap; `PaidOrderHasNoMessage` is a run.
- A message is lost when no call of its handler succeeds and its offset is committed all the same: a
  recovered panic counts as success, and a failed message is passed over by a later success.
  `LostExactly`: this happens exactly when no session that delivered it handled it, and some session
  acknowledged it or a later one and committed past it. `UnacknowledgedExactly` is the same for what the
  chain returned, where a panic counts as success. `FailedMessageIsLost` and `PanickedMessageIsLost`
  are runs in which a paid order gets no ship.
- `shared/proto/assembly/v1/assembly.proto:20-21` asks consumers to deduplicate by event id, and no
  consumer does. `ShipsRepeatExactly`: the same ship is on `order.assembled` twice exactly when the
  consumer restarted at or below an offset whose ship was sent, and sent it again; `ShipIsSentTwice` is
  a run. For the orders themselves repetition is harmless (`DeliveriesDependOnSet`).
- `platform/closer/closer.go:157` says functions run in reverse order. They are only started in that
  order. `ReverseOrderExactly`: the order is certain exactly when there is at most one function;
  `AllRunAtOnce`: all may run at the same time.
- A later `CloseAll` returns nil even if the first returned an error (`FirstCloseAll`, and
  `LaterCallHidesError` as a run).
- `Create` refuses a request that names a part twice as part-not-found (`LengthCheckIsExact`,
  `RepeatedPartIsRefused`), its total wraps around at 64 bits (`TotalIsWrappedSum`,
  `OverflowMakesOrderFree`, `OverflowIsRefusedByTable`), and a part stored without a timestamp makes
  the inventory's handler panic (`AnsweredExactly`, `UntimedPartIsRefused`); `CreateBatch` sets only the
  creation time.
- A filter's unknown category arrives as UNKNOWN and then selects UNKNOWN parts. `MeaningArrivesExactly`:
  the inventory selects what the filter means exactly when it names known categories only, or UNKNOWN
  itself; `CategorySevenSelectsUnknown` is an input.
- The smallest `int64` prints with two minus signs, and no other price does (`AcceptedExactly`,
  `SmallestPriceIsRefused`).

## Model

| member | source | states |
|---|---|---|
| SagaSafety.StepKeepsInv | order/internal/service/order/service.go:131-285 | every step of every service, with any failure, keeps the invariant that ties rows, requests, ledger, messages and consumers together; writes only move rows forward and charges are never forgotten |
| SagaSafety.RunKeepsInv | order/internal/service/order/service.go:131-285 | hence so does every run |
| SagaSafety.SafeWriteLands | order/internal/repository/order/repository.go:107-130 | a patch that passes the guards and leaves a good row lands unless the database is down before it, and then changes nothing; an error is reported exactly when the database has one |
| SagaSafety.ChargeKeepsInv | order/internal/service/order/service.go:164-183 | the charge and the parsing of its answer, reached or lost, leave a request whose transaction and method come from that one charge |
| SagaSafety.AssembleKeepsInv | assembly/internal/service/assembly/service.go:53-108 | handling a paid message, however it goes, keeps the invariant: every assembled message repeats a paid one, and a call that returned nil has its message on the topic |
| SagaSafety.CompleteKeepsInv | order/internal/service/consumer/order/consumer.go:47-60 | handling an assembled message, however it goes, leaves a payment behind every COMPLETED row |
| SagaSafety.ShipNamesPaidOrder | assembly/internal/service/assembly/service.go:94-104 | the order of an assembled message exists, belongs to the message's user and carries a transaction |
| SagaSteps.CreateStep | order/internal/service/order/service.go:116-121 | a creation is possible for a new id, a user and at least one part; the row then has exactly that user, those parts and that price, is pending and without payment, unless the price is negative or the database down |
| SagaSteps.PayChargeStep | order/internal/service/order/service.go:164-183 | the user is charged exactly when the service is reached with a known method, for the order as read, its own user and that method; only a readable answer lets the request go on |
| SagaSteps.PayRecordStep | order/internal/service/order/service.go:179-191 | in every reachable state the write of `Pay` sets transaction, method and status of the row as it is by then, and nothing else of it; the request goes on only if the write is acknowledged |
| SagaSteps.PayAnnounceStep | order/internal/service/order/service.go:193-202 | in every reachable state a request that is to announce has a payment; the message repeats its order and is on the topic unless the send is rejected, and the request ends |
| SagaSteps.CancelRecordStep | order/internal/service/order/service.go:243-252 | in every reachable state the write of `Cancel` sets the status alone, over whatever the row has become |
| SagaSteps.AssembleStep | assembly/internal/service/assembly/service.go:53-108 | in every reachable state: the ship of the next paid message is sent exactly on success and on a failure after the send; the call is recorded as nil, failed or panicked as it went; the mark moves exactly on success and on a recovered panic |
| SagaSteps.CompleteStep | order/internal/service/consumer/order/consumer.go:47-60 | in every reachable state: the order of the next ship becomes COMPLETED exactly on success and on a failure after the write; an error of `Complete` is a failure and a panic a panic; the mark moves exactly on success and on a recovered panic |
| SagaSteps.OffsetSteps | platform/kafka/consumer/consumer.go:36-55 | a commit and a restart are always possible, on either topic, and change only that topic's group: the committed offset moves up to the mark at most and never back, and a restart begins at it |
| SagaResults.PaymentDataIsWhole | order/internal/repository/order/repository.go:83-105 | in every reachable state PAID and COMPLETED rows have a transaction and a method; any row has both or neither, from one charge for that order and its own user, never UNKNOWN; PENDING rows have none |
| SagaResults.OrdersOnlyMoveForward | order/internal/service/order/service.go:145-188 | along every run an order keeps user, parts and price although whole stale snapshots are written back, never becomes PENDING again and never loses its payment |
| SagaResults.ChargesAreOwned | order/internal/service/order/service.go:164-167 | in every reachable state every charge in the ledger names an existing order and that order's own user |
| SagaResults.WritesAreNeverRefused | order/migrations/20260109125953_add_orders_table.sql:36-39 | no UPDATE the services send, in any reachable state, is refused by the guards, a constraint or a missing row; it fails only with the database |
| SagaResults.StaleExactlyWhenRaced | order/internal/service/order/service.go:234-249 | the write of `Pay` or `Cancel` meets an order that is no longer PENDING if and only if another write to it landed after the request's read |
| SagaResults.OvertakenMeansRaced | order/internal/service/order/service.go:145-188 | a write that landed after the read was landed by some step of the run after the one that opened the request |
| SagaResults.RacedMeansOvertaken | order/internal/service/order/service.go:145-188 | and every such step left its write in the history after the read |
| SagaResults.ShipsAreTraceable | assembly/internal/service/assembly/service.go:94-104 | every assembled message has the event, order and user of some paid message, whose charge is in the ledger |
| SagaResults.CommittedPaymentsAreAssembled | assembly/internal/service/assembly/service.go:82-86 | a paid message below the committed offset without an assembled message was delivered, every call for it failed or panicked, and either one panicked or none was acknowledged and a later success passed over it |
| SagaCharges.EveryChargeHasOneFate | order/internal/service/order/service.go:167-191 | in every reachable state every charge has exactly one of three fates: a write that landed carries it, a request is still about to write it, or it was given up (answer lost or unreadable, database down before the write, request abandoned), and then no row carries it |
| SagaAnnouncements.EveryPaymentHasOneFate | order/internal/service/order/service.go:188-202 | in every reachable state every payment that was written has exactly one of three fates: one message on the topic carries it, a request is about to send it, or it was given up (send rejected, write reported as failed although it landed, request abandoned); no message carries any other payment |
| SagaAnnouncements.UnsentForever | order/internal/service/order/service.go:193-202 | a message that was given up is never sent, whatever follows and however requests overlap |
| SagaDoublePay.PaidOnceExactlyWhenUnraced | order/internal/service/order/service.go:145-191 | in every run at most one write per order sets PAID if and only if no payment was written between the read and the write of another payment of the same order |
| SagaDuplicates.ShipsRepeatExactly | shared/proto/assembly/v1/assembly.proto:20-21 | in every run the same ship is on the topic twice if and only if the consumer restarted at or below an offset whose ship was sent, and sent it again |
| SagaDuplicates.ShipsRepeatWithOffsets | assembly/internal/service/assembly/service.go:89-107 | in every run the ships on the topic are distinct exactly when no paid message sent its ship twice |
| SagaDuplicates.ShipIsSentTwice | platform/kafka/consumer/group_handler.go:57-62 | a concrete run: a restart before the first commit, and the one paid order's ship is on the topic twice |
| SagaEdges.DesignedExactlyWhenUnraced | order/internal/service/order/service.go:131-285 | for every run and any overlap, all landed writes follow the designed transitions if and only if no landed write of `Pay` or `Cancel` was raced by another write to its order |
| SagaEdges.StepMetPending | order/internal/service/order/service.go:181-188 | a step keeps the history free of writes that met a non-pending order exactly when its own write, if it is one of `Pay` or `Cancel` that lands, meets a pending one |
| SagaExamples.FailedMessageIsLost | platform/kafka/consumer/group_handler.go:57-62 | a concrete run: two paid messages are committed, the handler failed on the first, and its order gets no ship |
| SagaExamples.PanickedMessageIsLost | platform/kafka/middleware/recovery.go:15-26 | a concrete run: the handler panicked on the one paid message, which is committed and gets no ship |
| SagaExamples.ChargedOrderStaysPending | order/internal/service/order/service.go:167-171 | a concrete run: the answer of the payment service is lost, the user is charged and the order still pending |
| SagaExamples.PaidOrderHasNoMessage | order/internal/service/order/service.go:193-202 | a concrete run: the send is rejected, the order is PAID, and no request is left to announce it |
| SagaExamples.OrderIsPaidTwice | order/internal/service/order/service.go:145-191 | a concrete run: two overlapping payments of one order are both charged and written |
| SagaStranded.StrandedExactly | order/internal/service/order/service.go:188-202 | when requests on one order do not overlap, an order is PAID without a message and without a request that could send it exactly when a step stranded it: a rejected send, a write reported as failed although it landed, or a request abandoned before the send |
| SagaStranded.StrandedForever | order/internal/service/order/service.go:193-202 | such an order stays PAID without a message whatever follows |
| SagaSerial.OnlyDesignedTransitions | order/internal/service/order/service.go:154-162 | when requests on one order do not overlap, every write moves PENDING to PAID, PENDING to CANCELLED, PAID to COMPLETED or COMPLETED to COMPLETED |
| SagaSerial.StatusFollowsDesign | order/internal/service/order/service.go:242-262 | then CANCELLED and COMPLETED are final, and PAID can only become COMPLETED |
| SagaSerial.CancelledIsNeverShipped | order/internal/service/order/service.go:276-279 | then a CANCELLED order has no payment, no message on either topic names it, and no write ever completed it |
| SagaSerial.MessagesRepeatTheirRow | order/internal/service/order/service.go:193-199 | then a paid message repeats user, method and transaction its row still has, and is the only one of its order |
| SagaSerial.HandledShipsAreCompleted | order/internal/service/consumer/order/consumer.go:54-59 | then every assembled message whose handler itself returned nil has its order COMPLETED for good |
| SagaSerial.SerialStep | order/internal/service/order/service.go:131-285 | the stronger invariant behind these results is kept by every step, Kafka stages included |
| SagaSerial.OverlapCompletesCancelledOrder | order/internal/service/order/service.go:234-252 | a concrete run in which an overlapping `Pay` and `Cancel` leave a CANCELLED order with a transaction that is then completed |
| SagaDrain.DeliveriesDependOnSet | order/internal/service/order/service.go:276-279 | the table after any completions depends only on the set of orders reached, not on order or repetition, and only statuses change |
| SagaDrain.DrainCompletesExactlyTheUnread | assembly/internal/service/assembly/service.go:53-108 | consumers that work drain both topics after exactly twice the unread paid plus the unread assembled messages, in any interleaving, and then exactly the orders named in unread messages have become COMPLETED |
| SagaDrain.DrainIsPossible | platform/kafka/consumer/group_handler.go:57-62 | such a drain exists from every state, and COMPLETED orders become those already completed plus those named unread |
| OrderTable.BindingIsPatching | order/internal/repository/order/repository.go:89-109 | a SET clause that binds the non-zero fields patches the row field by field, and is empty exactly when nothing is patched |
| OrderTable.SetClause | order/internal/repository/order/repository.go:89-105 | the field-by-field build of the SET clause binds exactly the fields that are set, to their values |
| OrderTable.OrderRepository.Create | order/internal/repository/order/repository.go:27-45 | inserts the row under a new id unless a CHECK or the database refuses it |
| OrderTable.CreatedOrderIsRead | order/internal/repository/order/repository.go:27-76 | an order that was created reads back with its new id and the fields given, every other order as before |
| OrderTable.UpdatedOrderIsRead | order/internal/repository/order/repository.go:47-130 | after a successful update the order reads back with the fields given and the stored ones elsewhere, every other order as before; a row reported as not found could not be read |
| OrderTable.UpdateExactly | order/internal/repository/order/repository.go:78-130 | every outcome of an update on any table: the guards in their order, the row field by field, the two constraints, the missing row, and a write that lands although its caller sees an error |
| OrderTable.OrderRepository.Update | order/internal/repository/order/repository.go:78-130 | the guards, the built SET clause, the constraint and the row count together patch one row or change nothing, with the right error |
| OrderService.PayIsRun | order/internal/service/order/service.go:131-205 | a `Pay` on its own is one to four of its own steps of the saga, for every outcome of its I/O |
| OrderService.CancelIsRun | order/internal/service/order/service.go:225-265 | a `Cancel` on its own is its read followed, if it gets there, by its write |
| OrderService.PaySucceedsExactly | order/internal/service/order/service.go:131-205 | `Pay` succeeds exactly when the order is pending, the method known and every call works; then row, message and ledger carry the same payment |
| OrderService.ChargedExactly | order/internal/service/order/service.go:145-171 | a `Pay` charges the user exactly when it reaches the payment service for a pending order with a known method |
| OrderService.ChargedButUnpaid | order/internal/service/order/service.go:167-191 | a `Pay` that nobody overtakes or abandons, once charged, leaves the order pending exactly when the answer is lost or unreadable or the database is down before the write; otherwise the row carries that payment |
| OrderService.AnnouncedExactly | order/internal/service/producer/order/producer.go:24-35 | a `Pay` that nobody overtakes or abandons puts a message on the topic exactly when it charged and wrote the order and the send is not rejected; the message repeats the row, and success is reported only if the send is acknowledged |
| OrderService.CancelExactly | order/internal/service/order/service.go:225-265 | `Cancel` succeeds exactly on a pending order with a working database, changes only the status, and on a PAID or COMPLETED order is a conflict that changes nothing |
| OrderAnswers.PayAnswers | order/internal/service/order/service.go:145-205 | the answer of `Pay` for every stored state and every outcome of its four calls, in the order of its checks |
| OrderAnswers.PayChanges | order/internal/service/order/service.go:145-205 | all that a `Pay` changes, and when: refused before the charge nothing; then the ledger, the row once the answer is readable and the database up, and the topic once the write is acknowledged and the send not rejected |
| OrderAnswers.CancelAnswers | order/internal/service/order/service.go:231-264 | the answer of `Cancel` for every stored state and outcome, and its one write |
| OrderAnswers.CompleteAnswers | order/internal/service/order/service.go:276-284 | the answer of `Complete` on any table, and its one write, whatever status the order has |
| OrderAnswers.ConflictExactly | shared/api/order/v1/paths/order_pay.yaml:53-56 | `Pay` answers an order that is no longer pending with a conflict exactly when it is not COMPLETED, `Cancel` exactly when it is not CANCELLED |
| OrderService.Services.Create | order/internal/service/order/service.go:59-129 | the loops of `Create` price the order or refuse it as specified, and a priced order takes the saga's creation step |
| OrderService.Services.Pay | order/internal/service/order/service.go:131-205 | the whole new state and the answer for every outcome of the four calls, as `PayAnswers` and `PayChanges` list them |
| OrderService.Services.Cancel | order/internal/service/order/service.go:225-265 | the whole new state and the answer, as `CancelAnswers` lists them |
| OrderService.Services.CompleteOrder | order/internal/service/order/service.go:267-285 | a blind write of id and status, through the repository's patch |
| OrderService.Services.ShipAssembledHandler | order/internal/service/consumer/order/consumer.go:47-60 | the handler panics only by itself, succeeds exactly when `Complete` does, and the table changes as `Complete` says |
| OrderService.Services.HandlePaid | platform/kafka/consumer/group_handler.go:46-62 | one turn of the claim loop over `order.paid` is the saga's assembly step |
| OrderService.Services.HandleAssembled | platform/kafka/consumer/group_handler.go:46-62 | one turn of the claim loop over `order.assembled` is the saga's completion step |
| Payments.ServeAcceptsExactly | payment/internal/model/payment.go:21-32 | a raw request is charged exactly when both ids are present and the method number is 1 to 4 |
| Payments.ServeKeepsMeaning | order/internal/client/converter/patment.go:8-31 | the order service's request is refused exactly when its method is unknown; else the charge names that order, that user and the same method |
| Payments.MethodReadsBack | order/internal/converter/order.go:13-28 | parsing a method's name undoes printing it, and no other string is read as a known method |
| Payments.RequestedMethodIsCharged | payment/internal/converter/payment.go:10-40 | across all three enumerations, the charged method is the one whose name the REST request gave, and there is a charge exactly for the four known names |
| Payments.NamedMethodIsCharged | order/internal/converter/order.go:13-28 | from the name in the REST request to the payment service's own enumeration: which of the four names charges what, and every other string is refused as unknown |
| Kafka.NewGroupHandler | platform/kafka/consumer/group_handler.go:17-27 | the backwards loop builds the chain whose first middleware is outermost |
| Kafka.ChainMeaning | platform/kafka/middleware/recovery.go:15-26 | any chain returns what the handler returned, except that a panic becomes nil when Recovery is anywhere in it |
| Kafka.DeployedChain | platform/kafka/middleware/logging.go:15-22 | in particular the deployed chain, Recovery then Logging |
| Kafka.DeliverKeepsInv | platform/kafka/consumer/group_handler.go:57-62 | one message, marked on nil and skipped on error, keeps the invariant of offsets, mark and history |
| Kafka.DeliveryDiscipline | platform/kafka/consumer/consumer.go:36-55 | over any sessions nothing below the committed offset was skipped unseen; what was never acknowledged was passed over by a later success of a session that had delivered it; the mark is one past the greatest acknowledged offset |
| Kafka.LostExactly | platform/kafka/consumer/group_handler.go:37-69 | over any sessions a message is below the committed offset though no call of its handler itself returned nil, if and only if some session acknowledged it or a later one and committed past it, and no session that delivered it handled it |
| Kafka.UnacknowledgedExactly | platform/kafka/consumer/group_handler.go:57-62 | a message is below the committed offset though the chain never returned nil for it, if and only if some session acknowledged a later one and committed past it, and no session acknowledged it |
| Kafka.HandledExactly | platform/kafka/middleware/recovery.go:15-26 | a message has been handled exactly when the handler itself returned nil for it in some session that delivered it |
| Kafka.AcknowledgedExactly | platform/kafka/consumer/group_handler.go:57-62 | a message has been acknowledged exactly when some session delivered it and the chain returned nil for it |
| KafkaSessions.SessionReaches | platform/kafka/consumer/group_handler.go:37-69 | a session starts at the committed offset, takes nothing beyond the log, after its context is done or after an escaped panic, and stops for no other reason |
| KafkaSessions.RecoveredSessionReaches | platform/kafka/middleware/recovery.go:15-26 | with Recovery in the list a session takes every message up to the end of the log, or as many as its context allows |
| KafkaSessions.SessionRecords | platform/kafka/consumer/group_handler.go:46-62 | a session makes one call for each offset it takes, in order; the mark is one past its last nil result, and the committed offset moves to what was stored, up to the mark and never back |
| Kafka.Consumer.ConsumeClaim | platform/kafka/consumer/group_handler.go:37-69 | the loop stops only at the end of the log, when its context is done, or at a panic that escapes the chain, and makes one call for each offset on the way, marking as specified |
| Kafka.Consumer.RunSession | platform/kafka/consumer/consumer.go:37-40 | a session resumes at the committed offset, and crashes exactly when one of its calls panics with no Recovery in the list |
| Kafka.Consumer.Consume | platform/kafka/consumer/consumer.go:36-55 | session after session until the group is closed, fails, its context is done or a panic escapes, with the matching result |
| Shutdown.StepKeepsInv | platform/closer/closer.go:154-203 | every step of any goroutine keeps counter, channel, outcomes and result consistent |
| Shutdown.NoSendBlocks | platform/closer/closer.go:154-174 | in every interleaving, also after the reader has left, a worker about to send finds room in the channel and finds it open |
| Shutdown.ResultMeaning | platform/closer/closer.go:184-206 | nil means every function finished; otherwise the result is the first error received or the context's; a fully read channel delivered exactly the errors of the functions, and then nil is returned exactly when all finished |
| Shutdown.InvokedAtMostOnce | platform/closer/closer.go:158-176 | no function is invoked twice, and one that ended was invoked once |
| Shutdown.ShutdownEnds | platform/closer/closer.go:154-203 | no deadlock and no leaked goroutine: at most 10n + 6 steps, and when none is left every function was invoked once, all goroutines are gone, the channel is closed and the caller is back |
| Shutdown.ReverseOrderExactly | platform/closer/closer.go:157-176 | the functions are invoked in reverse order of registration in every run exactly when there is at most one; of two, either may be first |
| Shutdown.AllRunAtOnce | platform/closer/closer.go:158-176 | for every number of functions some run has all of them running at the same time |
| ShutdownOutcomes.OutcomesFollowSteps | platform/closer/closer.go:158-176 | in every run a function is recorded as finished exactly when it returned nil, and as failed exactly when it returned that error or panicked |
| ShutdownOutcomes.AnyEndingOccurs | platform/closer/closer.go:158-176 | however each function is to end, some run ends each of them so |
| ShutdownOutcomes.ChannelIsFifo | platform/closer/closer.go:154-203 | in every run the errors received, followed by those still in the channel, are the errors of the functions in the order in which they were sent |
| ShutdownOutcomes.ResultFollowsSteps | platform/closer/closer.go:184-206 | once the channel has been drained the result is nil exactly when no function returned an error or panicked, and otherwise the error that was sent first |
| Closer.OnlyOnce | platform/closer/closer.go:139-145 | over any concurrent calls `done` is closed at most once and has been when any call returned; only one caller can see an error; the functions taken are those registered before the swap, and later ones stay |
| Closer.FirstCloseAll | platform/closer/closer.go:139-206 | each taken function is invoked at most once, and exactly once when nothing is left to do; the first call returns the first error it received, else the context's if that cut it short, else nil, and every other call returns nil; so nil from the first means that each function ran to completion, and the converse holds when its loop ended with the channel |
| Closer.FirstResultFollowsSteps | platform/closer/closer.go:139-206 | the same for the first call of `CloseAll` among any concurrent calls, over the steps of its own functions |
| Closer.LaterCallHidesError | platform/closer/closer.go:184-206 | a concrete run: the first call returns the context's error, a later one nil |
| Closer.CallsComeBack | platform/closer/closer.go:136-207 | no call waits for ever, on the once flag or inside it: when no step but a new call, a registration or a cancellation is left, all calls have returned |
| Closer.CallsEnd | platform/closer/closer.go:136-207 | and before the swap at most ten steps for each function, one for each waiting call and eight more are left |
| Closer.CloserObject.CloseAll | platform/closer/closer.go:136-207 | the first call follows the given schedule of the shutdown, if it is legal, until the caller is back, and returns that run's result; a later call returns nil and changes nothing |
| Country.TrimFindsCore | inventory/internal/repository/part/converter.go:114-116 | trimming gives a text without outer white space, and only white space was around it |
| Country.CoreIsTrimmed | inventory/internal/repository/part/converter.go:114-116 | no other text is a core |
| Country.NormalFormsDecide | inventory/internal/repository/part/converter.go:114-116 | normal forms are equal exactly when the names are equal up to outer white space and letter case |
| Country.SpacesExactly | inventory/internal/repository/part/converter.go:114-116 | what is trimmed is exactly the 25 characters of Unicode's White_Space |
| Country.LowerCharExactly | inventory/internal/repository/part/converter.go:114-116 | each listed capital becomes its own small letter, and every other character stays as it is |
| Country.NormalizeIsIdempotent | inventory/internal/repository/part/converter.go:114-116 | normalising twice is normalising once |
| PartsQuery.BuildMongoFilter | inventory/internal/repository/part/converter.go:88-112 | the query built in place has exactly one entry for each non-empty list, with its values, countries normalised |
| PartsQuery.QueryMeaning | inventory/internal/repository/part/converter.go:49-112 | a stored part matches the query exactly when the filter wants it: one of the values in each field, all fields together, empty lists not filtering |
| PartsQuery.PassesInAnyOrder | shared/proto/inventory/v1/inventory.proto:20-32 | successive passes, one per field, in any order and with any repetition, keep the same parts in the same order |
| PartsQuery.QueryIsFilter | shared/proto/inventory/v1/inventory.proto:155-163 | both together over every collection that any batches build |
| PartsQuery.BatchesKeepCollection | inventory/internal/repository/part/repository.go:72-99 | after any batches, whole or broken off, ids are unique and every stored normal form is that of its own country |
| PartsQuery.InsertedExactly | inventory/internal/repository/part/repository.go:93-96 | an unordered insert adds exactly the documents whose id is free, in their order, and reports a duplicate exactly when some id is not |
| PartsQuery.CreatedPartIsRead | inventory/internal/repository/part/converter.go:11-86 | a part with a new id, written by a batch, is read back as it was given, with its creation time set |
| PartsQuery.PartRepository.CreateBatch | inventory/internal/repository/part/repository.go:72-99 | an empty id writes nothing; otherwise nil parts are skipped and, of the documents the server got to, every one whose id is free is written; the error is that of a broken insert, of a duplicate key, or none |
| PartsQuery.PartRepository.List | inventory/internal/repository/part/repository.go:41-70 | the cursor loop returns exactly the wanted parts, in collection order, or the error of the query, a decoding or the cursor |
| InventoryApi.CategoriesToModel | inventory/internal/converter/part.go:41-65 | the array loop maps every category, unknown numbers to UNKNOWN |
| InventoryApi.FilterCrosses | order/internal/client/converter/inventory.go:98-111 | a filter arrives as sent exactly when it names known categories only |
| InventoryApi.MeaningArrivesExactly | inventory/internal/converter/part.go:28-65 | among parts of known categories the inventory selects what the filter means exactly when the filter names known categories only, or UNKNOWN itself |
| InventoryApi.CategorySevenSelectsUnknown | inventory/internal/converter/part.go:57-58 | a filter for category 7 selects a part of UNKNOWN category that it does not want |
| InventoryApi.ListParts | inventory/internal/transport/grpc/inventory/v1/inventory.go:40-56 | the call returns the wanted parts as the order service sees them, fails, or panics on a part without timestamps |
| PartsAnswers.ListExactly | inventory/internal/converter/part.go:10-26 | the query fails exactly with its call; the handler panics exactly when a document that the filter selects lacks a time; otherwise exactly those documents arrive, in the stored order, each with its own fields and an unknown category as UNKNOWN |
| PartsAnswers.CreatedExactly | inventory/internal/repository/part/repository.go:72-99 | an answered batch adds exactly its parts with a new id, in their order, each with its own fields, the normal form of its country, and the creation time it had unless that was missing or zero |
| PartsAnswers.DocumentsPick | inventory/internal/repository/part/repository.go:75-88 | the documents of a batch are exactly its parts that are not nil, in their order and field by field |
| PartsAnswers.AttemptedPicks | inventory/internal/repository/part/repository.go:93-96 | the documents tried are all of them, or exactly those reached before the insert broke off |
| OrderCreate.PriceParts | order/internal/service/order/service.go:92-105 | the loop adds up the parts in stock with wrap-around and lists the others, in the order received |
| OrderCreate.LengthCheckIsExact | order/internal/service/order/service.go:79-90 | as many parts come back as ids were sent exactly when the ids are distinct and all known |
| OrderCreate.AnswerHasEachOnce | inventory/internal/repository/part/converter.go:91-93 | the id query returns each stored part with a requested id once and nothing else |
| OrderCreate.TotalIsWrappedSum | order/internal/service/order/service.go:92-105 | the running total is the exact sum of the prices, wrapped to 64 bits once |
| OrderCreate.SumOfSameIds | order/internal/service/order/service.go:92-105 | the sum over distinct ids does not depend on the order the parts come back in |
| OrderCreate.AnsweredExactly | inventory/internal/converter/part.go:10-26 | the query is answered exactly when the call works and no requested part lacks a timestamp |
| OrderCreate.QuoteMeaning | order/internal/service/order/service.go:69-112 | exactly when a request is a bad gateway, part-not-found, out of stock (and for which ids), or priced, and at what price |
| OrderCreate.QuoteExactly | order/internal/service/order/service.go:69-112 | the decision of `Create` on every request in the order of its checks, a missing user or no parts first; each part that is out of stock is reported once |
| OrderCreate.CreateExactly | order/internal/service/order/service.go:59-129 | an order is created exactly when it has a user and distinct, known parts in stock, the query is answered, the wrapped total is not negative and the database works; the stored total is the true sum exactly when that fits 64 bits |
| OrderCreate.SumIsNonNegative | order/migrations/20260109125953_add_orders_table.sql:36-36 | non-negative prices never add up to a negative sum, so only an overflow can break the price constraint |
| CreateExamples.RepeatedPartIsRefused | order/internal/service/order/service.go:87-90 | a request for the same stocked part twice is answered part-not-found |
| CreateExamples.OverflowMakesOrderFree | order/internal/service/order/service.go:92-105 | three stocked parts whose prices add up to 2 to the 64th are priced at zero |
| CreateExamples.OverflowIsRefusedByTable | order/migrations/20260109125953_add_orders_table.sql:36-36 | three parts that add up to 2 to the 63rd get a negative total, which the table refuses |
| CreateExamples.UntimedPartIsRefused | inventory/internal/converter/part.go:22-23 | a part stored by `CreateBatch` without an update time makes every request for it fail |
| Money.PrintedPriceReadsBack | order/internal/converter/order.go:135-142 | every price but the smallest `int64` prints as a string the pattern accepts, which reads back as the same cents |
| Money.SmallestPriceIsRefused | order/internal/converter/order.go:135-142 | the smallest does not |
| Money.AcceptedExactly | shared/pkg/openapi/order/v1/oas_cfg_gen.go:19-21 | the pattern accepts the printed form of a price exactly when it is not the smallest `int64` |
| Money.PrintingIsInjective | order/internal/converter/order.go:135-142 | no two prices print alike, the smallest included |
| Money.PrintedPriceIsCanonical | order/internal/converter/order.go:135-142 | a printed price has a minus sign exactly when it is negative and no superfluous zero in front |
| Router.ServeHTTP | shared/pkg/openapi/order/v1/oas_router_gen.go:28-163 | the prefix tree serves every path and verb as the path patterns say |
| Router.FindPath | shared/pkg/openapi/order/v1/oas_router_gen.go:216-371 | the lookup finds a route exactly when the server would handle the request, with the same operation and argument |
| Router.ResourceMeaning | shared/pkg/openapi/order/v1/oas_router_gen.go:45-161 | a path leads to an operation and an argument exactly when it has that operation's pattern with a slash-free argument |
| Router.ServedExactly | shared/pkg/openapi/order/v1/oas_router_gen.go:45-161 | the handler runs exactly for its pattern and verb, and another verb is answered with the allowed one |
| Router.RoutesExactly | shared/pkg/openapi/order/v1/oas_router_gen.go:45-161 | the four routes in full: creation, cancelling and paying are POST and reading is GET, each on its own path, and a wrong verb is told the right one |
| Router.NotFoundExactly | shared/pkg/openapi/order/v1/oas_router_gen.go:162-162 | a path is not found exactly when no pattern has it |
| Router.ClientReachesServer | shared/pkg/openapi/order/v1/oas_client_gen.go:156-177 | the path the client builds is handled by the client's operation with the same id |
| Router.ClientPathsIdentifyOrders | shared/pkg/openapi/order/v1/oas_client_gen.go:328-348 | two client paths are equal only for the same operation and the same id |
| Ids.TextReadsBack | order/internal/client/converter/patment.go:9-14 | an id prints as 32 lower-case hexadecimal digits in five groups and reads back as itself |
| OrderJson.Decode | shared/pkg/openapi/order/v1/oas_json_gen.go:962-1097 | the error names the first key whose value does not fit; otherwise the absent required fields are reported in ascending order, once each, and with none absent the decoded order is returned |
| OrderJson.MissingNames | shared/pkg/openapi/order/v1/oas_json_gen.go:1068-1090 | the bit-clearing loop lists the names of all set bits, lowest first, and the number of a bit that has no field |
| OrderJson.MissingIsAbsent | shared/pkg/openapi/order/v1/oas_json_gen.go:1063-1068 | the bits left after mask and XOR name exactly the required fields no key gave |
| OrderJson.AbsentMeaning | shared/pkg/openapi/order/v1/oas_json_gen.go:1063-1091 | a name is reported exactly when its field is required and absent |
| OrderJson.EncodedOrderReadsBack | shared/pkg/openapi/order/v1/oas_json_gen.go:912-949 | decoding the encoded fields gives back exactly the orders whose null and absent options hold zero values, and no required field is missing |
| OrderJson.DecodedExactly | shared/pkg/openapi/order/v1/oas_json_gen.go:969-1061 | decoding succeeds exactly when every value fits its key; then the last value of each key counts, an absent one leaves its field empty, and a key that is not of an order is skipped |
| OrderJson.AbsentExactly | shared/pkg/openapi/order/v1/oas_json_gen.go:1063-1091 | the required names reported are the absent ones of the five, in the order of the fields |
| OrderJson.EncodedKeys | shared/pkg/openapi/order/v1/oas_json_gen.go:912-949 | the keys written, in their order: an option is left out exactly when it is not set, and a null one is written as null |

## Left out

- Partitions: each topic has one; ordering across partitions is not modelled.
- sarama, pgx, squirrel, the Mongo driver, gRPC, chi, protobuf and JSON text: replaced by a table, a keyed collection, append-only topics, and copies or tokens.
- Timeouts, clocks, timers and build time: a timeout is a call that fails with or without effect; build time has different units at its two ends (assembly/internal/converter/kafka.go:37, order/internal/converter/kafka.go:45).
- A write that reaches the database only after its timed-out call has returned: an effect lands during its own step or never.
- Generation of ids: new ids, of orders, transactions and events, are arguments that are not yet in use; malformed ids in messages appear only as a failing or panicking handler.
- The converters between events and Kafka payloads: lossless copies here.
- `Consumer.Consume` over several topics and `extractHeaders`: nothing modelled reads them.
- Logging, tracing, configuration, wiring and health checks: no state that matters here.
- The notification service: a loop over chats and templates.
- HTTP and gRPC error mapping and `OrderToOAPI`: single-branch tables.
- Dimensions and metadata of parts: no filter reads them and nothing computes with them.
- Country.NormalFormsDecide: letter case is that of ASCII, Latin-1, and the plain Greek and Cyrillic capitals; white space is all of Unicode's.
- Country.NormalizeIsIdempotent: the same letters only.
- `CreateBatch` also stamps the creation time in the caller's own parts: parts are values here, so that aliasing is not captured.
- `AddNamed`, signal handling and `SetLogger` of the closer: a logging wrapper, a trigger of `CloseAll`, and an unsynchronised setter.
- Server prefixes and escaped paths in the router: the prefix is empty and the path is plain.
- The other generated JSON types: the shape of an order, with fewer fields.
- Closer.CloserObject.CloseAll: is one call at a time; concurrent calls are the state machine of `Closer`, not the object.
- Kafka.Consumer.Consume: is stated for a finite list of sessions, since the loop itself need not end.
