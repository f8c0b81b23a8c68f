# Reservation, payment, expiry and compensation: a verified model

The repository sells tickets. A booking takes units from a Redis counter and queues a message; a worker
turns the message into an order row in Postgres and takes the same units there; a payment webhook, an
expiry sweeper, a reconciler or `/pay` move the row on; and when a reservation fails, an `order.failed`
trigger goes through an outbox and a log to a compensator, which returns the units first in Postgres and
then in Redis. The two stores never share a transaction, and every call can fail, lose its reply, be
repeated or be interleaved with any other.

The project models this as one transition system, proves what every run keeps, ties step-by-step versions
of the services to it, and does the same for the two abandon compensators of Stages 1 and 3 and for the
DORA algorithms.

## How it is built

* `Domain`, `Store`: the order aggregate; each SQL statement, transaction and Redis script as a function. `Decimals`: the
  scripts' exact price arithmetic. `Messages`: what a booking message becomes.
* `Protocol`: the state (both stores, the queue, the published log, a clock, a program counter per running
  handler) and one total function per step. A transaction's writes and its commit are one atomic step; the paying one
  begins in a step before, which fixes its `NOW()`. Every other store call is a step of its own that ends cleanly,
  fails, or is applied with its reply lost. `Crash` ends any handler anywhere, `GuardLost` drops any guard key, `Chaos`
  rewrites Redis and the queue at will.
* `Steps`, `DbSafety`, `PgSafety`, `PgSteps`, `Guarantees`: what each action does, and what holds after every run,
  `Chaos` included. `Movers`: which step may write which order. `Deadlines`: expiry against payment.
* `Ledger`, `LedgerSteps`, `Once`, `OnceSteps`, `Drift`, `IntakeAccounting`: where each unit went; with the
  hypotheses of `Once.Legal`, exactly-once compensation and a drift that is never negative.
* `Fence`: which orders can still be settled, and when a redelivery can revert twice.
* `Frames`, `Webhook`, `WebhookAck`, `Verdicts`: webhook redelivery, the fate of a successful payment, and what the webhook
  answers.
* `Scenarios`, `Hypotheses`, `Counterexamples`: runs from a first deployment. For each clause of `Once.Legal`, one
  that violates it in a single step and ends with more in Redis than in Postgres; and one for each property that the
  code does not have.
* `Runtime` and `Saga`, `Payments`, `Expiry`, `Outbox`, `Booking`, `Recon`, `Watchdog`, `Pay`,
  `DriftDetector`: the services as methods on a mutable `World`, with arbitrary interference between any two
  store calls. Each method's effect is a run of the model, and, when nobody interferes, exactly the model's
  steps in program order.
* `Stages`, `StageServers`: the Stage 3 compensator refines the Stage 1 one.
* `Sorting`, `Dora`, `Semver`, `Sums`: the DORA figures and the arithmetic used throughout; `Queries`, `Options`: what
  the services share.

`dafny verify dfyconfig.toml` checks the project.

## Hypotheses

They are stated in `Once.Legal`, `IntakeAccounting.Definite` and `Stages.Legal`, not built into the model, and each
clause of these is shown to be needed:

* A publish that reports failure did not store the message. The Stage 5 guard key is the bare order id, the
  saga's is `order:<id>`, so neither covers the other.
* Acknowledging a queue entry is atomic with the worker's commit, and with its give-up.
* A guard key outlives what it guards: the queue entry, or the compensator calls for that order up to the
  committed flag. Where the flag is the only fence left, it can be read.
* For the accounting of recorded leaks: no deduction or revert is applied with its reply lost, and no request
  handler dies between deduction and publication.
* "Handled" means that `HandleOrderFailed` returned nil.
* In Stage 3 a revert key outlives the attempts on its order.
* No hypothesis puts both reads of the drift detector into one instant; `DriftDetector.HighMeansTicketsCameBack` says
  what the time between them can do.

## Where the code and its documentation differ

* The interface comment of `IncrementTicket` promises no upper bound; the SQL refuses to pass `total`
  (`internal/infrastructure/persistence/postgres/repositories.go:1106`). The model follows the SQL, and
  `Guarantees.IncrementAlwaysFits` shows that the bound never refuses a live order's own units.
* `MarkRedisReverted` is called best effort in its interface comment; the compensator returns its error
  (`internal/application/saga/compensator.go:356`). The model follows the compensator.
* The webhook does not reject an empty `object.id` when it resolves by metadata, so an order can be paid with an
  empty intent (`Counterexamples.PaidWithNoIntent`). `Guarantees.PaidByItsOwnWebhook` therefore says that the row's
  intent is non-empty if and only if the envelope's is.
* Migration 000006 and a test (`test/integration/postgres/order_repository_test.go:184-229`) let a user buy again after a failed
  order. Then the first order can never be compensated: leaving `failed` brings its row back under the unique index of
  live orders, where the second one already is, so that statement fails for ever
  (`Counterexamples.RebuyStrandsTheFirst`). `Fence.NoDeadEnd` says that these superseded orders are exactly the stuck ones.
* A comment on the grace period says that it does not matter for correctness, and one on `FindExpiredReservations` that
  sharing `NOW()` makes the boundary unambiguous. But `NOW()` is the time a transaction began: a row found overdue can
  still be paid by a transaction that began before the deadline (`Counterexamples.AnOldTransactionPays`).
  `Deadlines.ExpiryNeverRacesPayment` says exactly when, and `PromptPaymentsNeverRace` what grace period is enough.
* A successful payment is not always recorded or reported. A `succeeded` envelope that finds its row Paid with an empty
  intent is acknowledged as a duplicate, without any race (`Counterexamples.EmptyIntentDropsASuccess`), and so is one
  whose row an expiry takes between the read and the transaction (`Counterexamples.ExpiryDropsASuccess`).
  `WebhookAck.SuccessIsAccountedFor`, `PayingStepIsExact` and `RefusalIsExact` say exactly when it is dropped.
* The sweeper labels a row it has expired a transition error if the reply of the commit is lost
  (`Counterexamples.LostReplyIsMislabelled`); `Expiry.Sweeper.CommitExpiry` says that label and commit disagree in no
  other case.
* `checkOne` ranks a skipped ticket type above a drifted one, so an event with both is not in the drift gauge;
  `DriftDetector.WorstIsExact` states this. The direction counters still see it.
* Stage 1 scans a NULL `ticket_type_id` into a plain UUID. A comment in Stage 3 says that such a scan fails, and
  the model takes it at its word.

## Model

| member | source | states |
|---|---|---|
| `Domain.ReachesIsExact` | internal/domain/order.go:454-578 | status `s` is reachable from an order by some chain of `Mark*` calls if and only if the graph relation says so |
| `Domain.MarksStayReachable` | internal/domain/order.go:454-578 | no chain of `Mark*` calls, refused ones included, leaves the graph or touches any field but the status |
| `DbSafety.BookTxKeeps` | internal/application/worker/message_processor.go:84-133 | the worker's transaction adds the row and takes its units together or changes nothing, and keeps every database invariant, one live order per user and event among them |
| `DbSafety.FailTxKeeps` | internal/application/payment/webhook_service.go:427-445 | a failing transition and its trigger commit together exactly if the row may still fail; the trigger built from a stale read carries the row's own data |
| `DbSafety.CompensateTxKeeps` | internal/application/saga/compensator.go:168-267 | the compensator's writes succeed exactly on a failed order whose buyer has not bought again, and return exactly its own units; on any other order they are rolled back |
| `DbSafety.UnitsFit` | internal/infrastructure/persistence/postgres/repositories.go:1106-1130 | the upper bound of the increment cannot refuse the units of an order that is not compensated |
| `DbSafety.PayTxKeeps` | internal/application/payment/webhook_service.go:328-341 | orphan repair and MarkPaid keep every database invariant, whichever of them fails |
| `PgSteps.RunKeeps` | internal/application/uow.go:40-57 | the database, log and handler invariants hold after any run of any handlers and faults, and no fact a handler relies on is taken back |
| `Guarantees.FreshStarts` | internal/domain/ticket_type.go:286-312 | an empty deployment with any non-negative totals meets the starting conditions of all these theorems |
| `Guarantees.NoOversell` | internal/application/worker/message_processor.go:84-133 | after any run, whatever Redis and the queue hold, tickets left plus tickets of orders not compensated equal the total, and neither is negative |
| `Guarantees.OneOrderPerBuyer` | deploy/postgres/migrations/000008_uuid_pk_migration.up.sql:55-57 | in every reachable state no two orders of one user for one event are both not Failed |
| `Guarantees.IncrementAlwaysFits` | internal/application/saga/compensator.go:217-236 | in every reachable state a live order's units fit back, and its trigger resolves to its ticket type, so the skip path is never taken |
| `Guarantees.OneTriggerPerFailure` | internal/application/recon/reconciler.go:342-380 | an order has exactly one trigger if it is Expired, PaymentFailed, Failed or Compensated and none otherwise, and every trigger equals the row's own data |
| `Guarantees.NoLostCompensation` | internal/application/outbox/relay.go:149-175 | every order in a failure status has a trigger that is unpublished or published and never handled |
| `Guarantees.ProcessedWasPublished` | internal/application/outbox/relay.go:142-178 | no outbox row is ever marked processed without having been published |
| `Guarantees.NilReturnSettles` | internal/application/saga/compensator.go:293-383 | a nil return means Compensated, reverted in Redis and recorded so, then and after any further run |
| `Guarantees.HandledSettles` | internal/application/saga/compensator.go:293-383 | a committed offset means the same for its order, for good |
| `Deadlines.ExpiryNeverRacesPayment` | internal/infrastructure/config/config.go:318-330 | over all runs: a row past its deadline, found by a sweeper or not, is not paid then or ever after if and only if it is not paid already and no transaction is open on it that began before the deadline and whose guards the row still meets |
| `Deadlines.PromptPaymentsNeverRace` | internal/infrastructure/persistence/postgres/repositories.go:522-557 | a row found with a grace period that paying transactions do not outlast is never paid afterwards |
| `Counterexamples.AnOldTransactionPays` | internal/infrastructure/config/config.go:318-330 | otherwise it can be: a run from a first deployment in which a row is found, with any grace period, while an older transaction is open, which then pays it |
| `Deadlines.FoundIsPastDeadline` | internal/infrastructure/persistence/postgres/repositories.go:522-557 | a row that a sweeper has found is past its deadline at every later time, and its status is one that an unpaid reservation leads to |
| `Deadlines.OnlyFailuresBeatTheSweeper` | internal/application/expiry/sweeper.go:317-358 | MarkExpired on a row that was found succeeds exactly while it awaits payment; otherwise nothing changes and it is Expired, PaymentFailed or Compensated, or was paid by a transaction that began before the deadline |
| `Guarantees.PaidMeansPaidInTime` | internal/infrastructure/persistence/postgres/repositories.go:674-703 | an order is Paid if and only if some webhook transaction paid it, with that webhook's intent and begun strictly before its deadline |
| `Guarantees.PaidByItsOwnWebhook` | internal/application/payment/webhook_service.go:318-341 | the only step that ever makes an order Paid is a `succeeded` webhook's transaction begun before the deadline, and the row then carries that webhook's own intent |
| `Guarantees.IntentWriteOnce` | internal/infrastructure/persistence/postgres/repositories.go:809-837 | a written intent id stays for the rest of every run, and no other order ever has the same one |
| `Guarantees.StatusNeverReturns` | internal/domain/order.go:30-70 | over whole runs no row loses its identity and no status is left and come back to |
| `Movers.EveryWriteHasItsStep` | internal/infrastructure/persistence/postgres/repositories.go:293-345 | from every reachable state, whatever the step and its faults, at most one order row changes: a new one is the row of the worker's own message; a changed one changes in the one step that its new status belongs to, out of a status that may go there, and in no other column; PaymentFailed only by a `payment_failed` webhook that agreed with the intent of the row it read, Paid and Expired by a webhook only by a `succeeded` one that did |
| `LedgerSteps.RunBooks` | internal/infrastructure/cache/lua/deduct.lua:1-97 | without outside writes to Redis, the counter equals the total minus what each reservation took plus every revert of it, after any run and any faults |
| `OnceSteps.RunOnce` | internal/application/saga/compensator.go:168-365 | every legal run keeps the exactly-once invariant of each reservation, its guard keys, its flag and the calls working on it |
| `Drift.ExactlyOnce` | internal/application/saga/compensator.go:168-365 | over all legal runs an order is reverted in Redis at most once, never before Postgres has compensated it, and exactly once when it is settled |
| `Drift.TicketsComeBackOnce` | internal/application/saga/compensator.go:217-250 | whatever the step and the faults, tickets come back to Postgres only by compensating an order in that very step, and then exactly its own units to its own type |
| `Drift.CompensatedAtMostOnce` | internal/application/saga/compensator.go:238-250 | over any run an order is compensated in at most one step, and in one exactly if it ends compensated; concurrent, repeated and crashed calls included |
| `Drift.DriftIdentity` | internal/application/recon/inventory_drift.go:22-40 | with no hypothesis but no outside writes: available minus cached equals the units taken without a row, the leaked ones and the compensated-not-yet-reverted ones, by the history of each reservation, less those reverted too often |
| `Drift.CacheNeverHigh` | internal/application/recon/inventory_drift.go:22-40 | in every legal run the drift is what is queued without a row, in the hands of a live request, leaked, or compensated with neither guard key nor flag; so it is never negative |
| `Drift.QuiescentBalance` | internal/application/saga/compensator.go:293-383 | at rest, the counter plus the leak equals the available tickets, and those equal the total minus the live orders |
| `IntakeAccounting.IntakeBalance` | internal/application/booking/service_kafka_intake.go:130-207 | counter, units in the hands of live requests, published units and recorded leaks add up to the total, and the leak is exactly what the calls recorded with `RecordPublishFailure(false)` |
| `IntakeAccounting.LostDeductionLeaksUnrecorded` | internal/application/booking/service_kafka_intake.go:132-140 | without the hypothesis on deductions: one applied with its reply lost leaks its units and nobody records it |
| `IntakeAccounting.CrashLeaksUnrecorded` | internal/application/booking/service_kafka_intake.go:140-170 | without the hypothesis on crashes: a request that dies between deduction and publication does the same |
| `IntakeAccounting.LostRevertRecordsNoLeak` | internal/application/booking/service_kafka_intake.go:170-207 | without the hypothesis on reverts: one applied with its reply lost is recorded as a leak although the units are back |
| `Hypotheses.AckMustBeAtomic` | internal/infrastructure/cache/redis_queue.go:481-560 | a run whose only illegal step is an acknowledgement that is not atomic with the commit: a committed entry is given up and Redis ends above Postgres by its quantity |
| `Hypotheses.GiveUpMustBeAtomic` | internal/infrastructure/cache/redis_queue.go:481-560 | a run whose only illegal step commits an entry that was given up, with the same result |
| `Hypotheses.EntryKeyMustLast` | internal/infrastructure/cache/redis_queue.go:481-560 | a run whose only illegal step is the loss of the entry's key while it is queued: given up twice, with the same result |
| `Hypotheses.PublishMustBeDefinite` | internal/application/booking/service_kafka_intake.go:152-170 | a run whose only illegal step is a publish that fails although it stored the message: its units are given back and sold, with the same result |
| `Hypotheses.OrderKeyMustLast` | internal/infrastructure/cache/lua/revert.lua:49-63 | a run whose only illegal step is the expiry of the saga's key before the flag is committed: the redelivery reverts again, with the same result |
| `Hypotheses.NoCallMayBePastTheFlag` | internal/application/saga/compensator.go:306-356 | the key expires with the flag committed, but while a second call is already past reading it: the same |
| `Hypotheses.FlagMustBeReadable` | internal/application/saga/compensator.go:306-320 | the key has rightly expired, and the only illegal step is a failed read of the flag, which the code lets pass: the same |
| `Fence.DeliveryCompletes` | internal/application/saga/compensator.go:126-384 | from any reachable state one undisturbed delivery of a trigger settles its order and commits the offset, if and only if the order is not superseded, that is Failed beside a live order of its buyer |
| `Fence.NoDeadEnd` | internal/application/outbox/relay.go:149-175 | from every reachable state an order in a failure status can still be settled by some run if and only if it is not superseded |
| `Fence.SupersededForGood` | deploy/postgres/migrations/000006_relax_unique_constraint.up.sql:1-7 | a superseded order stays so in every later state |
| `Counterexamples.RebuyStrandsTheFirst` | deploy/postgres/migrations/000006_relax_unique_constraint.up.sql:1-7 | a run from a first deployment: the reconciler fails an order, its buyer books again, and whatever happens afterwards the first order stays Failed and is never settled; no legal run returns its units in Redis |
| `Fence.FenceHolds` | internal/application/saga/compensator.go:280-307 | a fenced order is never reverted again by any run that does not drop the guard early |
| `Fence.FenceIsExact` | internal/application/saga/compensator.go:346-365 | such a run can revert a compensated order again if and only if the guard key is gone and the flag is unset or a call is already past it |
| `Webhook.RedeliveryIsQuiet` | internal/application/payment/webhook_service.go:168-281 | a redelivery of an answered envelope, interleaved with anything, writes nothing in any of its steps and can only return nil |
| `WebhookAck.AckMeansAnswered` | internal/application/payment/webhook_service.go:446-474 | a nil return for a `succeeded` or `payment_failed` envelope means that payment of the order it names is over |
| `WebhookAck.AckIsForGood` | internal/application/payment/webhook_service.go:168-281 | once acknowledged, every later redelivery after any further run is of the quiet kind, unless the row carries somebody else's intent by then |
| `WebhookAck.RedeliveryIsExact` | internal/application/payment/webhook_service.go:201-238 | an undisturbed redelivery of an answered envelope returns nil if and only if the row's intent is empty or its own (or it was resolved by intent), and otherwise the mismatch error; it reports a late success exactly for an agreeing `succeeded` envelope of an order that failed; the database stays as it is |
| `Verdicts.ReadIsExact` | internal/application/payment/webhook_service.go:207-279 | the read step ends in exactly one of six ways, told by the row's columns, the envelope and the clock; a mismatch is refused whatever the event and the status; it writes nothing |
| `Verdicts.CallIsExact` | internal/application/payment/webhook_service.go:168-281 | an undisturbed, fault-free call returns and writes exactly what the row, the envelope and the two clocks say, for every kind, status and intent; without a row it writes nothing |
| `WebhookAck.AckThenMismatch` | internal/application/payment/webhook_service.go:201-215 | that condition can fail, from any state in which `/pay` holds another intent under a declined payment about to be written |
| `Counterexamples.PayTurnsAnAckIntoAMismatch` | internal/application/payment/webhook_service.go:201-215 | the same as a whole run from a first deployment: booked, offered by `/pay`, declined and acknowledged, refused on redelivery |
| `WebhookAck.SuccessIsAccountedFor` | internal/application/payment/webhook_service.go:216-375 | a `succeeded` call that returns nil, by the step it returns in: from the paying step the row is Paid with the envelope's intent; from the late path the late success was reported and the row is Expired; on the read the row is Paid, with that intent unless the row's is empty and the envelope's is not; after a lost race the row is terminal |
| `WebhookAck.PayingStepIsExact` | internal/application/payment/webhook_service.go:318-375 | the fault-free paying step pays if and only if the guards of SetPaymentIntentID and MarkPaid accept the row as it is now and the deadline as of the transaction's beginning, and falls back on the recheck if and only if the row was moved on or carries another intent; on an unchanged row it pays, reports a late success or errs |
| `WebhookAck.RefusalIsExact` | internal/application/payment/webhook_service.go:363-375 | whatever happens afterwards, the row ends Paid with the envelope's intent if and only if those guards accepted it or it already was: nothing later makes up for a refusal |
| `WebhookAck.ARaceDropsASuccess` | internal/application/payment/webhook_service.go:363-375 | an expiry that commits in between is acknowledged as a duplicate: nil, not paid, no late success |
| `Counterexamples.ExpiryDropsASuccess` | internal/application/payment/webhook_service.go:363-375 | the same as a whole run from a first deployment |
| `Counterexamples.PaidWithNoIntent` | internal/application/payment/webhook_service.go:328-341 | a run from a first deployment in which a `succeeded` envelope with an empty intent, resolved by metadata, pays the order with it |
| `Counterexamples.EmptyIntentDropsASuccess` | internal/application/payment/webhook_service.go:207-248 | and the next `succeeded` envelope of that order, with an intent of its own, is acknowledged: not recorded, no late success, nothing written in between |
| `Saga.Compensator.HandleOrderFailed` | internal/application/saga/compensator.go:126-384 | under any interference and faults the call is a run of the model; it adds exactly one label to those recorded, and returns nil exactly with a label that says so, which means the order is settled; alone, it is the model's steps in order, the label is the one that the tables and the faults call for, and fault-free it fully compensates exactly a failed order that is not superseded; the duration is observed exactly for a full compensation |
| `Saga.Compensator.WriteCompensation` | internal/application/saga/compensator.go:217-267 | increment, mark and completion row commit together or not at all, step for step as the model has it, and a label is recorded exactly if they do not or the reply is lost |
| `Saga.Statements` | internal/application/saga/compensator.go:217-262 | the statements, stopping at the failing or first refused one, are the compensating transaction, and the label names the statement |
| `Saga.ResolvesExactly` | internal/application/saga/compensator.go:386-438 | a trigger's own ticket type; for a legacy one without, the only ticket type of its event, and none if there is not exactly one |
| `Payments.HandleWebhook` | internal/application/payment/webhook_service.go:168-281 | under any interference the call is a run of the model; another mode's event changes nothing; any other nil return but of an unsupported event means payment of the named order is over; undisturbed, it is the model's steps in order, and fault-free its result and the database are those of `Verdicts.CallIsExact` |
| `Payments.PayStatements` | internal/application/payment/webhook_service.go:328-341 | orphan repair then MarkPaid, stopping at the first error, are the paying transaction |
| `Payments.FindByPaymentIntentID` | internal/infrastructure/persistence/postgres/repositories.go:853-872 | a hit carries the intent, and a miss means no row does |
| `Expiry.FindExpired` | internal/infrastructure/persistence/postgres/repositories.go:522-557 | the oldest overdue rows, oldest first, without repetition, at most the limit, and none left out below it |
| `Expiry.Sweeper.CommitExpiry` | internal/application/expiry/sweeper.go:317-380 | label and commit disagree if and only if the reply is lost and the row still awaits payment as the transaction runs; the label is then a transition error, and in every other case the one its end calls for |
| `Expiry.Sweeper.Resolve` | internal/application/expiry/sweeper.go:229-380 | one label a row, which fits its age, its own calls and the row as it ends; an expiry label exactly for a commit whose reply arrived; undisturbed and fault-free, a row that awaits payment is expired with its trigger |
| `Expiry.Sweeper.Sweep` | internal/application/expiry/sweeper.go:137-202 | the oldest overdue rows are listed and each one reached gets one label, which fits the age it was listed with and the row as it ends; the expiry labels plus the commits whose reply was lost equal the transactions it committed; the max-age counter rises by the overaged labels, and the gauges move only after a successful count; a tick that nothing disturbs expires exactly the rows it reaches, each with a trigger |
| `Expiry.CommitMovesOneRow` | internal/application/expiry/sweeper.go:317-330 | the transaction commits if and only if its row still awaits payment and the database does not fail; it then moves exactly that row to Expired and adds exactly one trigger |
| `Counterexamples.LostReplyIsMislabelled` | internal/application/expiry/sweeper.go:363-380 | a run from a first deployment in which a row is expired, its trigger written, and its label is a transition error |
| `Outbox.ListPending` | internal/infrastructure/persistence/postgres/repositories.go:907-930 | the oldest unprocessed rows, in order, at most the limit, and none left out below it |
| `Outbox.Relay.ProcessBatch` | internal/application/outbox/relay.go:142-178 | each of the oldest pending rows is attempted exactly once, oldest first, up to the one before which the batch is cancelled; each row whose publish did not fail is in the log, and processed if its mark did not fail, whatever the other rows did |
| `Outbox.Relay.RunUntilStopped` | internal/application/outbox/relay.go:82-135 | under any interference, the ticks that hold the lock, and no others, attempt the rows that are the oldest pending ones at their own time; the lock is released once if it was ever held |
| `Decimals.MultiplyDecimal` | internal/infrastructure/cache/lua/deduct.lua:38-79 | the digit-by-digit product of the scripts: refused exactly for a string that is not all digits, else the exact decimal product of any size |
| `Messages.ReserveIsExact` | internal/domain/order.go:351-408 | a message becomes an order if and only if it is well formed; the order then has the message's own data with the currency in lower case, and a refusal names a field that is wrong |
| `Booking.KafkaIntake.BookTicket` | internal/application/booking/service_kafka_intake.go:110-222 | refused before Redis is touched, refused by Redis, published, or failed with the revert's outcome recorded; under any interference a booked answer means that a message of that order's own fresh id with the same data is published, at a unit price times the quantity; alone, the answer, the counter, the price and the one message published are those of the request and the metadata used |
| `Booking.KafkaIntake.DeductWithRepair` | internal/application/booking/service_kafka_intake.go:228-267 | the repair is tried on missing metadata only and once; left alone, sold out comes first, the counter loses the units exactly if they were there, and the message carries the request's data and the price of the metadata used |
| `Booking.StreamBooking.BookTicket` | internal/application/booking/service.go:97-179 | a booked order is queued under its own fresh id with the same data; left alone, the answer is the contract's, the counter loses the units exactly if it is Ok, and then exactly one message is queued, at the unit price times the quantity, and otherwise none |
| `Booking.Process` | internal/application/worker/message_processor.go:65-160 | a malformed message is refused for a field that is wrong before any transaction; sold out, or already bought exactly if the id exists or the user has an order for this event that is not Failed; otherwise the row of the message is inserted and its tickets taken, and only a lost reply hides that |
| `Recon.Reconciler.Resolve` | internal/application/recon/reconciler.go:183-320 | one counter a row, which says what the gateway answered; it is asked only about a young enough row with a non-blank intent; only its Charged confirms the row, and Declined, no record and old age fail it with its trigger, undisturbed exactly so |
| `Recon.Reconciler.FailOrder` | internal/application/recon/reconciler.go:342-380 | success leaves the order Failed with a trigger, an invalid transition means the row had moved on, and an error has a failed call behind it |
| `Recon.Reconciler.FindStuckCharging` | internal/infrastructure/persistence/postgres/repositories.go:376-431 | the charges not updated for long enough, oldest first, with their ages and intents, at most the limit, and none left out below it |
| `Recon.Reconciler.Sweep` | internal/application/recon/reconciler.go:121-165 | every row so listed that is reached moves exactly one counter, the one that its age, its intent and the gateway call for, whatever became of the others, and ends as that counter says |
| `Watchdog.Watchdog.Resolve` | internal/application/saga/watchdog.go:178-279 | one label a row, each for its own reason; the compensator is called exactly for a young enough row that is read as not compensated and whose trigger marshals; the compensated label means the order is settled, and undisturbed it is given exactly to a failed order that is not superseded |
| `Watchdog.Watchdog.FindStuckFailed` | internal/infrastructure/persistence/postgres/repositories.go:461-495 | the failed, expired and declined orders not updated for long enough, oldest first, with their ages, at most the limit, and none left out below it |
| `Watchdog.Watchdog.Sweep` | internal/application/saga/watchdog.go:113-146 | every row so listed that is reached gets one label, which its age and its own calls allow, whatever became of the others, and is as that label says |
| `Pay.CreatePaymentIntent` | internal/application/payment/service.go:91-217 | a created intent is the gateway's own non-empty id for this order and is on the still payable row; each refusal on the read is given for its own reason and changes nothing; undisturbed, the intent is written and answered exactly if the row is still open by the database's clock, carries no other intent, and no other row carries this one |
| `Pay.SameIntentAgain` | internal/application/payment/service.go:157-175 | two created intents anywhere in one run, whatever lies between them, are the same if and only if they are for the same order, and the row keeps the first |
| `DriftDetector.NeverCacheHigh` | internal/application/recon/inventory_drift.go:273-300 | on one and the same state of a legal run the classification is never `cache_high` or `cache_missing`, and `cache_low_excess` if and only if more than the tolerance is in flight, leaked or to be reverted |
| `DriftDetector.HighMeansTicketsCameBack` | internal/application/recon/inventory_drift.go:248-300 | with Postgres read first and Redis later in a legal run, `cache_high` is reported if and only if more tickets came back in Postgres in between than are in flight, leaked or to be reverted at the second read, and `cache_low_excess` if and only if more than the tolerance is left of these |
| `DriftDetector.HighReadsAreStale` | internal/application/recon/inventory_drift.go:248-300 | the same of any pair of numbers that the detector's methods read within a legal run |
| `Counterexamples.StaleReadLooksHigh` | internal/application/recon/inventory_drift.go:248-300 | a legal run from a first deployment in which one compensation between the two reads of a state without drift is reported as `cache_high`, whatever the tolerance |
| `DriftDetector.WorstIsExact` | internal/application/recon/inventory_drift.go:201-220 | an event is skipped exactly if some ticket type is, and clean exactly if all are |
| `DriftDetector.DriftsAreExact` | internal/application/recon/inventory_drift.go:263-300 | a direction is counted of a ticket type if and only if the two numbers read of it say so |
| `DriftDetector.Detector.CheckTicketType` | internal/application/recon/inventory_drift.go:248-300 | whatever runs before the cache read, at most one direction is counted and it is the one the listed row and the counter then read say; no counter in Redis is written, and metadata is reseeded exactly for a missing counter with tickets left, where that is configured |
| `DriftDetector.Detector.CheckOne` | internal/application/recon/inventory_drift.go:201-220 | every ticket type of the event is read, the rows when they are listed and each counter later in the same run; exactly what was read of them is counted, and the outcome is the worst |
| `DriftDetector.Detector.Sweep` | internal/application/recon/inventory_drift.go:118-180 | under any interference, every event that is reached has all its ticket types read within the tick, and exactly what was read is counted; after a whole tick the gauge is the number of events whose outcome is drifted, zero while the events cannot be listed, and unchanged after a cancellation |
| `Stages.RunRefines` | cmd/booking-cli-stage3/server.go:455-563 | every run of Stage 3, faults, crashes and ambiguous commits included, is in Postgres a run of Stage 1's machine |
| `Stages.StoresDiffer` | cmd/booking-cli-stage3/server.go:455-563 | after any run in which revert keys outlive the attempts, the stores differ by exactly the orders whose revert key is set although they are not compensated; no order is in Redis twice |
| `Stages.KeyMustLast` | cmd/booking-cli-stage3/server.go:509-511 | otherwise an order can be: the key lost between two attempts, and Redis ends above Postgres by its units |
| `Stages.NothingElseHappens` | cmd/booking-cli-stage3/server.go:546-560 | over any run an order that awaited payment is unchanged, paid, or has exactly Stage 1's change of its row; as long as its key is not lost, Redis had its units back before that change |
| `Stages.RetriesEndEqual` | cmd/booking-cli-stage3/server.go:455-563 | once every started compensation has gone through, the stores agree |
| `Stages.AgreesWithStage1` | cmd/booking-cli-stage1/server.go:254-298 | an undisturbed Stage 3 attempt has Stage 1's effect and answer if and only if the row exists, names a ticket type, and that type exists while the order awaits payment |
| `Stages.PaidInBetweenOversells` | cmd/booking-cli-stage3/server.go:494-500 | an order paid between two attempts leaves its units in Redis although it was sold |
| `StageServers.Stage3Server.Compensate` | cmd/booking-cli-stage3/server.go:455-563 | with anything going on before the row lock and anything else during it, done means that the commit did exactly Stage 1's step; any other answer leaves Postgres alone, save for a commit whose reply was lost |
| `StageServers.Stage3Server.Retry` | cmd/booking-cli-stage3/server.go:455-563 | retried among others until done or not eligible, failing anywhere: done means compensated, not eligible that it is so still, and the counters keep each reverted order's units exactly once |
| `StageServers.Stage3Server.RetryAlone` | cmd/booking-cli-stage3/server.go:455-563 | and undisturbed: Postgres ends where Stage 1 leaves it and Redis has the units back exactly once |
| `StageServers.FindCandidates` | cmd/booking-cli-stage3/server.go:580-588 | at most a hundred overdue orders, none twice, and all of them below that limit |
| `StageServers.Stage3Server.SweepOnce` | cmd/booking-cli-stage3/server.go:573-620 | under any interference each candidate is attempted once in order until cancelled, exactly the errors are logged, done means compensated and not eligible means so, both at the end of the tick; without faults on orders with existing ticket types the effect is Stage 1's for one order after another |
| `StageServers.Stage1Server.Compensate` | cmd/booking-cli-stage1/server.go:254-298 | all of the transaction or nothing of it, with its answer |
| `StageServers.Stage1Server.SweepOnce` | cmd/booking-cli-stage1/server.go:373-420 | each candidate is attempted once in order until cancelled, and exactly the errors are logged; without faults the effect is that of one compensation after another |
| `StageServers.RepeatedCandidates` | cmd/booking-cli-stage1/server.go:373-420 | a later tick over orders that an earlier one has handled changes nothing, in whatever order and however often |
| `Dora.CollectRecoveries` | internal/dora/metrics.go:150-174 | the pairs of some sorted copy; unless a failure shares its instant with a success of its environment, the multiset of gaps from each failure to the earliest later success of its environment, whatever the input order |
| `Dora.EarliestIsMinimum` | internal/dora/metrics.go:163-171 | that success is the minimum over all later ones, and absent if and only if there is none |
| `Dora.GapsPermute` | internal/dora/metrics.go:150-174 | the gaps do not depend on the order of the input |
| `Dora.DeterminedExactly` | internal/dora/metrics.go:154-156 | the deploys determine the gaps if and only if no failure shares its instant with a success of its environment; otherwise two ways to sort them give different answers |
| `Dora.Percentile` | internal/dora/metrics.go:313-328 | a sample such that at least p percent of the samples are at most it and fewer than p percent are below it; the minimum for p of zero or less, the maximum from 100 on; zero for no samples |
| `Dora.Median` | internal/dora/metrics.go:330-342 | the mean of the two middle values, which fewer than half of the values lie strictly below and above, and of which an odd number of values has one |
| `Dora.BucketByDay` | internal/dora/metrics.go:97-122 | one snapshot a day of the window, each with the exact counts of its own day |
| `Dora.BucketsConserve` | internal/dora/metrics.go:97-122 | the daily totals add up to the deploys of the window |
| `Dora.CountFailureSignals` | internal/dora/metrics.go:178-209 | the number of signalling positions of the sorted deploys, the same for every input order when there are no ties |
| `Dora.SignalsAreFailures` | internal/dora/metrics.go:178-209 | the heuristic counts every failed deploy, and nothing else if and only if no success follows a success within a day, other than at the same instant |
| `Semver.AcceptsExactly` | internal/dora/metrics.go:258-297 | accepted is exactly a "v", three digit runs joined by dots, and nothing or a suffix that starts with '-' or '+' (Semantic Versioning 2.0.0 items 2, 9 and 10 without the leading-zero rule) |
| `Semver.RoundTrip` | internal/dora/metrics.go:258-297 | parsing inverts printing for every version with an empty suffix or one that starts with '-' or '+' |
| `Semver.ParseSemver` | internal/dora/metrics.go:258-297 | the two loops compute that meaning, with -1 in all three numbers for a refused tag |
| `Semver.Atoi` | internal/dora/metrics.go:299-311 | accepts exactly the non-empty digit runs, with their value |
| `Semver.PatchBumpOfPrinted` | internal/dora/metrics.go:243-254 | one printed version is a patch bump of another exactly if it is its next patch without a suffix |
| `Semver.CountReworkReleases` | internal/dora/metrics.go:216-238 | the number of adjacent pairs that are patch bumps within a week, at most n - 1, the same for every input order when there are no ties |
| `Sorting.SortedIsUnique` | internal/dora/metrics.go:154-156 | without ties an input has one sorted permutation only |

## Left out

* Stage 5's own intake consumer and its compensator, the `sync` forward paths, Stage 2, HTTP, SSE, tracing, logging, configuration checks, the GitHub client and the report: easy members or plumbing.
* A unit of work is a read step and one atomic write-and-commit step, each on the state of its own moment, as under READ COMMITTED; lock waits inside a transaction are not modelled, except for Stage 3's row lock. Only the paying transaction compares `NOW()` with a deadline, so only it has a begin step of its own; `/pay` and the queries are single statements.
* Rows of `Start` name a ticket type. Legacy rows without one, for which paths B and C of `resolveTicketTypeID` exist, are resolved in `Protocol.ResolveTicketType`, but no run starts with them.
* The worker's delivery policy (retries, PEL, dead letters) is reduced to its three effects: commit, give up, acknowledge.
* Letters outside ASCII that lower-case to ASCII ones, in a currency code.
* JSON, reason strings, creation times, UUID generation and context timeouts; ids are natural numbers, cancellation is an early exit, marshal and unmarshal failures are flags.
* Sorting a copy with `sort.Slice` is a method that returns a sorted permutation; ties may come out either way, as in the source.
* Of the metrics, only those that a statement above speaks of are kept: the compensator's labels and the number of its observed durations, late success, the sweepers' labels, counters and gauges, `RecordPublishFailure`, and the detector's counters.
* Machine integers, currency rounding and floating point: counters are unbounded, ranks use an integer ceiling, durations are whole seconds, rates are not computed; the scripts' doubles are exact for the products of one digit that occur.
* Metadata expiry and Redis memory policy: metadata may be repaired at any time but is lost only by `Chaos`.
* `computeMetrics`, `collectLeadTimes` and `intsFromDaily` only assemble the members above.
* The `updated_at` column and the list of available events are parameters of the ticks that read them; a row that cannot be scanned is not modelled.
* Drift.DriftIdentity: outside the hypotheses a unit can be queued and given back at once, so this identity speaks of each reservation's history; `Drift.CacheNeverHigh` reads the same parts off the stores, the queue and the live handlers.
