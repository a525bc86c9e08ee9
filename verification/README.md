# Verification of the order service and its event pipeline

This project models the transactional outbox pipeline of the order service and proves what it guarantees:
from an API request, through the database transaction, the outbox publisher and the Kafka log, to the
deduplicating consumer and its notifications. `dafny verify dfyconfig.toml` checks it.

The system is described twice. A step machine says what every process may do to the shared state, one
statement at a time, in any order, with failures anywhere; its theorems hold for every run. Classes then
follow the program text: their methods make only steps of the machine, let other processes make any
number of steps between two statements, and are proved against what the call promises. In
`OrderService` and `Publisher` every state of such an object is the end of a run of the machine, so the theorems
apply to it. A parameter `alone` or `quiet` says that no other process makes a step during the call, and
`faults` that statements and calls may fail; in `Consumer` a quiet call has no failures either. The contracts hold
for every choice, and say more the calmer it is.

| files | part of the system |
|---|---|
| `OrderMachine`, `OrderInvariants`, `OrderTheorems`, `Idempotency`, `OrderExample`, `OrderService` | creating, paying and cancelling orders; payments, outbox rows and idempotency keys |
| `OutboxMachine`, `OutboxInvariants`, `OutboxTheorems`, `OutboxOrder`, `CommitOrder`, `Publisher` | claiming, publishing and marking outbox rows; the Kafka log and its order |
| `Messages`, `DeliveryMachine`, `DeliveryInvariants`, `Consumer` | envelopes, the consumer group, processed events and notifications |
| `EndToEnd`, `Quiescence` | the three machines as one system, and how it comes to rest |
| `OrderLock`, `LockedService`, `LockedOrder`, `Crossing`, `RateLimiter` | the Redis lock, alone and around the service, what it does for the order of the log, and the rate limiter |
| `Migration` | the backfill of `partition_key` |
| `Types`, `Totals` | rows, payloads, sums over tables |

How the environment is modelled:

- Transactions are READ COMMITTED: writes show at commit, a row lock or a pending unique key of one
  transaction keeps the statements of others waiting, and any statement may fail and roll back. A commit
  can also succeed while its caller sees an error.
- A Publish call may be refused, delivered, reported as failed before or after its record was appended,
  or abandoned while the record still arrives later or never.
- Other producers may write to the topic, but only records that the consumer discards; `EndToEnd.NotificationsAreSound`
  rests on that.
- A consumer may crash anywhere, partitions may move between consumers at any poll, and only the owner
  of a partition can commit its offset.
- UUIDs are natural numbers, with the last hexadecimal digit of their canonical text as remainder by 16. A text
  may also be another spelling of a UUID, which the database reads as the same id and Redis as another key. JSON
  documents are values, with the field names of the struct tags. Text and hash functions of the runtime
  are parameters. The clock only moves forward. The Redis client (go-redis v9) sends a
  time to live in whole seconds.

## Results that differ from what one might expect

- The repository's own README says at its line 97 that the events of one order keep their order in the log. That is not true of
  the code as it is, in three ways. A batch goes on after a failed Publish call, so a later event can overtake the
  failed one. `created_at`, by which rows are claimed, is the start time of a transaction, so a call that began
  first and commits last is published first (`Crossing.CrossedHistoryNotKept`). And two publishers can hold
  different rows of one order. The exact conditions are proved for every history of committed events. With any
  number of publishers, whether calls fail or not, the commit order is kept if and only if nothing is ever claimed
  or no order has two events (`CommitOrder.KeptByManyExactly`). With one publisher at a time, whatever fails, it is
  kept if and only if nothing is ever claimed, or `created_at` strictly increases with the commits of every order and either
  rows are claimed one by one or no order has two events (`CommitOrder.KeptWhateverFailsExactly`); in the runs
  without a failed call, if and only if nothing is ever claimed or `created_at` strictly increases
  (`CommitOrder.KeptIfNothingFailsExactly`).
- The Redis lock makes `created_at` follow the commits of an order, up to ties, for payments and cancellations that finish
  in time and spell the order's id alike. That the creation comes first needs no lock, but callers that pay and
  cancel only orders whose creation has committed (`LockedOrder.CreatedFirst`); together with the absence of ties
  this is the condition of `LockedOrder.TimelyIncreasing`. The lock's key is the text of the URL, so
  two spellings of one id are two locks and one row: such calls overlap, each in time, and can commit against
  their `created_at` (`Crossing.SpellingsCross`).
- Having payments and no success among them is the same as `payment_failed` for exactly the orders that were not
  cancelled after a payment (`OrderTheorems.PaymentsMatchStatus`, with a run in `OrderExample.DeclinedThenCancelled`).
- The loser of a race for one idempotency key gets an error, not a replay (`Idempotency.RaceLoserFails`), and writes
  nothing (`Idempotency.RaceLoserWritesNothing`); repeating the request afterwards is answered from the stored row.
- The rate limit holds in every window if and only if a window lasts at least a second, or divides the second, or
  the limit is at most one (`RateLimiter.LimitKeptExactly`): a counter's lifetime is cut to whole seconds, so it can
  end inside a shorter window that shares it.

## Model

| member | source | states |
|---|---|---|
| `OrderService.Service.CreateOrder` | internal/service/order_service.go:130-251 | among any other processes: either the call committed nothing, or it made exactly one commit, which wrote the order, its event and its idempotency row and nothing else; the order has the amount, the user, the trimmed upper-case currency and the trimmed description of the request as it was sent, and the row its method, path and trimmed key; answers, conflicts and refusals say what the tables hold; undisturbed, the outcome is the one the request and the stored rows call for |
| `OrderService.Service.PayOrder` | internal/service/order_service.go:274-427 | the same for the payment, the next order status, the event and the idempotency row; it pays the order that was sent, which is open and the caller's own unless the caller is an admin; "forbidden" is answered only to others, and undisturbed always to them; "invalid status" means a closed order, whoever else runs |
| `OrderService.Service.CancelOrder` | internal/service/order_service.go:429-482 | the same for the closed order and its event, without an idempotency row |
| `OrderService.Service.GetIdempotencyKey` | internal/service/order_service.go:155-159 | a hit that differs is a conflict, a hit that matches goes to the replay with its row, and any error counts as a miss |
| `OrderService.Service.ReplayStored` | internal/service/order_service.go:294-319 | the stored resource and status are answered, and the process commits nothing |
| `OrderService.Service.LookUp` | internal/service/order_service.go:155-176 | a hit is answered from the stored row or refused as a conflict, and the process commits nothing; a failed lookup counts as a miss |
| `OrderService.Service.CreateInTx` | internal/service/order_service.go:180-242 | the transaction of a creation commits once, as a whole, or the process commits nothing |
| `OrderService.Service.PayInTx` | internal/service/order_service.go:324-422 | the transaction of a payment commits once, as a whole, or the process commits nothing; a guard's refusal holds of the tables |
| `OrderService.Service.CancelInTx` | internal/service/order_service.go:436-479 | the transaction of a cancellation commits once, as a whole, or the process commits nothing |
| `OrderService.Service.LockTheOrder` | internal/service/order_service.go:325-336 | every failure is "not found", "forbidden" or "invalid status", and the last two hold of the locked order; undisturbed it goes on exactly with an existing, permitted, open order |
| `OrderService.Service.CreateIdempotencyKey` | migrations/001_init_schema.sql:70 | a key that is taken, or about to be, fails the transaction |
| `OrderService.Service.CommitTx` | internal/store/store.go:379-396 | one commit that puts all statements of the transaction into the tables at once before the call returns, or none |
| `OrderTheorems.StoredRowsAreClean` | internal/service/order_service.go:131-140 | after any run every stored order has a positive amount and a currency, every payment a positive amount, and every idempotency row a key that is not blank |
| `OrderTheorems.OnlyOwnersAndAdmins` | internal/service/order_service.go:325-336 | every payment or cancellation that commits in any run was received from an admin or from the owner of the order it named, which was open until then |
| `OrderTheorems.SpellingDoesNotMatter` | internal/service/order_service.go:136-150 | creations that differ in case or surrounding space have one key and match the same rows |
| `OrderInvariants.StepKeepsInv` | internal/service/order_service.go:130-482 | every step of every process keeps histories, ledger, outbox, idempotency rows and row counts consistent |
| `OrderInvariants.RunKeepsInv` | internal/service/order_service.go:130-482 | so every run does |
| `OrderTheorems.HistoryDeterminesStatus` | internal/service/order_service.go:180-239 | the events of an order are created, failed*, then at most one success or cancellation, and that shape is its status |
| `OrderTheorems.FoldsShaped` | internal/service/order_service.go:334-346 | only histories of that shape fold to a status |
| `OrderTheorems.ShapedFolds` | internal/service/order_service.go:334-346 | each such history folds to the status it should |
| `OrderTheorems.NoOrderNoEvents` | internal/service/order_service.go:207-216 | an id without an order has no events |
| `OrderTheorems.PaymentsMatchStatus` | internal/service/order_service.go:334-364 | paid means exactly one success; for exactly which orders the payments tell failed and pending apart |
| `OrderTheorems.MockPaymentByLastDigit` | internal/service/order_service.go:484-491 | a payment is declined exactly if its id ends in 0 or f, and carries a reference or a reason but not both |
| `OrderExample.DeclinedThenCancelled` | internal/service/order_service.go:446-453 | a run that ends with failed payments only and a cancelled order |
| `OrderTheorems.MoneyIsConserved` | internal/service/order_service.go:341-364 | the amounts of successful payments add up to the amounts of paid orders |
| `OrderTheorems.TablesAgree` | internal/service/order_service.go:183-235 | idempotency rows pair off with orders and payments; outbox rows number orders plus payments plus cancelled orders |
| `OrderTheorems.EventsNameTheirOrder` | internal/service/order_service.go:381-388 | every outbox row is keyed by an existing order and names its user |
| `Idempotency.StepRefines` | internal/service/order_service.go:155-242 | each statement is a step of a ledger that executes a key in one atomic action, or no step |
| `Idempotency.RunRefines` | internal/service/order_service.go:293-422 | so every concurrent run, with any failed lookups, is a run of that ledger with the same answers, unless two request bodies it received share a hash |
| `Idempotency.SpecRunOk` | migrations/001_init_schema.sql:70 | the ledger answers only from its rows and executes each key at most once |
| `Idempotency.AtMostOnce` | internal/service/order_service.go:155-242 | of two answers under one key at most one was executed, even if request bodies collide in the hash |
| `Idempotency.SameAnswer` | internal/service/order_service.go:294-319 | two answers under one key name one resource and one status code |
| `Idempotency.RaceLoserFails` | internal/service/order_service.go:223-242 | a process past its lookup whose key gets recorded is only ever answered with a failure |
| `Idempotency.RunGrows` | internal/store/store.go:379-396 | no committed row is ever taken back |
| `Idempotency.RaceLoserWritesNothing` | internal/service/order_service.go:223-242 | a request whose key is already recorded never commits its transaction |
| `Idempotency.MatchingRow` | internal/service/order_service.go:156-171 | a row that matches a request names a live resource of the right kind, and a payment of the requested order |
| `Idempotency.RepeatedRequest` | internal/service/order_service.go:294-319 | after any later run a request with the same user, key, method, path and content gets the same resource and status code; one under the same key that differs in any of these, such as in amount, currency, description or order, is refused |
| `Idempotency.BodiesTellApart` | internal/service/order_service.go:142-150 | the stored body is the same exactly for requests of one kind that agree in every field |
| `Messages.ConsumerAcceptsPublisher` | internal/consumer/event_consumer.go:57-113 | every envelope the publisher builds passes validation with its id and user, and with its event type as the constants spell it |
| `Messages.MessageInjective` | internal/publisher/outbox_publisher.go:78-91 | different events are sent as different records |
| `Messages.PayloadFields` | internal/service/order_service.go:96-122 | what is read back from each of the three payloads under every name, an empty reference or reason being left out, and that there are no other names |
| `Messages.EnvelopeFields` | internal/publisher/outbox_publisher.go:78-91 | what is read back from an envelope under every name, with the event and aggregate types as the constants spell them |
| `OrderTheorems.RecordsTellTheTables` | internal/service/order_service.go:195-202 | after any run each outbox row is sent as a record that tells, field by field, what the tables hold about its order and payment |
| `Messages.AcceptedExactly` | internal/consumer/event_consumer.go:57-113 | exactly which records are accepted, and with which id, user and event type |
| `OutboxInvariants.StepKeepsInv` | internal/publisher/outbox_publisher.go:70-123 | every step keeps claims, marks, log, accounting and published rows consistent |
| `OutboxInvariants.RunKeepsInv` | internal/publisher/outbox_publisher.go:70-123 | so every run does |
| `OutboxTheorems.ClaimsAreDisjoint` | internal/store/sqlc/outbox.sql.go:14-21 | open publisher transactions hold disjoint, unpublished rows |
| `OutboxTheorems.PublishedRowsStayOut` | internal/store/sqlc/outbox.sql.go:14-21 | once a published mark has committed no later claim contains the row |
| `OutboxTheorems.PublishAccounting` | internal/publisher/outbox_publisher.go:77-119 | calls are committed failures, rolled back calls, the publishing call and the one in flight; copies in the log never exceed them |
| `OutboxTheorems.NoLostEvents` | internal/publisher/outbox_publisher.go:89-109 | a committed `published_at` means a copy in the partition of the event's key |
| `OutboxTheorems.OneOrderOnePartition` | internal/publisher/outbox_publisher.go:89-91 | every accepted record is a row's message, in the partition of that row's order |
| `OutboxOrder.RunKeepsOrder` | internal/publisher/outbox_publisher.go:77-119 | with one publisher at a time, first copies follow `created_at` except after a failed call in a batch of several rows |
| `OutboxOrder.OvertakenOnlyAfterFailure` | internal/publisher/outbox_publisher.go:91-105 | an event with a later `created_at` is logged before an earlier one of its order only if a call for the earlier one failed in a batch of several rows |
| `CommitOrder.KeptWhateverFailsExactly` | internal/publisher/outbox_publisher.go:91-105 | for every history of commits: when one publisher keeps the commit order of every order whatever fails |
| `CommitOrder.KeptIfNothingFailsExactly` | internal/store/sqlc/outbox.sql.go:16-18 | for every history of commits: when one publisher keeps the commit order in the runs without a failed call |
| `CommitOrder.SomeRunOvertakes` | internal/publisher/outbox_publisher.go:104 | for every other history a run of one publisher that logs a later commit first, by skipping a failed row or by following `created_at` |
| `CommitOrder.TwoPublishersOvertake` | internal/store/sqlc/outbox.sql.go:20 | for every history with two events of one order a run of two publishers that logs the later one first, without a failed call |
| `CommitOrder.KeptByManyExactly` | internal/store/sqlc/outbox.sql.go:14-21 | for every history of commits: when any number of publishers keeps the commit order, with and without failed calls |
| `LockedOrder.CreationIsFirst` | internal/service/order_service.go:207-216 | the creation of an order is the first of its events to commit |
| `LockedOrder.CreatedFirst` | internal/service/order_service.go:324-336 | if callers pay and cancel only orders whose creation has committed, no event of an order is stamped before its creation |
| `LockedOrder.TimelyIncreasing` | internal/api/order_handler.go:167-173 | for such callers, timely calls that spell the id alike, and without ties, `created_at` strictly increases with the commits of an order |
| `LockedOrder.LockedOrderKept` | internal/api/order_handler.go:167-173 | behind the lock as above, one publisher keeps the commit order if no call fails or rows are claimed one by one |
| `Crossing.SpellingsCross` | internal/api/order_handler.go:285-287 | two spellings of one order id hold two locks: a payment and a cancellation overlap in time and commit against their `created_at` |
| `Crossing.CrossedHistoryNotKept` | internal/store/sqlc/outbox.sql.go:16-18 | no batch size keeps the commit order of that history, even if no call fails |
| `Publisher.Cluster.Oldest` | internal/store/sqlc/outbox.sql.go:16-18 | an available row created no later than any other one |
| `Publisher.Cluster.ClaimOutboxEvents` | internal/store/sqlc/outbox.sql.go:23-52 | the oldest available rows in creation order, up to the limit, none left out |
| `Publisher.Cluster.AwaitReport` | internal/kafka/producer.go:124-145 | success only after delivery; an error leaves the outcome open |
| `Publisher.Cluster.Publish` | internal/kafka/producer.go:93-146 | the outcomes of one call; an error that it returns is that of a call for this row; held rows and earlier records stay |
| `Publisher.Cluster.MarkOutboxEvent` | internal/store/sqlc/outbox.sql.go:102-139 | one uncommitted mark for the current row, published or failed by the outcome of its call |
| `Publisher.Cluster.PublishOne` | internal/publisher/outbox_publisher.go:91-118 | one row further, marked with the outcome of its call, or the transaction is given up |
| `Publisher.Cluster.PublishAll` | internal/publisher/outbox_publisher.go:77-119 | all rows of the batch, in its order, or the transaction is given up |
| `Publisher.Cluster.EndBatch` | internal/store/store.go:391-395 | commit or rollback of the marks |
| `Publisher.Cluster.PublishBatch` | internal/publisher/outbox_publisher.go:70-123 | a committed batch leaves each claimed row published with its record in the log, or with one more attempt and the error of a failed call for this row; a batch that fails leaves its rows as they were; if no call fails all claimed rows are published, whatever others do; a quiet one publishes exactly its claim |
| `Publisher.FaultFreeBatch` | internal/publisher/outbox_publisher.go:70-123 | a quiet batch publishes exactly the smaller of batch size and backlog, the oldest first |
| `Publisher.Cluster.Run` | internal/publisher/outbox_publisher.go:52-68 | nothing published is lost in any run; left in peace the backlog shrinks by a batch every round, and is empty with every record in the log after backlog / batch size rounds, rounded up |
| `Publisher.OthersDoNotDisturb` | internal/store/sqlc/outbox.sql.go:20 | no step of others changes the rows a publisher holds |
| `DeliveryInvariants.StepKeepsInv` | internal/kafka/consumer.go:105-188 | crashes, restarts and reassignment keep committed offsets behind settled records, and one notification for each processed event |
| `DeliveryInvariants.LongerLogKeepsInv` | internal/kafka/consumer.go:105-188 | so does a growing log |
| `Consumer.Group.Handle` | internal/consumer/event_consumer.go:52-182 | an invalid message changes nothing; any other is afterwards processed and announced, once, or the call fails |
| `Consumer.Group.Deliver` | internal/consumer/event_consumer.go:132-147 | a new notification to the user of the message, in the transaction of the processed row |
| `Consumer.Group.CommitTransaction` | internal/store/store.go:395 | both rows at once, even if the answer is lost |
| `Consumer.Group.HandleRecord` | cmd/consumer/main.go:68-99 | in every run an invalid record counts as handled, so that its offset gets committed; a store error ends the process |
| `Consumer.Group.CommitMessage` | internal/kafka/consumer.go:153-161 | in every run success means that the owner committed exactly one past the handled record; after an error the process ends, and at most that same commit was stored |
| `Consumer.Group.Consume` | internal/kafka/consumer.go:118-161 | in every run a turn that goes on has settled the record and committed the offset right behind it |
| `Consumer.Group.Turn` | internal/kafka/consumer.go:105-188 | a turn of the loop with an empty poll, an error or a record; undisturbed it settles one record |
| `Consumer.Group.Run` | internal/kafka/consumer.go:76-189 | nothing announced is lost in any run; left in peace it has committed every record after as many turns as were uncommitted |
| `EndToEnd.InsertAlwaysPossible` | internal/service/order_service.go:207-216 | joining the machines forbids no step of the service |
| `EndToEnd.RunKeepsInv` | internal/publisher/outbox_publisher.go:70-123 | all invariants hold together in every run of the whole system |
| `EndToEnd.NotificationsAreSound` | internal/consumer/event_consumer.go:117-147 | in every state a notification stems from a committed event, is the only one for it, and was sent by e-mail to the user of its order |
| `EndToEnd.QuiescentExactlyOnce` | internal/consumer/event_consumer.go:117-147 | with every row published and every offset committed, each event has exactly one notification |
| `EndToEnd.QuiescentCount` | internal/consumer/event_consumer.go:132-141 | there are then as many notifications as orders, payments and cancellations |
| `Quiescence.QuiescenceReachable` | internal/publisher/outbox_publisher.go:52-68 | from every reachable state steps of publishers and consumers alone lead to such a state of rest |
| `EndToEnd.OffsetsAreSafe` | internal/kafka/consumer.go:132-161 | a record below a committed offset was processed or is invalid |
| `OutboxTheorems.PublisherOnlyLog` | internal/publisher/outbox_publisher.go:78-91 | in a run in which only publishers write, every record of the log passes validation |
| `EndToEnd.NothingIsDiscarded` | cmd/consumer/main.go:81-94 | in such a run of the whole system no consumer can ever discard a record |
| `RateLimiter.Limiter.Allow` | internal/ratelimit/limiter.go:30-62 | one call as a function of the shared counters, with both Redis failures |
| `RateLimiter.RedisKeyRoundTrip` | internal/ratelimit/limiter.go:33 | scope, key and second can be read back from a counter's name |
| `RateLimiter.WindowsHaveOwnSeconds` | internal/ratelimit/limiter.go:32-33 | windows have different names if and only if a window lasts at least a second |
| `RateLimiter.RetryAfterReachesNextWindow` | internal/ratelimit/limiter.go:51-54 | waiting for RetryAfter ends exactly at the start of the next window |
| `RateLimiter.CountersExact` | internal/ratelimit/limiter.go:35-44 | a counter has counted exactly the requests that used it, and outlives each of its windows |
| `RateLimiter.ReplyExactly` | internal/ratelimit/limiter.go:46-61 | the whole reply to a call: the limit, what the counted requests leave of it, never below zero, and allowed exactly up to it |
| `RateLimiter.FaultsExactly` | internal/ratelimit/limiter.go:35-44 | a failed INCR changes nothing, and a failed EXPIRE leaves a counter that never ends |
| `RateLimiter.AllowedPerWindow` | internal/ratelimit/limiter.go:56-61 | a window allows at most the limit, and from one second on exactly the smaller of limit and requests when Redis answers |
| `RateLimiter.LimitKeptExactly` | internal/ratelimit/limiter.go:40-44 | the limit holds in every window if and only if the window is aligned with the second or the limit is at most one |
| `RateLimiter.AllowedInAnyStretch` | internal/ratelimit/limiter.go:30-62 | any stretch as long as an aligned window allows at most twice the limit |
| `RateLimiter.AtMostTwice` | internal/ratelimit/limiter.go:40-44 | a window of any length allows at most twice the limit |
| `RateLimiter.AllowedInAnyStretchAtAll` | internal/ratelimit/limiter.go:30-62 | any stretch as long as a window of any length allows at most four times the limit |
| `OrderLock.Manager.Acquire` | internal/distributedlock/lock.go:34-50 | succeeds exactly if no live token is there, and then changes only this key, which expires after the time to live, or never if that is zero; a failed attempt changes nothing |
| `OrderLock.Manager.Release` | internal/distributedlock/lock.go:52-61 | deletes the key exactly if it still carries the own token, and changes nothing else |
| `OrderLock.OneHolder` | internal/distributedlock/lock.go:34-50 | at most one live token per key; a section holds it exactly until it ends or runs out of time |
| `OrderLock.AttemptSparesHolders` | internal/distributedlock/lock.go:37 | a key can be taken exactly if nobody holds it, and an attempt leaves all holders holding |
| `OrderLock.ReleaseSparesOthers` | internal/distributedlock/lock.go:52-61 | an expired holder never removes its successor's lock |
| `OrderLock.TimelySectionsAreDisjoint` | internal/distributedlock/lock.go:34-61 | sections that end in time do not overlap |
| `LockedService.ServiceNotHeldUp` | internal/api/order_handler.go:167-173 | the bracket adds no other restriction to a running request |
| `LockedService.RunKeepsInv` | internal/api/order_handler.go:167-173 | service, lock and their link stay consistent in every run |
| `LockedService.CreationFollowsCommit` | internal/api/order_handler.go:221-227 | payments and cancellations under locks on one text that commit in time do not overlap, so `created_at` follows commit order |
| `LockedService.ServiceRuns` | internal/api/order_handler.go:167-173 | behind the lock the service runs as without one |
| `Migration.AddColumn` | migrations/004_add_outbox_partition_key.sql:2-3 | every row starts without a key |
| `Migration.FillColumn` | migrations/004_add_outbox_partition_key.sql:5-9 | each row gets the value of the CASE expression, and a failing cast aborts |
| `Migration.CheckNotNull` | migrations/004_add_outbox_partition_key.sql:11-12 | succeeds exactly if no key is missing |
| `Migration.Up` | migrations/004_add_outbox_partition_key.sql:2-12 | succeeds exactly on tables where every row has a key to find, sets that key and nothing else in each row; a failure leaves the table as it was |
| `Migration.Down` | migrations/004_add_outbox_partition_key.sql:15-16 | drops the key and nothing else |
| `Migration.PaymentNeedsOrderId` | migrations/004_add_outbox_partition_key.sql:8 | when a payment row has a key to find |
| `Migration.BackfillExactly` | migrations/004_add_outbox_partition_key.sql:6-9 | the key of each row, exactly, and exactly when the cast fails |
| `Migration.BackfillAgrees` | migrations/004_add_outbox_partition_key.sql:6-9 | the backfilled key is the one the service writes for the event |
| `Migration.LegacyOutboxMigrates` | migrations/004_add_outbox_partition_key.sql:5-9 | so the outbox of any run of the service migrates to keys of existing orders |

## Left out

- HTTP routing, JSON responses, cookies, CORS, JWT, bcrypt, sessions, configuration, metrics, logging and start-up: no protocol to prove.
- Reading orders (`GetOrder`, `ListOrders`): plain queries with an ownership check.
- The users table: a foreign key that fails is one of the failing statements.
- SHA-256: a function parameter. Results about matching requests assume that no two request bodies received in the run share a hash.
- Identical replay bodies: a replay reads the current order row, so only resource and status code are claimed.
- UUID texts that only one of the two parsers of the consumer accepts, and JSON names that differ only in case.
- Negative batch sizes, attempt counters wider than a column, and timestamps other than `created_at`.
- A waiting statement that never ends: the waiting process simply takes no further step, or fails.
- The two reads of a replay (payment, then order) count as one step; neither row can disappear.
- The claim query counts as one step at a moment at which its locks are free.
- A poll that fetches several records at once: records are handed over one by one.
- Redis evicting keys or losing writes, and a Redis call that takes effect although it reports an error.
- The time Redis counts from is the time the caller sampled.
- The Retry-After header, which is cut to whole seconds; the results are about the limiter's own value.
- Publisher.Cluster.Run: the endless loop is cut after a number of rounds, and its ticker is not modelled.
- Consumer.Group.Run: the endless loop is cut after a number of polls.
- Consumer.Group.Handle: a failed call ends the process at once, where the program unwinds through Run and Close.
- OutboxOrder.OvertakenOnlyAfterFailure: says nothing about several publishers, for which it is false.
- RateLimiter.AllowedInAnyStretch: twice the limit is not claimed for windows that are not aligned with the second, for which AllowedInAnyStretchAtAll gives four times.
- OrderService.Service.CommitTx: a commit that the server applies only after its caller has given up and released its locks is not modelled.
- LockedOrder.TimelyIncreasing: ties of `created_at` are excluded, because the claim query leaves their order open.
