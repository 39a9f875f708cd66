# Payment gateway: a verified model

The gateway creates payments through a provider (Stripe), stores them in memory or in
PostgreSQL, applies the provider's webhooks to them, publishes a `payment.*` event for every
change, consumes those events from Kafka with retries and a dead-letter topic, and limits
requests per IP. This project models those parts in Dafny and proves what they guarantee over
whole runs. `dafny verify dfyconfig.toml` checks all of it.

Code that works step by step keeps that form: payments, the repositories, the service, the
consumer, the dead-letter publisher, the rate limiter and the handlers are classes whose
methods change their fields, with the source's loops. Each method is proved equal to a
specification function on values (`Service.Create`, `Service.Process`, `Consumer.Run`,
`RateLimiter.Serve`, ...), and the theorems are about those functions.
The two repositories share the class `Storage.Repository`, whose `inMemory` flag stands for Go's
dispatch on the repository interface; only the in-memory one hands out its own objects.

## Main results

- **Serial runs of the service** (`SerialRuns`, `TableRuns`, `Money`, `Delivery`,
  `TableDelivery`, `Creation`, `Requests`, `Announcements`). After any sequence of
  `CreatePayment` and `ProcessEvent` calls the published events of each payment are
  `payment.created` followed by at most one terminal event, and replaying the log rebuilds
  exactly the stored statuses, over either repository and with any outages. Stored and announced
  money are equal in every currency, and in memory so is charged money. The first event that
  reaches a payment fixes its status; replayed events change nothing and are answered as before.
  Although `ProcessEvent` mutates the very object in the in-memory map, a call that fails leaves
  every stored field as it was.
- **Two repositories** (`Refinement`). The PostgreSQL upsert and the map of shared objects give
  the same answers on every serial run in which references stay unique and amounts fit; on a
  single call they agree if and only if the in-memory result could be stored in the table.
- **Concurrent calls** (`Interleaving`, `InterleavedKeys`, `InterleavedSettling`,
  `InterleavedCharges`, `InterleavedEvents`, `Uninterrupted`). Calls are cut into their database,
  provider and publisher steps and interleave in any way. At most one row per idempotency key,
  histories that are pending and then only terminal, losers that leave no row and no event,
  retries that get the winner, and every status a row was given announced once. A settled status
  can be overwritten and a key can be charged twice: for each, a run from the empty system, the
  exact condition, and the discipline that rules it out. A call taken without interruption is the
  serial call.
- **Kafka consumer** (`ConsumerRuns`). Every fetched message gets one disposition and then one
  commit attempt; events are conserved whatever fails; a replay of the dead-letter topic
  completes a reliable run; and a message is lost if and only if a wait is cut short or the write
  it needs fails, and its offset, or a later one of its partition, is recorded all the same.
- **Rate limiter** (`RateLimiterRuns`). Evicting idle clients is invisible on every run, and
  every window admits at most b + r·T requests of one IP, if and only if r·TTL ≥ b.
- **Webhooks and create requests** (`StripeSignature`, `Decimals`, `WebhookOutcomes`,
  `WebhookPayments`, `CreateOutcomes`). Header round trip, exact acceptance condition, unambiguous
  signed bytes, the exact meaning of every status code over both repositories, and the way of a
  payment from the id sent to the provider to the webhook that settles it.
- **Listing** (`Listing`). Whatever the map order, the newest of the payments asked for.

## Assumptions

- Generated ids are new; the clock never goes back; the set of currencies is fixed, and for
  serial runs over the table its codes have three letters.
- No text contains U+0000, which PostgreSQL refuses.
- Amounts are whole cents. Times are nanoseconds, and PostgreSQL keeps microseconds.
- `strings.ToUpper`, HMAC, JSON decoding, the event handler, the clock, generated ids, provider
  replies and outages are parameters. So is the order in which a Go map is ranged over.
- `rate.Limiter` is modelled by its contract: it starts full, refills at rate r up to b, `Allow`
  takes one token, and a refusal leaves the bucket as it was.
- The messages of a partition are fetched in the order of their offsets, where a result says so.
  A commit counts when the broker records it, whatever the call returns: on a context that is
  already done it may or may not.
- The event log holds what is handed to the publisher, whose errors the service ignores.

## Where the code and its documentation differ

The model follows the code.

- `docs/DLQ.md` says that events are never lost. `ConsumerRuns.EventLostIff` gives the exact
  condition under which one is, for every message of every run: the code tries to commit the
  offset even when the dead-letter write failed or the wait was cut short, and a later commit of
  the partition passes the message as well.
- `docs/DLQ.md` gives the backoff as 500 ms × attempt². The code counts attempts from 0, so the
  waits are 0, 500 and 2000 ms.
- `docs/openapi.md` promises retries without duplicate charges. The gateway itself keeps that
  promise for serial calls over the in-memory store. A create whose payment was charged and then
  not saved is charged again on retry (`Creation.RefusedSaveChargesTwice`, and exactly when:
  `Creation.RetryCallsProviderIff`), and so are two creates with one key that overlap
  (`InterleavedCharges.ConcurrentCreatesChargeTwice`, and exactly when:
  `InterleavedCharges.KeyChargedTwiceIff`). The provider is sent the same key each time.
- `docs/stripe-demo.md` says that replayed webhooks return 200. A replay is answered as the first
  delivery was (`Delivery.RedeliveryAnswersTheSame`), so a webhook that got 409 gets 409 again
  (`WebhookOutcomes.ConflictIsAnsweredAgain`).
- `internal/storage/postgres/payment.go` calls itself a stub that is not wired; `cmd/api/main.go`
  (lines 62-67) wires it. Migration 001 describes amounts in cents, 002 turns them into
  NUMERIC(10,2).
- The handler's card token never reaches the provider (`Requests.CreateRequests`): `NewPayment`
  leaves the payment method empty before the provider is called.

## Model

| member | source | states |
|---|---|---|
| `RateLimiter.Limiter.Allow` | internal/transport/http/middleware/rate_limit.go:88 | takes a token exactly when a whole one has refilled; a refusal changes nothing |
| `RateLimiter.IPRateLimiter.GetLimiter` | internal/transport/http/middleware/rate_limit.go:67-79 | one bucket per IP, full when first seen; the client is marked as seen and no other client changes |
| `RateLimiter.IPRateLimiter.AllowKnown` | internal/transport/http/middleware/rate_limit.go:88 | taking a token changes the bucket of this client and no other |
| `RateLimiter.IPRateLimiter.Admit` | internal/transport/http/middleware/rate_limit.go:81-98 | the decision for one request and the whole new memory of the limiter |
| `RateLimiter.IPRateLimiter.Cleanup` | internal/transport/http/middleware/rate_limit.go:57-63 | exactly the clients idle for strictly longer than the TTL are forgotten |
| `RateLimiter.IPRateLimiter.GetIPCount` | internal/transport/http/middleware/rate_limit.go:100-104 | the number of remembered clients |
| `RateLimiterRuns.IdleMeansFull` | internal/transport/http/middleware/rate_limit.go:59 | a bucket idle for longer than the TTL has refilled to the burst size when r·TTL ≥ b |
| `RateLimiterRuns.SimulationServes` | internal/transport/http/middleware/rate_limit.go:67-98 | serving a request gives the answer of the limiter that never forgets, and keeps the two in step |
| `RateLimiterRuns.SimulationSweeps` | internal/transport/http/middleware/rate_limit.go:49-65 | a sweep keeps the two in step |
| `RateLimiterRuns.EvictionChangesNoAnswer` | internal/transport/http/middleware/rate_limit.go:49-98 | when r·TTL ≥ b, every interleaving of requests and sweeps gets the answers of a limiter that never evicts |
| `RateLimiterRuns.EvictionRefillsEarly` | internal/transport/http/middleware/rate_limit.go:57-63 | when r·TTL < b, a concrete run on which eviction changes an answer |
| `RateLimiterRuns.EvictionInvisibleIffRefilled` | internal/transport/http/middleware/rate_limit.go:49-98 | eviction is invisible on every run if and only if r·TTL ≥ b |
| `RateLimiterRuns.AdmissionsArePaidFor` | internal/transport/http/middleware/rate_limit.go:67-98 | admissions never exceed the tokens held at the start plus those refilled since |
| `RateLimiterRuns.WindowBound` | internal/transport/http/middleware/rate_limit.go:57-98 | in any stretch of length T of any run one IP is admitted at most b + r·T times, even if forgotten inside |
| `RateLimiterRuns.WindowsBoundedIffRefilled` | internal/transport/http/middleware/rate_limit.go:57-98 | that bound holds for all stretches of all runs if and only if r·TTL ≥ b |
| `RateLimiterRuns.RecentClientsRemembered` | internal/transport/http/middleware/rate_limit.go:57-78 | an IP seen within the last TTL is never missing from the map |
| `RateLimiterRuns.SweepKeepsExactlyRecent` | internal/transport/http/middleware/rate_limit.go:57-78 | after a sweep the map holds exactly the IPs that made a request within the last TTL |
| `Consumer.DLQPublisher.Send` | internal/platform/events/dlq.go:47-80 | one write of an envelope with the event, its origin, the retry count and the reason |
| `Consumer.KafkaConsumer.RouteToDLQ` | internal/platform/events/consumer.go:109-118 | the event is dead-lettered, or reported as lost without a publisher or when the write fails |
| `Consumer.KafkaConsumer.ProcessWithRetry` | internal/platform/events/consumer.go:71-107 | the retry loop, for any budget: its outcome and every counter |
| `Consumer.KafkaConsumer.CommitMessages` | internal/platform/events/consumer.go:65 | one attempt to commit, whatever the outcome |
| `Consumer.KafkaConsumer.Consume` | internal/platform/events/consumer.go:37-67 | the whole effect of the fetch loop over any sequence of fetch results |
| `ConsumerRuns.RetryDecides` | internal/platform/events/consumer.go:71-107 | exactly one attempt decides the loop, and the result is what that attempt says |
| `ConsumerRuns.TotalBackoffClosedForm` | internal/platform/events/consumer.go:88-101 | the total wait after k failures is 500·(k−1)k(2k−1)/6 ms |
| `ConsumerRuns.RetryCosts` | internal/platform/events/consumer.go:73-103 | at most n + 1 handler calls and the sum-of-squares backoff; one retry counted per call but the last |
| `ConsumerRuns.RetryCountIsHonest` | internal/platform/events/consumer.go:83-106 | an envelope carries the event, its origin, the last reason and the time; its retry count is n exactly when all n + 1 attempts failed transiently, else 0 |
| `ConsumerRuns.SourceBudget` | internal/platform/events/dlq.go:13 | with three retries: at most four calls and 2500 ms |
| `ConsumerRuns.FourthCallIsMade` | internal/platform/events/consumer.go:73-106 | after three transient failures the fourth call is made, with 2500 ms waited, and decides |
| `ConsumerRuns.MalformedIsDeadLettered` | internal/platform/events/consumer.go:49-55 | a message that does not decode is dead-lettered at once with retry count 0, the partial event and the decoder's complaint |
| `ConsumerRuns.RunHandlesMessages` | internal/platform/events/consumer.go:39-66 | failed fetches are skipped, and the first shutdown ends the run |
| `ConsumerRuns.OneFateEach` | internal/platform/events/consumer.go:49-65 | every fetched message gets exactly one disposition, in order |
| `ConsumerRuns.JournalTellsFates` | internal/platform/events/consumer.go:49-65 | the journal is the dispositions in order, each followed by one commit attempt, and nothing else |
| `ConsumerRuns.RunLedger` | internal/platform/events/consumer.go:37-67 | in every run the i-th message is disposed of and then its offset, and no other, is committed once |
| `ConsumerRuns.HandledTellsFates` | internal/platform/events/consumer.go:57-65 | the events handled in a run are those of the messages disposed of as handled |
| `ConsumerRuns.DlqTellsFates` | internal/platform/events/consumer.go:50-65 | the originals in the dead-letter topic are the events of the messages disposed of as dead-lettered |
| `ConsumerRuns.RetriesAreCounted` | internal/platform/events/consumer.go:88-89 | retries plus decoded events equal handler calls plus abandoned events over a run |
| `ConsumerRuns.RunConservesEvents` | internal/platform/events/consumer.go:37-118 | in every run, whatever fails, the fetched events are as a multiset those handled, those in the dead-letter topic and those of messages that ended nowhere |
| `ConsumerRuns.ReliableRunAccountsForAll` | internal/platform/events/consumer.go:37-118 | if every dead-letter write and every wait of the run succeeded, every event is handled or dead-lettered exactly once |
| `ConsumerRuns.UncancelledRetriesAreCounted` | internal/platform/events/consumer.go:88-101 | if no wait of a run was cut short, retries are handler calls minus decoded events, whatever becomes of the dead-letter writes |
| `ConsumerRuns.ReplayCompletes` | docs/DLQ.md:87-95 | replaying the dead-letter topic of such a run to a successful handler handles every event exactly once |
| `ConsumerRuns.EventLostIff` | internal/platform/events/consumer.go:50-65 | message i of any run is lost (ended nowhere, and the broker's offset past it) if and only if a wait was cut short or a dead-letter write it needed failed, and its commit or a later one of its partition is recorded |
| `ConsumerRuns.MessageLostIff` | internal/platform/events/consumer.go:50-65 | the same for messages in any order: the last commit recorded for the partition is at the message's offset or beyond |
| `ConsumerRuns.RunLosesNothingIff` | docs/DLQ.md:107 | a run loses nothing if and only if no commit is recorded for a message that fails, nor for a later one of its partition |
| `ConsumerRuns.CancellationLosesAnEvent` | internal/platform/events/consumer.go:97-99 | a concrete run whose recorded offset is past an event that was neither handled nor dead-lettered |
| `Entity.Payment.Assign` | internal/application/payment/service.go:54 | overwrites every field of the payment |
| `Entity.Payment.CanTransitionTo` | internal/domain/payment/entity.go:152-163 | true exactly for the transitions of the table |
| `Entity.Payment.Transition` | internal/domain/payment/entity.go:166-176 | changes status and time exactly when legal, else nothing |
| `Entity.Payment.Cancel` | internal/domain/payment/entity.go:179-181 | succeeds exactly from pending and processing |
| `Entity.TerminalIffStuck` | internal/domain/payment/entity.go:146-149 | the terminal statuses are exactly those without a way out |
| `Entity.PathsMoveForward` | internal/domain/payment/entity.go:146-149 | no path of transitions returns to a status; completed and failed are reached only through processing |
| `Storage.FindFinds` | internal/storage/inmemory/payment.go:52-67 | a lookup finds a payment with the value if there is one, in whatever order the map is visited |
| `Storage.Repository.Save` | internal/storage/postgres/payment.go:172-206 | the map keeps the pointer; the table updates three columns or inserts, or refuses and changes nothing |
| `Storage.Repository.Load` | internal/storage/postgres/payment.go:246-290 | the stored pointer itself in memory, a new object filled from the row in PostgreSQL |
| `Storage.Repository.GetByID` | internal/storage/inmemory/payment.go:37-50 | the payment, a missing-payment error, or a query error, each exactly when due |
| `Storage.Repository.Scanned` | internal/storage/inmemory/payment.go:102-120 | the loop stops at the first match in visiting order |
| `Storage.Repository.GetByIdempotencyKey` | internal/storage/postgres/payment.go:217-232 | a key that nobody has is not an error |
| `Storage.Repository.GetByProviderRef` | internal/storage/postgres/payment.go:234-243 | the payment with the reference, or a missing-payment error |
| `Listing.ExchangeIfNewer` | internal/storage/inmemory/payment.go:90-92 | one step of the exchange sort, on shared pointers |
| `Listing.Exchange` | internal/storage/inmemory/payment.go:91 | two pointers change places |
| `Listing.BringNewest` | internal/storage/inmemory/payment.go:89-93 | the inner loop brings the newest of the rest to its place and keeps what is sorted |
| `Listing.SortNewestFirst` | internal/storage/inmemory/payment.go:87-94 | the exchange sort permutes the pointers and orders them newest first |
| `Listing.CopyMatches` | internal/storage/inmemory/payment.go:78-85 | new copies of exactly the matching payments |
| `Listing.Ranged` | internal/storage/inmemory/payment.go:79 | the map's own pointers, each once, in the order visited |
| `Listing.ListPayments` | internal/storage/inmemory/payment.go:69-100 | over the map of the repository, visited in any order: new objects, each a stored payment with the status asked for by name, each once, newest first, min(limit, number of those) of them with 50 as default, and none missing that is newer than one returned |
| `Listing.MatchesAgree` | internal/storage/inmemory/payment.go:79-85 | any two orders of the map give the same matches as a multiset |
| `Listing.ListingTimesAgree` | internal/storage/inmemory/payment.go:69-100 | two listings of one store, visited in any two orders, have the same creation times position by position |
| `Listing.ListingIsUnique` | internal/storage/inmemory/payment.go:69-100 | and they are equal when creation times differ |
| `Listing.WantedIffAsked` | internal/storage/inmemory/payment.go:80 | a payment is skipped exactly when a status is asked for by name and it has another |
| `Listing.ListingLists` | internal/storage/inmemory/payment.go:69-100 | whatever is filtered, sorted and cut as the source does lists the store as described for `ListPayments` |
| `Listing.ListsByName` | internal/storage/inmemory/payment.go:78-98 | by "completed" only completed payments are listed, and so on; without a status and with room every stored payment is |
| `Service.PaymentService.PublishEvent` | internal/application/payment/service.go:108-119 | one event with the payment's values and status |
| `Service.PaymentService.FindExisting` | internal/application/payment/service.go:48-57 | an empty key and an outage both count as unused |
| `Service.PaymentService.ChargePayment` | internal/application/payment/service.go:76-105 | one provider call; only a charged payment is saved, and only a saved one is announced |
| `Service.PaymentService.StorePayment` | internal/application/payment/service.go:101-105 | a payment that cannot be saved is not announced |
| `Service.PaymentService.CreateNewPayment` | internal/application/payment/service.go:59-105 | a request the domain rejects never reaches the provider, and the caller's payment stays as it was |
| `Service.PaymentService.CreatePayment` | internal/application/payment/service.go:46-106 | the store, log, provider calls, the caller's payment and the error after the call, over either repository |
| `Service.PaymentService.ResolveEvent` | internal/application/payment/service.go:133-145 | by id, else by provider reference; the store's own object in memory |
| `Service.PaymentService.Advance` | internal/application/payment/service.go:171-181 | the pending-processing bridge and the final transition both happen or neither does |
| `Service.PaymentService.Change` | internal/application/payment/service.go:171-186 | with the object shared with the store, an error leaves every stored field as it was |
| `Service.PaymentService.SaveSettled` | internal/application/payment/service.go:191-195 | the new status is announced exactly when it has been saved |
| `Service.PaymentService.SettleEvent` | internal/application/payment/service.go:170-195 | transition, reference, save and announcement, or nothing |
| `Service.PaymentService.ApplyEvent` | internal/application/payment/service.go:152-195 | unknown types are errors, a status already reached is a success without effect |
| `Service.PaymentService.ProcessEvent` | internal/application/payment/service.go:132-196 | the store, log and error after the call, over either repository |
| `Service.PaymentService.GetPayment` | internal/application/payment/service.go:121-126 | the stored payment, or the lookup error |
| `Announcements.TypesNameStatuses` | internal/application/payment/service.go:153-163 | the known event types are three literals, each "payment." and the name of the status it asks for |
| `Announcements.ProcessAnnounces` | internal/application/payment/service.go:108-195 | whatever an event call changes, it publishes one event of the type delivered, which is "payment." and its status, with the payment's id, amount and currency, the provider, the new event id and the time |
| `Announcements.ProcessSettles` | internal/application/payment/service.go:165-191 | the settled payment takes the named status, the event's reference if it has one, and the time; nothing else changes |
| `Announcements.ProcessSettlesRow` | internal/storage/postgres/payment.go:177-180 | the same over the table, with the time cut to the microsecond |
| `Announcements.UnknownTypeIsRefused` | internal/application/payment/service.go:160-163 | an event of any other type changes nothing, and is refused by its type if it resolves to a payment |
| `Announcements.CreateAnnounces` | internal/application/payment/service.go:101-118 | a create publishes one `payment.created` with status "pending" and the new payment's values |
| `Announcements.LastEventIsFirstResolved` | internal/application/payment/service.go:133-195 | after a serial run in memory the last event about a payment has the type of the first event resolved to it, or is `payment.created` |
| `Announcements.LastEventIsFirstSaved` | internal/application/payment/service.go:133-195 | after a serial run over the table, with any outages, it has the type of the first event applied and saved |
| `Requests.CreateRequests` | internal/application/payment/service.go:76-92 | the one call of a create carries the new id, the request's amount, upper-cased currency, description, customer and key, and no payment method |
| `Requests.ChargedRequestsMatchPayments` | internal/application/payment/service.go:76-105 | over serial runs in memory each charged request names exactly one stored payment and agrees with it, and each payment created is named by exactly one |
| `SerialRuns.CreateChanges` | internal/application/payment/service.go:46-106 | a create does nothing, records a refusal, or adds one pending payment with one charge and one event |
| `SerialRuns.EventChanges` | internal/application/payment/service.go:132-196 | an event call does nothing, or settles the payment it resolves to and announces that |
| `SerialRuns.CallKeepsGood` | internal/application/payment/service.go:46-196 | each call keeps unique keys, timestamp order, the per-payment history and the replay of the log |
| `SerialRuns.RunKeepsGood` | internal/application/payment/service.go:101-195 | after every serial run the log of each payment is `payment.created` and at most one terminal event, and its replay is the stored statuses |
| `Money.StoredUpdate` | internal/storage/inmemory/payment.go:29-35 | a save changes the stored sum by the new amount less the replaced one |
| `Money.StoredByStatus` | internal/domain/payment/entity.go:12-19 | the stored sum is the sum over the five statuses |
| `Money.MoneyIsConserved` | internal/application/payment/service.go:59-118 | after every serial run stored, announced and charged sums are equal in every currency |
| `Money.EmptyIsBalanced` | internal/storage/inmemory/payment.go:19-27 | the empty store satisfies all the invariants |
| `TableRuns.CallWrites` | internal/application/payment/service.go:46-196 | over the table, with any outage, a call writes and announces nothing, or one new pending payment, or one settled payment |
| `TableRuns.RunKeepsTable` | internal/application/payment/service.go:101-195 | after every serial run over the table, whatever is refused, the history of each payment and the replay of the log are as over the in-memory store |
| `TableRuns.MoneyIsConserved` | internal/storage/postgres/payment.go:172-206 | and stored and announced sums are equal in every currency |
| `TableRuns.ChargesAreAccountedFor` | internal/application/payment/service.go:88-105 | over any serial run and either repository, charged money is announced money and what was charged for payments whose save then failed |
| `TableRuns.ChargedIsStoredOrInVain` | internal/storage/postgres/payment.go:172-206 | from the empty table, with any outages, charged money is stored money and what was charged in vain |
| `TableRuns.EmptyTableIsGood` | internal/storage/postgres/migrations/001_create_payments.sql:6-34 | the empty table satisfies the invariants |
| `Delivery.PaymentsEvolve` | internal/domain/payment/entity.go:166-221 | over any run only status, reference and update time of a payment can change, and nothing once it is terminal |
| `Delivery.EventChangesIff` | internal/application/payment/service.go:132-196 | an event changes something if and only if its type is known and it resolves to a pending payment; an error changes nothing |
| `Delivery.DeliveryChangesNothingIff` | internal/application/payment/service.go:132-168 | delivering a known event changes nothing, in whatever map order, if and only if the payment it names is settled or no pending one has its reference |
| `Delivery.DeliverySettles` | internal/application/payment/service.go:165-195 | an event resolved to a payment leaves it terminal |
| `Delivery.RedeliveryChangesNothing` | internal/application/payment/service.go:133-195 | an event already resolved, delivered again after any further run, changes neither store nor log |
| `Delivery.RedeliveryAnswersTheSame` | docs/stripe-demo.md:106 | and it gets the answer it got the first time |
| `Delivery.EventSettlesIff` | internal/application/payment/service.go:132-196 | a pending payment is settled by an event resolved to it and by nothing else |
| `Delivery.FirstWriterWins` | internal/application/payment/service.go:133-195 | the final status of a payment is that of the first event resolved to it; only a payment never stored and never resolved to can be missing |
| `TableDelivery.RowsEvolve` | internal/storage/postgres/payment.go:177-180 | over the table, with any outages, no row is removed and only status, reference and update time change, nothing once terminal |
| `TableDelivery.EventChangesIff` | internal/application/payment/service.go:132-196 | over the table an event changes something if and only if its type is known, it resolves to a pending payment and the save is accepted; an error changes nothing |
| `TableDelivery.FirstSavedWins` | internal/application/payment/service.go:133-195 | over the table, with any outages, the final status of a payment is that of the first event applied to it and saved |
| `TableDelivery.RedeliveryChangesNothing` | internal/application/payment/service.go:133-195 | over the table an event that was answered, other than by a refused save, changes nothing when delivered again after any further run |
| `Creation.NoDoubleCharge` | internal/application/payment/service.go:46-106 | over any serial run over the in-memory store no non-empty key is charged twice |
| `CreateOutcomes.CustomerIDs` | internal/domain/payment/entity.go:55-64 | a customer id is "cust_" and at least one character more |
| `CreateOutcomes.ObjectionsInOrder` | internal/domain/payment/entity.go:184-207 | what the domain accepts, and its objections, in the order amount, currency, customer, description |
| `CreateOutcomes.CreateRequestOutcome` | internal/transport/http/handlers/payment.go:31-63 | in memory: 201, 400 and 500 of a create request, each exactly when; only a 201 stores or announces |
| `CreateOutcomes.CreatedPaymentIsStored` | internal/transport/http/handlers/payment.go:31-63 | a request answered 201 under an unused key stores a pending payment with its values; the card token goes nowhere |
| `CreateOutcomes.CreatedPaymentIsListed` | internal/storage/inmemory/payment.go:69-100 | and an unfiltered listing with room returns it |
| `CreateOutcomes.CreateRequestOverTable` | internal/transport/http/handlers/payment.go:31-63 | over the table, for an unused key: 201, 400 and 500, each exactly when, with any outage |
| `CreateOutcomes.StoredKeyOverTable` | internal/application/payment/service.go:48-57 | over the table a stored key gives the stored payment if its lookup is answered; otherwise the create goes on to the provider |
| `Creation.CreateStores` | internal/application/payment/service.go:53-105 | a successful create hands the caller exactly what is stored under its key |
| `Creation.CreateSucceedsIff` | internal/domain/payment/entity.go:184-221 | success if and only if the key is in use, or the request is acceptable and charged; a new payment has the request's values |
| `Creation.StoredKeyWins` | docs/payment-creation-verification.md:76 | a stored key returns the stored payment whatever the other fields say, and changes nothing |
| `Creation.CreateIsIdempotent` | internal/application/payment/service.go:47-57 | after any further run a create with the same key returns the same payment and changes nothing |
| `Creation.FailedCreateStoresNothing` | internal/application/payment/service.go:69-103 | a failed create changes neither store nor log and calls the provider at most once |
| `Creation.ChargedCreateStoresOrFails` | internal/application/payment/service.go:88-104 | over either repository, a charged create stores its key, or fails and leaves the store as it was |
| `Creation.RetryCallsProviderIff` | docs/openapi.md:24 | over either repository, after a create that charged and any further serial run, a retry reaches the provider if and only if it is acceptable and the lookup fails now, or the first save failed and no create with the key has succeeded since |
| `Creation.KeyStoredIffCreated` | internal/application/payment/service.go:46-106 | over either repository a key is stored after a run if and only if it was before or a create with it succeeded |
| `Creation.MemoryRetryIsSafe` | docs/openapi.md:24 | over the in-memory store, after any further serial run, a retry never does |
| `Creation.RefusedSaveChargesTwice` | internal/application/payment/service.go:101-103 | from the empty table, two creates one after the other with one key, both charged because the first save was not answered |
| `Refinement.GetAgrees` | internal/storage/postgres/payment.go:208-215 | a payment read from the table is the one in the map with times cut to the microsecond, its currency padded and its payment method dropped; only times differ for a storable one |
| `Refinement.FindAgrees` | internal/storage/postgres/payment.go:217-243 | lookups by a non-empty value find the same payment in both stores |
| `Refinement.NewPaymentIsSavedIff` | internal/storage/postgres/migrations/001_create_payments.sql:6-28 | a new payment is saved if and only if its amount is 0.01 to 99,999,999.99, its currency has at most three letters, and its key and reference are unused |
| `Refinement.StoredPaymentIsSavedIff` | internal/storage/postgres/payment.go:173-181 | a stored one is updated if and only if its copy fits and no other row has its reference |
| `Refinement.MicrosCut` | internal/storage/postgres/payment.go:197-198 | timestamps are cut down to the microsecond |
| `Refinement.PaddedWithSpaces` | internal/storage/postgres/migrations/001_create_payments.sql:21 | CHAR(3) pads a currency with spaces at the end |
| `Refinement.UpsertIffStorable` | internal/storage/postgres/payment.go:172-206 | the database accepts a save if and only if the resulting map respects uniqueness and column sizes |
| `Refinement.UpsertRepresents` | internal/storage/postgres/payment.go:173-181 | after the partial upsert the rows still represent the map, although only three columns were written |
| `Refinement.CallAgreesIff` | internal/storage/postgres/payment.go:172-206 | the two repositories answer a call alike if and only if the in-memory result is storable; otherwise the database keeps what it had |
| `Refinement.RunsAgree` | internal/storage/inmemory/payment.go:29-67 | on every serial run that stays storable, equal answers and corresponding states |
| `Refinement.RowsCanBeRead` | internal/storage/postgres/payment.go:279-281 | no row that represents a serial in-memory store makes the value objects panic when it is read |
| `Interleaving.UpsertKeepsUnique` | internal/storage/postgres/migrations/001_create_payments.sql:12-28 | an accepted upsert keeps keys and references unique and changes one row |
| `Interleaving.StepKeepsInv` | internal/application/payment/service.go:46-196 | every step of every call keeps the invariant |
| `Interleaving.InterleavingsKeepInv` | internal/application/payment/service.go:46-196 | over all interleavings: one row per key and reference, histories pending and then terminal only, every row readable, nothing announced that is not stored |
| `Interleaving.RowsStayReadable` | internal/storage/postgres/payment.go:279-281 | over all interleavings from the empty system no row makes them panic |
| `Interleaving.InterleavingsPersist` | internal/storage/postgres/payment.go:177-180 | over all interleavings rows stay, identifying columns never change, and the log and the charges only grow |
| `InterleavedKeys.LoserLeavesNoTrace` | internal/storage/postgres/migrations/001_create_payments.sql:28 | a create that saves its key second fails, changes no row and publishes nothing |
| `InterleavedKeys.RetryGetsWinner` | internal/application/payment/service.go:48-56 | a later create with the key gets the winner, and nothing changes |
| `InterleavedKeys.WinnerStaysWinner` | internal/storage/postgres/migrations/001_create_payments.sql:26-28 | after any further interleaving the loser's id has no row and no event, and a retry gets the winner |
| `InterleavedKeys.SuccessfulCreatesAgree` | internal/application/payment/service.go:46-106 | all calls that succeeded with one key were given the same payment |
| `Uninterrupted.CreateAloneIsSerial` | internal/application/payment/service.go:46-106 | the steps of a create without interruption are the serial `CreatePayment`, with its answer |
| `Uninterrupted.EventAloneIsSerial` | internal/application/payment/service.go:132-196 | the steps of an event call without interruption are the serial `ProcessEvent` |
| `InterleavedSettling.SettledStatusChangesIff` | internal/storage/postgres/payment.go:177-180 | a step overwrites a terminal status if and only if it saves a copy read earlier with another status and the database accepts it |
| `InterleavedSettling.SettledTwiceIff` | internal/application/payment/service.go:165-190 | over any interleaving a payment gets more than one terminal status if and only if two event calls overlap on it, one holding a copy read before the other saves, and both saves are accepted |
| `InterleavedSettling.NeverOverlapSettlesOnce` | internal/application/payment/service.go:165-190 | if no two event calls for a payment overlap between the read and the save, it is pending and then gets at most one terminal status |
| `InterleavedSettling.SettledStatusIsOverwritten` | internal/application/payment/service.go:165-190 | moves from the empty system after which a payment has been pending, completed and then failed |
| `InterleavedCharges.KeyChargedTwiceIff` | internal/application/payment/service.go:46-105 | over any interleaving a key is charged more than once if and only if some create passes the lookup of the key and is charged although the key was charged before, or another call that passed the lookup is still to be charged |
| `InterleavedCharges.LookupPassesIff` | internal/application/payment/service.go:48-57 | a create passes the lookup if and only if its request is acceptable and the key is in no row, or the query fails |
| `InterleavedCharges.GuardedKeyChargedOnce` | docs/openapi.md:24 | over any interleaving a key is charged at most once, provided that no create passes its lookup while another call with it is in flight, no lookup of it is down and every save of it is accepted |
| `InterleavedCharges.ConcurrentCreatesChargeTwice` | internal/application/payment/service.go:48-88 | moves from the empty system, without outage or refusal, after which one key has been charged twice |
| `InterleavedRequests.ChargedRequestsMatchRows` | internal/application/payment/service.go:76-105 | over any interleaving every row was charged for by exactly one request, which names it and agrees with it; no two charged requests name the same payment |
| `InterleavedEvents.EveryStatusIsTold` | internal/application/payment/service.go:101-118 | over any interleaving, for each payment and status, the events in the log and the calls about to publish one are as many as the times the row was given it |
| `InterleavedEvents.QuietSystemHasToldAll` | internal/application/payment/service.go:101-195 | when no call is about to publish, the log has announced exactly the histories of the rows, and the creation of each once |
| `Text.SplitJoin` | internal/provider/stripe/webhook.go:27 | splitting what was joined gives the parts back |
| `Text.JoinSplit` | internal/provider/stripe/webhook.go:27 | joining what was split gives the string back |
| `Text.TrimSpacePadded` | internal/provider/stripe/webhook.go:33-34 | trimming removes exactly the padding |
| `Text.HexDecodesIff` | internal/provider/stripe/webhook.go:65 | a string decodes to some bytes if and only if in lower case it is their encoding |
| `Decimals.RenderedPassesIff` | internal/provider/stripe/webhook.go:51 | the decimal rendering of n passes the integer check if and only if -2^63 <= n < 2^63 |
| `Decimals.SignedDecimalPassesIff` | internal/provider/stripe/webhook.go:51 | a leading sign and leading zeros do not matter |
| `Decimals.PassesOnlyDecimals` | internal/provider/stripe/webhook.go:51 | nothing else passes |
| `Decimals.SignedHeaderIsAccepted` | internal/provider/stripe/webhook.go:24-74 | a header with such a timestamp and the hex of the MAC of timestamp, dot and payload is accepted, with or without a space after the comma |
| `Decimals.RenderedHeaderIsAccepted` | internal/provider/stripe/webhook.go:24-74 | so is the header of every integer that fits 64 bits |
| `Decimals.HexVectors` | internal/provider/stripe/webhook.go:65 | test vectors of RFC 4648, section 10 |
| `StripeSignature.VerifySignature` | internal/provider/stripe/webhook.go:19-75 | the verdict of the two loops, with every error in the source's order |
| `StripeSignature.ParseRender` | internal/provider/stripe/webhook.go:24-41 | fields with any padding, mixed with unknown ones, parse back to the last timestamp and all signatures in order |
| `StripeSignature.EveryHeaderIsRendered` | internal/provider/stripe/webhook.go:27-41 | every header is the rendering of some list of fields |
| `StripeSignature.AcceptedIff` | internal/provider/stripe/webhook.go:43-75 | a header is accepted if and only if its timestamp is a 64-bit integer and some signature encodes the MAC of timestamp, dot and payload |
| `StripeSignature.RefusedIff` | internal/provider/stripe/webhook.go:20-53 | each other verdict, exactly when, in the order of the checks |
| `StripeSignature.SignedIsInjective` | internal/provider/stripe/webhook.go:50-56 | no two pairs of timestamp and payload that pass the integer check share signed bytes |
| `StripeSignature.UncheckedTimestampsCollide` | internal/provider/stripe/webhook.go:50-53 | without the integer check two pairs can |
| `Webhook.PaymentHandler.ParseWebhook` | internal/provider/stripe/webhook.go:79-157 | invalid, ignored or a domain event, with the fallback of the payment id to the idempotency key |
| `Webhook.PaymentHandler.HandleWebhook` | internal/transport/http/handlers/payment.go:131-209 | the state and the status code after a webhook |
| `Webhook.PaymentHandler.CreatePayment` | internal/transport/http/handlers/payment.go:31-63 | the state and the status code after a create request; the service is given an object of its own |
| `WebhookOutcomes.ParsedTypesAreKnownTypes` | internal/application/payment/service.go:209-223 | the switch of `ParseWebhook` produces exactly the event types that the switch of `ProcessEvent` knows |
| `WebhookOutcomes.StripeTypesKeepTheirMeaning` | internal/provider/stripe/mapper.go:25-36 | through the adapter's switch and the service's two, a Stripe type is recognised if and only if it has a meaning, and asks for the status it means |
| `WebhookOutcomes.StripeTypeDecidesStatus` | internal/transport/http/handlers/payment.go:155-175 | such a webhook is answered 200 if and only if its payment ends up in the status its Stripe type means |
| `WebhookOutcomes.RecognisedEventsHaveTargets` | internal/application/payment/service.go:199-231 | the unknown-type branch of `ProcessEvent` cannot be reached from a webhook |
| `WebhookOutcomes.RecognisedOutcome` | internal/transport/http/handlers/payment.go:131-209 | 200 if and only if the payment ends in the event's status, 409 if and only if settled otherwise, 404 if and only if unresolved; no other code, and only 200 can change anything |
| `WebhookOutcomes.ConflictHappens` | docs/stripe-demo.md:106 | a webhook that says failed about a completed payment is answered 409 |
| `WebhookOutcomes.ConflictIsAnsweredAgain` | docs/stripe-demo.md:106 | and a webhook answered 409 is answered 409 again on every replay |
| `WebhookOutcomes.OtherOutcomes` | internal/transport/http/handlers/payment.go:138-165 | 401 exactly without a signature, 500 exactly for an unreadable body, 400 exactly for an invalid webhook, 200 for an ignored one; only a recognised one answered 200 changes anything |
| `WebhookOutcomes.OnlyAuthenticWebhooksAct` | internal/provider/stripe/webhook.go:91-101 | with a secret configured, only a webhook with a matching signature changes anything |
| `WebhookPayments.EventNamesMetadata` | internal/provider/stripe/webhook.go:131-155 | an event names the non-empty text under "payment_id", else the one under "idempotency_key", else nothing; its reference is the Stripe object's id |
| `WebhookPayments.StripeHeaderDecides` | internal/transport/http/handlers/payment.go:133-142 | Stripe-Signature counts if present, else X-Webhook-Signature; 401 only without both |
| `WebhookPayments.BodyNeeded` | internal/transport/http/handlers/payment.go:145-150 | 500 for an unreadable body, 400 for an empty one |
| `WebhookPayments.UnverifiedIsRefused` | internal/provider/stripe/webhook.go:83-124 | a webhook that is not verified or not decoded is answered 400; without a secret none needs to be verified |
| `WebhookPayments.WebhookPublishes` | internal/application/payment/service.go:209-222 | whatever a webhook changes, it publishes the literal type of its kind: completed, failed or cancelled |
| `WebhookPayments.PendingIsSettled` | internal/transport/http/handlers/payment.go:131-177 | a pending payment is settled by a verified webhook that carries its id, answered 200 |
| `WebhookPayments.WebhookFindsCreatedPayment` | internal/application/payment/service.go:76-105 | from end to end: the id sent to the provider, carried by a verified webhook after any serial run that leaves the payment pending, settles that payment |
| `WebhookPayments.QueryFailsIff` | internal/application/payment/service.go:133-145 | over the table, when looking up the payment of an event ends in a query error |
| `WebhookPayments.RecognisedOverTable` | internal/transport/http/handlers/payment.go:170-209 | over the table: 200, 404, 409 and 500 of a recognised webhook, each exactly when; only a 200 changes anything |

## Left out

- RateLimiter.IPRateLimiter.Admit: getting the bucket and taking the token are one step, so a sweep between the two, which orphans the bucket, is not modelled; nor are the dropped-request metric and the parsing of the client's address.
- RateLimiter.Limiter.Allow: infinite rates and bursts that change at run time do not occur here and are not modelled.
- Consumer.KafkaConsumer.Consume: the endless loop is a run over any finite sequence of fetch results; the raw bytes of a message that does not decode are not kept, as in the envelope of the source.
- Consumer.DLQPublisher.Send: a failure to marshal the envelope counts as a failed write; the metrics are left out.
- ConsumerRuns.ReplayCompletes: an event that did not decode is replayed as the partly filled event in its envelope, as in the source.
- Creation.NoDoubleCharge: serial runs over the in-memory store; for the table see RetryCallsProviderIff, and for calls that interleave over the table KeyChargedTwiceIff and GuardedKeyChargedOnce.
- Creation.MemoryRetryIsSafe: serial calls; interleaved calls over the in-memory store are not modelled, where overlapping creates can both be charged as over the table.
- Service.PaymentService.CreatePayment: the caller's payment must not be an object of the store, which the handler guarantees; amounts are whole cents, so the conversion from float64 is not modelled.
- Interleaving.InterleavingsKeepInv: single statements are atomic, and only the table is interleaved; with the in-memory store two creates can save one key, since lookup and save are separate critical sections.
- InterleavedKeys.SuccessfulCreatesAgree: it speaks of creates and of event calls that end with a payment of that key; those that fail are free to be retried.
- Refinement.RunsAgree: runs without database outages, since the in-memory store has none; runs with outages are the subject of TableRuns.
- Listing.ListPayments: the PostgreSQL listing, its SQL and its ORDER BY are not modelled.
- Storage.Repository.Save: connections, contexts and the wording of database errors are not modelled.
- The amounts' float64 representation and rounding on the way to the provider and to NUMERIC.
- `MapStripeStatus`, the mock provider and the HTTP client for Stripe: the webhook's status field is never read, and the provider's reply is a parameter.
- `validatedMigrationNames` and schema checks: file-name filtering at start-up.
- `SetSupportedCurrencies`: the set of currencies is a parameter fixed at start-up.
- JSON encoding, routing, CORS, correlation ids, logging, tracing, metrics other than the retry counter, configuration, health checks, deployment files, the front end and the load generator.
