/** From a webhook's metadata to the payment: which payment an event names, which header is
    verified, what is published, and a payment's way from its creation to its webhook.
 */
module WebhookPayments {
  import opened Options
  import opened Events
  import opened Entity
  import opened Storage
  import opened Service
  import opened SerialRuns
  import opened Webhook
  import opened WebhookOutcomes
  import Announcements
  import Creation
  import Delivery
  import Requests
  import TableDelivery
  import TableRuns
  import Stripe = StripeSignature

  // ----- What an event names -----

  /** The metadata holds this text under the key. */
  ghost predicate Holds(metadata: map<string, Meta>, key: string, text: string) {
    key in metadata && metadata[key] == Meta.Text(text)
  }

  /** The metadata holds no text under the key but perhaps an empty one. */
  ghost predicate HoldsNone(metadata: map<string, Meta>, key: string) {
    forall text: string | text != "" :: !Holds(metadata, key, text)
  }

  /** A recognised event names the text under "payment_id" if there is one and it is not
      empty; otherwise the text under "idempotency_key"; otherwise nothing. Its reference is
      the id of the Stripe object. */
  lemma EventNamesMetadata(event: StripeEvent, text: string)
    requires Translate(event).Recognised?
    ensures var e := Translate(event).event;
            && e.transactionID == event.objectID
            && (Holds(event.metadata, "payment_id", text) && text != "" ==> e.paymentID == text)
            && (HoldsNone(event.metadata, "payment_id") && Holds(event.metadata, "idempotency_key", text) ==> e.paymentID == text)
            && (HoldsNone(event.metadata, "payment_id") && HoldsNone(event.metadata, "idempotency_key") ==> e.paymentID == "")
  {
    var id := MetaText(event.metadata, "payment_id");
    assert id != "" ==> Holds(event.metadata, "payment_id", id);
    var key := MetaText(event.metadata, "idempotency_key");
    assert key != "" ==> Holds(event.metadata, "idempotency_key", key);
  }

  // ----- Which header is verified -----

  /** The Stripe-Signature header counts if it is there, whatever the other holds; without it
      X-Webhook-Signature takes its place; and 401 is the answer exactly when both are empty. */
  lemma StripeHeaderDecides(c: Config, stripe: StripeConfig, s: State, header: string, other: string, body: Option<string>, env: EventEnv)
    ensures header != "" ==>
              Receive(c, stripe, s, Request(header, other, body), env) == Receive(c, stripe, s, Request(header, header, body), env)
    ensures Receive(c, stripe, s, Request("", header, body), env) == Receive(c, stripe, s, Request(header, header, body), env)
    ensures Receive(c, stripe, s, Request(header, other, body), env).1 == 401 ==> header == "" && other == ""
    ensures Receive(c, stripe, s, Request("", "", body), env) == (s, 401)
  {
    if SignatureOf(Request(header, other, body)) != "" {
      NoOther401(c, stripe, s, Request(header, other, body), env);
    }
  }

  lemma NoOther401(c: Config, stripe: StripeConfig, s: State, r: Request, env: EventEnv)
    requires SignatureOf(r) != ""
    ensures Receive(c, stripe, s, r, env).1 != 401
  {
  }

  /** A body that cannot be read is answered 500, an empty one 400. */
  lemma BodyNeeded(c: Config, stripe: StripeConfig, s: State, header: string, env: EventEnv)
    requires header != ""
    ensures Receive(c, stripe, s, Request(header, "", None), env) == (s, 500)
    ensures Receive(c, stripe, s, Request(header, "", Some("")), env) == (s, 400)
  {
  }

  /** The webhook is verified: no secret is configured, or its header carries a valid signature. */
  ghost predicate Verified(stripe: StripeConfig, header: string, body: string) {
    header != "" && body != ""
    && (stripe.secret == "" || Stripe.Verify(stripe.mac, body, header, stripe.secret) == Stripe.Accepted)
  }

  lemma VerifiedIsParsed(stripe: StripeConfig, header: string, body: string, event: StripeEvent)
    requires Verified(stripe, header, body) && stripe.decode(body) == Some(event)
    ensures Parse(stripe, body, header) == Translate(event)
  {
  }

  /** A webhook that is not verified, or cannot be decoded, is answered 400 and changes nothing. */
  lemma UnverifiedIsRefused(c: Config, stripe: StripeConfig, s: State, header: string, body: string, env: EventEnv)
    requires header != "" && (!Verified(stripe, header, body) || stripe.decode(body).None?)
    ensures Receive(c, stripe, s, Request(header, "", Some(body)), env) == (s, 400)
  {
  }

  // ----- What is published -----

  /** Whatever a webhook changes, over either repository, it publishes one event: the literal
      "payment.completed" for a success, "payment.failed" for a failure, "payment.cancelled"
      for a cancellation, with the status of that name. */
  lemma WebhookPublishes(c: Config, stripe: StripeConfig, s: State, header: string, body: string, env: EventEnv, event: StripeEvent)
    requires Verified(stripe, header, body) && stripe.decode(body) == Some(event)
    requires Receive(c, stripe, s, Request(header, "", Some(body)), env).0 != s
    ensures var after := Receive(c, stripe, s, Request(header, "", Some(body)), env).0;
            && |after.log| == |s.log| + 1 && after.log[..|s.log|] == s.log
            && var published := after.log[|s.log|];
               && "payment." + published.status == published.eventType
               && (event.kind in {"payment_intent.succeeded", "charge.succeeded"} ==> published.eventType == "payment.completed")
               && (event.kind in {"payment_intent.payment_failed", "charge.failed"} ==> published.eventType == "payment.failed")
               && (event.kind == "payment_intent.canceled" ==> published.eventType == "payment.cancelled")
  {
    VerifiedIsParsed(stripe, header, body, event);
    StripeTypesKeepTheirMeaning(event);
    var e := Translate(event).event;
    RecognisedCode(c, stripe, s, Request(header, "", Some(body)), env, e);
    Announcements.ProcessAnnounces(c, s, e, env);
    Announcements.TypesNameStatuses(e.eventType);
    MeaningOfKinds(event.kind);
  }

  lemma MeaningOfKinds(kind: string)
    ensures kind in {"payment_intent.succeeded", "charge.succeeded"} ==> Meaning(kind) == Some(Completed)
    ensures kind in {"payment_intent.payment_failed", "charge.failed"} ==> Meaning(kind) == Some(Failed)
    ensures kind == "payment_intent.canceled" ==> Meaning(kind) == Some(Cancelled)
  {
  }

  // ----- From the creation to the webhook -----

  /** The id under which a create asked the provider for its payment. */
  function AskedID(before: State, after: State): Option<string> {
    if |after.calls| > |before.calls| then Some(after.calls[|before.calls|].request.paymentID) else None
  }

  lemma CreatedUnderAskedID(c: Config, s: State, clock: int, req: Snapshot, env: CreateEnv)
    requires Good(s, clock) && Sensible(s, clock, CreateCall(req, env))
    requires Create(c, s, req, env).2.None? && Create(c, s, req, env).0.calls != s.calls
    ensures var after := Create(c, s, req, env).0;
            AskedID(s, after) == Some(env.id) && after.store.Memory? && env.id in after.store.payments
  {
    Requests.CreateRequests(c, s, req, env);
    Creation.CreateStores(c, s, clock, req, env);
    assert Create(c, s, req, env).1.id == env.id;
  }

  /** A pending payment is settled by a verified webhook of a known type that carries its id
      under "payment_id": the answer is 200 and the payment has the status the type means. */
  lemma PendingIsSettled(c: Config, stripe: StripeConfig, s: State, clock: int, id: string, header: string, body: string,
                         env: EventEnv, event: StripeEvent)
    requires Good(s, clock) && IsOrder(env.order, s.store) && id != ""
    requires id in s.store.payments && s.store.payments[id].status == Pending
    requires Verified(stripe, header, body) && stripe.decode(body) == Some(event) && Meaning(event.kind).Some?
    requires Holds(event.metadata, "payment_id", id)
    ensures var (after, code) := Receive(c, stripe, s, Request(header, "", Some(body)), env);
            code == 200 && after.store.Memory? && id in after.store.payments && after.store.payments[id].status == Meaning(event.kind).value
  {
    VerifiedIsParsed(stripe, header, body, event);
    StripeTypesKeepTheirMeaning(event);
    EventNamesMetadata(event, id);
    assert Resolve(s.store, Translate(event).event, env) == Resolved(id);
    RecognisedOutcome(c, stripe, s, clock, Request(header, "", Some(body)), env, Translate(event).event);
  }

  lemma NewPaymentHasValues(c: Config, s: State, req: Snapshot, env: CreateEnv)
    requires Create(c, s, req, env).2.None? && Create(c, s, req, env).0.calls != s.calls
    ensures var p := Create(c, s, req, env).1; p.id == env.id && p.amount == req.amount && p.idempotencyKey == req.idempotencyKey
  {
  }

  ghost predicate HasValues(s: State, id: string, amount: int, key: string) {
    && s.store.Memory? && id in s.store.payments
    && s.store.payments[id].amount == amount && s.store.payments[id].idempotencyKey == key
  }

  /** A created payment keeps its values over any run. */
  lemma CreatedKeepsValues(c: Config, s: State, clock: int, req: Snapshot, env: CreateEnv, calls: seq<Call>)
    requires Good(s, clock) && Sensible(s, clock, CreateCall(req, env))
    requires Create(c, s, req, env).2.None? && Create(c, s, req, env).0.calls != s.calls
    requires SensibleRun(c, Create(c, s, req, env).0, env.updated, calls)
    ensures var end := Run(c, Create(c, s, req, env).0, calls);
            Good(end, EndClock(env.updated, calls)) && HasValues(end, env.id, req.amount, req.idempotencyKey)
  {
    var created := Create(c, s, req, env).0;
    assert created == Next(c, s, CreateCall(req, env));
    NewPaymentHasValues(c, s, req, env);
    Creation.CreateStores(c, s, clock, req, env);
    CallKeepsGood(c, s, clock, CreateCall(req, env));
    RunKeepsGood(c, created, env.updated, calls);
    Delivery.PaymentsEvolve(c, created, env.updated, calls, env.id);
  }

  /** And so it does when an event is applied. */
  lemma EventKeepsValues(c: Config, s: State, clock: int, e: DomainEvent, env: EventEnv, id: string, amount: int, key: string)
    requires Good(s, clock) && HasValues(s, id, amount, key)
    ensures HasValues(Process(c, s, e, env).0, id, amount, key)
  {
    if Process(c, s, e, env).0 != s {
      Announcements.ProcessSettles(c, s, e, env);
    }
  }

  lemma PendingIsSettledWithValues(c: Config, stripe: StripeConfig, s: State, clock: int, id: string, header: string, body: string,
                                   env: EventEnv, event: StripeEvent, amount: int, key: string)
    requires Good(s, clock) && IsOrder(env.order, s.store) && id != ""
    requires HasValues(s, id, amount, key) && s.store.payments[id].status == Pending
    requires Verified(stripe, header, body) && stripe.decode(body) == Some(event) && Meaning(event.kind).Some?
    requires Holds(event.metadata, "payment_id", id)
    ensures var (after, code) := Receive(c, stripe, s, Request(header, "", Some(body)), env);
            code == 200 && HasValues(after, id, amount, key) && after.store.payments[id].status == Meaning(event.kind).value
  {
    PendingIsSettled(c, stripe, s, clock, id, header, body, env, event);
    VerifiedIsParsed(stripe, header, body, event);
    StripeTypesKeepTheirMeaning(event);
    RecognisedCode(c, stripe, s, Request(header, "", Some(body)), env, Translate(event).event);
    EventKeepsValues(c, s, clock, Translate(event).event, env, id, amount, key);
  }

  /** From end to end: after a create that charged, and any serial run that leaves the payment
      pending, a verified webhook that carries the id sent to the provider settles that very
      payment, and is answered 200. */
  lemma WebhookFindsCreatedPayment(c: Config, stripe: StripeConfig, s: State, clock: int, req: Snapshot, env: CreateEnv,
                                   calls: seq<Call>, id: string, header: string, body: string, env': EventEnv, event: StripeEvent)
    requires Good(s, clock) && Sensible(s, clock, CreateCall(req, env))
    requires Create(c, s, req, env).2.None? && AskedID(s, Create(c, s, req, env).0) == Some(id) && id != ""
    requires SensibleRun(c, Create(c, s, req, env).0, env.updated, calls)
    requires var end := Run(c, Create(c, s, req, env).0, calls);
             IsOrder(env'.order, end.store) && Delivery.StatusOf(end, id) == Some(Pending)
    requires Verified(stripe, header, body) && stripe.decode(body) == Some(event) && Meaning(event.kind).Some?
    requires Holds(event.metadata, "payment_id", id)
    ensures var end := Run(c, Create(c, s, req, env).0, calls);
            var (after, code) := Receive(c, stripe, end, Request(header, "", Some(body)), env');
            && id == env.id && code == 200 && HasValues(after, id, req.amount, req.idempotencyKey)
            && after.store.payments[id].status == Meaning(event.kind).value
  {
    CreatedUnderAskedID(c, s, clock, req, env);
    CreatedKeepsValues(c, s, clock, req, env, calls);
    var end := Run(c, Create(c, s, req, env).0, calls);
    PendingIsSettledWithValues(c, stripe, end, EndClock(env.updated, calls), id, header, body, env', event, req.amount, req.idempotencyKey);
  }

  // ----- Over the table -----

  /** Looking the payment of an event up ends in a query error exactly when the last lookup
      made is not answered: the one by reference if there is one, else the one by id. */
  lemma QueryFailsIff(s: State, e: DomainEvent, env: EventEnv)
    requires s.store.Table?
    ensures Resolve(s.store, e, env) == Unresolved(QueryFailed) <==>
              if e.transactionID == "" then env.idQueryDown
              else env.refQueryDown && (env.idQueryDown || e.paymentID !in s.store.rows)
    ensures Resolve(s.store, e, env).Unresolved? ==> Resolve(s.store, e, env).error in {QueryFailed, NotFound}
  {
  }

  /** The answers to a recognised webhook over the table: 500 exactly when the last lookup is
      not answered or the save fails; 404 exactly when the lookups are answered and find
      nothing; 409 exactly when the payment was settled otherwise; else 200, and the payment
      has the event's status. Only a 200 changes anything. */
  lemma RecognisedOverTable(c: Config, stripe: StripeConfig, s: State, clock: int, header: string, body: string, env: EventEnv, e: DomainEvent)
    requires TableRuns.TableGood(s, clock) && header != "" && Parse(stripe, body, header) == Recognised(e)
    ensures Target(e.eventType).Some?
    ensures var (after, code) := Receive(c, stripe, s, Request(header, "", Some(body)), env);
            var resolution, to := Resolve(s.store, e, env), Target(e.eventType).value;
            && after.store.Table?
            && (resolution.Resolved? ==> resolution.id in s.store.rows && resolution.id in after.store.rows)
            && (code == 404 <==> resolution == Unresolved(NotFound))
            && (code == 409 <==> resolution.Resolved? && s.store.rows[resolution.id].status.Terminal()
                                 && s.store.rows[resolution.id].status != to)
            && (code == 200 <==> resolution.Resolved? && after.store.rows[resolution.id].status == to)
            && (code == 500 <==> resolution == Unresolved(QueryFailed)
                                 || (resolution.Resolved? && s.store.rows[resolution.id].status == Pending && after == s))
            && (code != 200 ==> after == s)
            && (env.saveDown ==> after == s)
  {
    RecognisedEventsHaveTargets(stripe, body, header);
    RecognisedCode(c, stripe, s, Request(header, "", Some(body)), env, e);
    QueryFailsIff(s, e, env);
    if Resolve(s.store, e, env).Resolved? {
      OutcomeOverTable(c, s, clock, e, env);
    }
  }

  lemma OutcomeOverTable(c: Config, s: State, clock: int, e: DomainEvent, env: EventEnv)
    requires TableRuns.TableGood(s, clock) && Target(e.eventType).Some? && Resolve(s.store, e, env).Resolved?
    ensures var (after, err), id, to := Process(c, s, e, env), Resolve(s.store, e, env).id, Target(e.eventType).value;
            && after.store.Table? && id in s.store.rows && id in after.store.rows
            && (env.saveDown ==> after == s)
            && var before := s.store.rows[id].status;
               && (before == Pending || before.Terminal())
               && (before == Pending ==> (err == None && after.store.rows[id].status == to && after != s) || (err == Some(SaveFailed) && after == s))
               && (before.Terminal() ==> after == s && err == if before == to then None else Some(StateMachine(before, to)))
  {
    var id := Resolve(s.store, e, env).id;
    TableDelivery.ResolvedIsStored(s, e, env);
    assert TableRuns.View(s.store.rows)[id].status == s.store.rows[id].status;
    if s.store.rows[id].status == Pending {
      assert Process(c, s, e, env).1.None? ==> |Process(c, s, e, env).0.log| == |s.log| + 1;
    }
  }
}
