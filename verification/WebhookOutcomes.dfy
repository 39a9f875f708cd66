/** What the status code of a webhook says about the payment, over every in-memory store
    that a serial run can reach.
 */
module WebhookOutcomes {
  import opened Options
  import opened Entity
  import opened Storage
  import opened Service
  import opened SerialRuns
  import opened Webhook
  import Delivery
  import Stripe = StripeSignature

  /** The payment a recognised event is about, if there is one. */
  ghost function About(s: State, e: DomainEvent, env: EventEnv): Option<string> {
    match Resolve(s.store, e, env)
    case Resolved(id) => Some(id)
    case Unresolved(_) => None
  }

  /** The two switches of the service cover the same types: ParseWebhook produces exactly
      the event types that ProcessEvent knows. */
  lemma ParsedTypesAreKnownTypes(eventType: string)
    ensures (exists standard :: DomainType(standard) == Some(eventType)) <==> Target(eventType).Some?
  {
    if Target(eventType).Some? {
      assert DomainType(eventType) == Some(eventType);
    }
  }

  /** The status that a Stripe event type stands for. A type that is already a standard one
      stands for itself. */
  function Meaning(kind: string): Option<Status> {
    if kind in {"payment_intent.succeeded", "charge.succeeded", "payment.completed"} then Some(Completed)
    else if kind in {"payment_intent.payment_failed", "charge.failed", "payment.failed"} then Some(Failed)
    else if kind in {"payment_intent.canceled", "payment.cancelled"} then Some(Cancelled)
    else None
  }

  /** Through the adapter's switch and the service's two, a Stripe event is recognised
      exactly when its type has a meaning, and asks for the status it means. */
  lemma StripeTypesKeepTheirMeaning(event: StripeEvent)
    ensures Translate(event).Recognised? <==> Meaning(event.kind).Some?
    ensures Translate(event).Recognised? ==> Target(Translate(event).event.eventType) == Meaning(event.kind)
  {
    var standard := MapStripeEventToStandard(event.kind);
    if DomainType(standard).Some? {
      ParsedTypesAreKnownTypes(DomainType(standard).value);
    }
  }

  /** The branch of ProcessEvent for unknown event types cannot be reached from a webhook. */
  lemma RecognisedEventsHaveTargets(stripe: StripeConfig, payload: string, signature: string)
    ensures var parsed := Parse(stripe, payload, signature);
            parsed.Recognised? ==> Target(parsed.event.eventType).Some?
  {
    if Parse(stripe, payload, signature).Recognised? {
      StripeTypesKeepTheirMeaning(stripe.decode(payload).value);
    }
  }

  lemma AboutIsStored(s: State, e: DomainEvent, env: EventEnv)
    requires s.store.Memory? && IsOrder(env.order, s.store)
    ensures About(s, e, env).Some? ==> About(s, e, env).value in s.store.payments
    ensures About(s, e, env).None? ==> Resolve(s.store, e, env) == Unresolved(NotFound)
  {
    FindFinds(s.store, env.order, ByRef, e.transactionID);
  }

  /** The outcomes of ProcessEvent for a known event type. */
  lemma ProcessOutcome(c: Config, s: State, clock: int, e: DomainEvent, env: EventEnv)
    requires Good(s, clock) && IsOrder(env.order, s.store) && Target(e.eventType).Some?
    requires About(s, e, env).Some? ==> About(s, e, env).value in s.store.payments
    requires About(s, e, env).None? ==> Resolve(s.store, e, env) == Unresolved(NotFound)
    ensures var (after, err) := Process(c, s, e, env);
            match About(s, e, env)
            case None => err == Some(NotFound) && after == s
            case Some(id) =>
              var before, to := s.store.payments[id].status, Target(e.eventType).value;
              if before.Terminal() && before != to then err == Some(StateMachine(before, to)) && after == s
              else err == None && after.store.Memory? && id in after.store.payments && after.store.payments[id].status == to
  {
  }

  /** For a recognised event: 404 exactly when no payment is found, 409 exactly when the
      payment was already settled otherwise, 200 exactly when the payment ends up with the
      event's status; there is no other answer, and any answer but 200 changes nothing. */
  lemma RecognisedOutcome(c: Config, stripe: StripeConfig, s: State, clock: int, r: Request, env: EventEnv, e: DomainEvent)
    requires Good(s, clock) && IsOrder(env.order, s.store)
    requires SignatureOf(r) != "" && r.body.Some? && Parse(stripe, r.body.value, SignatureOf(r)) == Recognised(e)
    ensures Target(e.eventType).Some?
    ensures var (after, code) := Receive(c, stripe, s, r, env);
            var id, to := About(s, e, env), Target(e.eventType).value;
            && after.store.Memory?
            && (id.Some? ==> id.value in s.store.payments && id.value in after.store.payments)
            && (code == 404 <==> id.None?)
            && (code == 409 <==> id.Some? && s.store.payments[id.value].status.Terminal() && s.store.payments[id.value].status != to)
            && (code == 200 <==> id.Some? && after.store.payments[id.value].status == to)
            && code in {200, 404, 409}
            && (code != 200 ==> after == s)
  {
    RecognisedEventsHaveTargets(stripe, r.body.value, SignatureOf(r));
    AboutIsStored(s, e, env);
    ProcessOutcome(c, s, clock, e, env);
    var (after, err) := Process(c, s, e, env);
    assert Receive(c, stripe, s, r, env) == (after, if err.Some? then StatusCode(err.value) else 200);
  }

  /** What a Stripe event type means is what happens: a readable, authentic webhook whose
      type has a meaning is answered 200 exactly when its payment ends up in that status. */
  lemma StripeTypeDecidesStatus(c: Config, stripe: StripeConfig, s: State, clock: int, r: Request, env: EventEnv, event: StripeEvent)
    requires Good(s, clock) && IsOrder(env.order, s.store)
    requires SignatureOf(r) != "" && r.body.Some? && r.body.value != "" && Authentic(stripe, r.body.value, SignatureOf(r))
    requires stripe.decode(r.body.value) == Some(event) && Meaning(event.kind).Some?
    ensures var (after, code) := Receive(c, stripe, s, r, env);
            && after.store.Memory?
            && var id := About(s, Translate(event).event, env);
               code == 200 <==> id.Some? && id.value in after.store.payments
                                && after.store.payments[id.value].status == Meaning(event.kind).value
  {
    StripeTypesKeepTheirMeaning(event);
    RecognisedOutcome(c, stripe, s, clock, r, env, Translate(event).event);
  }

  lemma RecognisedCode(c: Config, stripe: StripeConfig, s: State, r: Request, env: EventEnv, e: DomainEvent)
    requires SignatureOf(r) != "" && r.body.Some? && Parse(stripe, r.body.value, SignatureOf(r)) == Recognised(e)
    ensures Receive(c, stripe, s, r, env).0 == Process(c, s, e, env).0
    ensures Receive(c, stripe, s, r, env).1 == var err := Process(c, s, e, env).1; if err.Some? then StatusCode(err.value) else 200
  {
  }

  /** A webhook answered 409 was resolved to a payment, and changed nothing. */
  lemma ConflictMeans(c: Config, stripe: StripeConfig, s: State, clock: int, r: Request, env: EventEnv, e: DomainEvent)
    requires Good(s, clock) && IsOrder(env.order, s.store)
    requires SignatureOf(r) != "" && r.body.Some? && Parse(stripe, r.body.value, SignatureOf(r)) == Recognised(e)
    requires Receive(c, stripe, s, r, env).1 == 409
    ensures Target(e.eventType).Some? && Process(c, s, e, env).0 == s
    ensures Resolve(s.store, e, env).Resolved? && (e.paymentID in s.store.payments ==> Resolve(s.store, e, env).id == e.paymentID)
  {
    RecognisedOutcome(c, stripe, s, clock, r, env, e);
    RecognisedCode(c, stripe, s, r, env, e);
  }

  /** A webhook answered 409 is answered 409 again whenever it is replayed: its payment is
      settled otherwise, and stays so. */
  lemma ConflictIsAnsweredAgain(c: Config, stripe: StripeConfig, s: State, clock: int, r: Request, env: EventEnv, e: DomainEvent,
                                calls: seq<Call>, env': EventEnv)
    requires Good(s, clock) && Sensible(s, clock, EventCall(e, env))
    requires SignatureOf(r) != "" && r.body.Some? && Parse(stripe, r.body.value, SignatureOf(r)) == Recognised(e)
    requires Receive(c, stripe, s, r, env).1 == 409
    requires SensibleRun(c, s, env.settled, calls)
    requires var end := Run(c, s, calls);
             && end.store.Memory? && IsOrder(env'.order, end.store)
             && (e.paymentID in s.store.payments || (e.paymentID !in end.store.payments && Delivery.RefsUnique(end.store.payments)))
    ensures Receive(c, stripe, Run(c, s, calls), r, env').1 == 409
  {
    ConflictMeans(c, stripe, s, clock, r, env, e);
    RecognisedCode(c, stripe, s, r, env, e);
    Delivery.RedeliveryAnswersTheSame(c, s, clock, e, env, calls, env');
    RecognisedCode(c, stripe, Run(c, s, calls), r, env', e);
  }

  /** There is such a webhook: a payment that was completed, and an event that says it failed. */
  lemma ConflictHappens(c: Config, stripe: StripeConfig, s: State, clock: int, r: Request, env: EventEnv, e: DomainEvent)
    requires Good(s, clock) && IsOrder(env.order, s.store) && e.eventType == FAILED
    requires SignatureOf(r) != "" && r.body.Some? && Parse(stripe, r.body.value, SignatureOf(r)) == Recognised(e)
    requires e.paymentID in s.store.payments && s.store.payments[e.paymentID].status == Completed
    ensures Receive(c, stripe, s, r, env).1 == 409 && Receive(c, stripe, s, r, env).0 == s
  {
    RecognisedOutcome(c, stripe, s, clock, r, env, e);
  }

  /** Every other answer of a webhook: 401 exactly without a signature, 500 exactly when the
      body cannot be read, 400 exactly when it is not authentic or not readable as an event,
      200 when its type is of no interest; and only a recognised event answered 200 changes anything. */
  lemma OtherOutcomes(c: Config, stripe: StripeConfig, s: State, clock: int, r: Request, env: EventEnv)
    requires Good(s, clock) && IsOrder(env.order, s.store)
    ensures var (after, code) := Receive(c, stripe, s, r, env);
            && (code == 401 <==> SignatureOf(r) == "")
            && (code == 500 <==> SignatureOf(r) != "" && r.body.None?)
            && (code == 400 <==> SignatureOf(r) != "" && r.body.Some? && Parse(stripe, r.body.value, SignatureOf(r)).Invalid?)
            && (SignatureOf(r) != "" && r.body.Some? && Parse(stripe, r.body.value, SignatureOf(r)).Ignored? ==> code == 200)
            && (after != s ==> code == 200 && r.body.Some? && Parse(stripe, r.body.value, SignatureOf(r)).Recognised?)
  {
    if SignatureOf(r) != "" && r.body.Some? {
      var parsed := Parse(stripe, r.body.value, SignatureOf(r));
      if parsed.Recognised? {
        RecognisedOutcome(c, stripe, s, clock, r, env, parsed.event);
      }
    }
  }

  /** With a webhook secret configured, only an authentic webhook can change anything: some
      `v1` signature of the header is the MAC of its timestamp and the body. */
  lemma OnlyAuthenticWebhooksAct(c: Config, stripe: StripeConfig, s: State, r: Request, env: EventEnv)
    requires stripe.secret != "" && Receive(c, stripe, s, r, env).0 != s
    ensures r.body.Some?
    ensures var h := Stripe.ParseHeader(SignatureOf(r));
            Stripe.SomeMatches(h.signatures, stripe.mac(stripe.secret, Stripe.Signed(h.timestamp, r.body.value)))
  {
  }
}
