/** The HTTP handlers for creating payments and receiving provider webhooks, with the Stripe
    adapter that verifies and translates a webhook.

    JSON decoding and HMAC are parameters.
 */
module Webhook {
  import opened Options
  import opened Events
  import opened Entity
  import opened Storage
  import opened Service
  import Stripe = StripeSignature

  // ----- The Stripe adapter -----

  /** A metadata value: a string, or some other JSON value. */
  datatype Meta = Text(text: string) | Other

  datatype StripeEvent = StripeEvent(kind: string, objectID: string, metadata: map<string, Meta>)

  datatype StripeConfig = StripeConfig(secret: string, mac: Stripe.Mac, decode: string -> Option<StripeEvent>)

  function MetaText(metadata: map<string, Meta>, key: string): string {
    if key in metadata && metadata[key].Text? then metadata[key].text else ""
  }

  /** The Stripe adapter's switch: Stripe's event types to standard ones. */
  function MapStripeEventToStandard(kind: string): string {
    if kind == "payment_intent.succeeded" || kind == "charge.succeeded" then "payment.completed"
    else if kind == "payment_intent.payment_failed" || kind == "charge.failed" then "payment.failed"
    else if kind == "payment_intent.canceled" then "payment.cancelled"
    else kind
  }

  /** The service's switch in ParseWebhook: standard event types to domain ones. */
  function DomainType(standard: string): Option<string> {
    match standard
    case "payment.completed" => Some(COMPLETED)
    case "payment.failed" => Some(FAILED)
    case "payment.cancelled" => Some(CANCELLED)
    case _ => None
  }

  /** The internal payment id, or the idempotency key in its place. */
  function PaymentID(metadata: map<string, Meta>): string {
    var id := MetaText(metadata, "payment_id");
    if id == "" then MetaText(metadata, "idempotency_key") else id
  }

  /** What a webhook turns out to be. */
  datatype Parsed = Recognised(event: DomainEvent) | Ignored | Invalid

  ghost predicate Authentic(c: StripeConfig, payload: string, signature: string) {
    c.secret == "" || Stripe.Verify(c.mac, payload, signature, c.secret) == Stripe.Accepted
  }

  function Translate(event: StripeEvent): Parsed {
    match DomainType(MapStripeEventToStandard(event.kind))
    case None => Ignored
    case Some(eventType) => Recognised(DomainEvent(eventType, PaymentID(event.metadata), event.objectID))
  }

  ghost function Parse(c: StripeConfig, payload: string, signature: string): Parsed {
    if payload == "" || !Authentic(c, payload, signature) then Invalid
    else match c.decode(payload)
         case None => Invalid
         case Some(event) => Translate(event)
  }

  // ----- The webhook handler, on values -----

  function StatusCode(err: Error): int {
    match err
    case NotFound => 404
    case Domain(_) => 400
    case StateMachine(_, _) => 409
    case _ => 500
  }

  datatype Request = Request(stripeSignature: string, webhookSignature: string, body: Option<string>)

  function SignatureOf(r: Request): string {
    if r.stripeSignature == "" then r.webhookSignature else r.stripeSignature
  }

  /** The state after a webhook and the status code of the answer. */
  ghost function Receive(c: Config, stripe: StripeConfig, s: State, r: Request, env: EventEnv): (State, int) {
    if SignatureOf(r) == "" then (s, 401)
    else if r.body.None? then (s, 500)
    else match Parse(stripe, r.body.value, SignatureOf(r))
         case Invalid => (s, 400)
         case Ignored => (s, 200)
         case Recognised(e) =>
           var (after, err) := Process(c, s, e, env);
           (after, if err.Some? then StatusCode(err.value) else 200)
  }

  // ----- The create handler, on values -----

  datatype PaymentRequest = PaymentRequest(amount: int, currency: string, customerID: string, description: string, cardToken: string)

  function FromRequest(r: PaymentRequest, key: string): Snapshot {
    Snapshot("", r.amount, r.currency, Pending, key, "", r.customerID, r.description, r.cardToken, 0, 0)
  }

  function Accept(c: Config, s: State, body: Option<PaymentRequest>, key: string, env: CreateEnv): (State, int) {
    if body.None? || key == "" || body.value.amount <= 0 || !ValidCustomer(body.value.customerID) then (s, 400)
    else
      var (after, _, err) := Create(c, s, FromRequest(body.value, key), env);
      (after, if err.Some? then StatusCode(err.value) else 201)
  }

  // ----- The handlers -----

  class PaymentHandler {
    const service: PaymentService
    const stripe: StripeConfig

    constructor (service: PaymentService, stripe: StripeConfig)
      ensures this.service == service && this.stripe == stripe
    {
      this.service, this.stripe := service, stripe;
    }

    method ParseWebhook(payload: string, signature: string) returns (parsed: Parsed)
      ensures parsed == Parse(stripe, payload, signature)
    {
      if payload == "" {
        return Invalid;
      }
      if stripe.secret != "" {
        var verdict := Stripe.VerifySignature(stripe.mac, payload, signature, stripe.secret);
        if verdict != Stripe.Accepted {
          return Invalid;
        }
      }
      match stripe.decode(payload) {
        case None => return Invalid;
        case Some(event) => return Translate(event);
      }
    }

    method HandleWebhook(r: Request, env: EventEnv) returns (code: int)
      requires service.Valid()
      modifies service`log, service.repo, service.repo.Objects()
      ensures service.Valid()
      ensures service.Now() == Receive(service.config, stripe, old(service.Now()), r, env).0
      ensures code == Receive(service.config, stripe, old(service.Now()), r, env).1
    {
      var signature := if r.stripeSignature == "" then r.webhookSignature else r.stripeSignature;
      if signature == "" {
        return 401;
      }
      if r.body.None? {
        return 500;
      }
      var parsed := ParseWebhook(r.body.value, signature);
      if parsed.Ignored? {
        return 200;
      }
      if parsed.Invalid? {
        return 400;
      }
      var err := service.ProcessEvent(parsed.event, env);
      code := if err.Some? then StatusCode(err.value) else 200;
    }

    /** The handler gives the service a payment of its own, never a stored one. */
    method CreatePayment(body: Option<PaymentRequest>, key: string, env: CreateEnv) returns (code: int)
      requires service.Valid()
      modifies service, service.repo
      ensures service.Valid()
      ensures service.Now() == Accept(service.config, old(service.Now()), body, key, env).0
      ensures code == Accept(service.config, old(service.Now()), body, key, env).1
    {
      if body.None? || key == "" {
        return 400;
      }
      if body.value.amount <= 0 || !ValidCustomer(body.value.customerID) {
        return 400;
      }
      var p := new Payment(FromRequest(body.value, key));
      var err := service.CreatePayment(p, env);
      code := if err.Some? then StatusCode(err.value) else 201;
    }
  }
}
