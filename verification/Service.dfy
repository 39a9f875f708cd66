/** The payment service: create a payment through the provider, and apply provider events
    to it. Written once over the repository interface, as in the source.

    Identifiers, clock readings, provider replies, database outages and the order in which
    stored payments are visited come from outside and are parameters of each call.
 */
module Service {
  import opened Options
  import opened Events
  import opened Entity
  import opened Storage

  /** What is fixed at start-up. */
  datatype Config = Config(rules: Rules, provider: string)

  datatype ProviderRequest = ProviderRequest(
    paymentID: string,
    amount: int,
    currency: string,
    description: string,
    customerID: string,
    idempotencyKey: string,
    paymentMethod: string)

  datatype Reply = Charged(transactionID: string) | Declined(message: string)

  datatype ProviderCall = ProviderCall(request: ProviderRequest, charged: bool)

  /** The store, the events handed to the publisher, and the calls made to the provider. */
  datatype State = State(store: Backend, log: seq<PaymentEvent>, calls: seq<ProviderCall>)

  /** The outside world of one CreatePayment call. */
  datatype CreateEnv = CreateEnv(
    order: seq<string>,
    queryDown: bool,
    id: string,
    placeholder: string,
    created: int,
    updated: int,
    reply: Reply,
    saveDown: bool,
    eventID: string,
    published: int)

  /** A provider event, already translated. */
  datatype DomainEvent = DomainEvent(eventType: string, paymentID: string, transactionID: string)

  /** The outside world of one ProcessEvent call. */
  datatype EventEnv = EventEnv(
    order: seq<string>,
    idQueryDown: bool,
    refQueryDown: bool,
    bridged: int,
    settled: int,
    saveDown: bool,
    eventID: string,
    published: int)

  const COMPLETED: string := "payment.completed"
  const FAILED: string := "payment.failed"
  const CANCELLED: string := "payment.cancelled"

  /** The status an event asks for. */
  function Target(eventType: string): Option<Status> {
    if eventType == COMPLETED then Some(Completed)
    else if eventType == FAILED then Some(Failed)
    else if eventType == CANCELLED then Some(Cancelled)
    else None
  }

  function RequestFor(p: Snapshot): ProviderRequest {
    ProviderRequest(p.id, p.amount, p.currency, p.description, p.customerID, p.idempotencyKey, p.paymentMethod)
  }

  function EventFor(c: Config, p: Snapshot, eventType: string, eventID: string, published: int): PaymentEvent {
    PaymentEvent(eventID, eventType, p.id, c.provider, p.amount, p.currency, p.status.Text(), published)
  }

  const CREATED: string := "payment.created"

  // ----- What a call does, on values -----

  /** The payment that already carries the request's idempotency key, if the check finds it. */
  function Existing(b: Backend, req: Snapshot, env: CreateEnv): Option<string> {
    if req.idempotencyKey == "" || b.Unavailable(env.queryDown) then None
    else Find(b, env.order, ByKey, req.idempotencyKey)
  }

  /** The payment that the domain factory makes of a request, or its objection. */
  function Build(c: Config, req: Snapshot, env: CreateEnv): Built {
    NewPayment(c.rules, env.id, env.placeholder, req.customerID, req.amount, req.currency,
               req.description, req.idempotencyKey, env.created, env.updated)
  }

  /** The last two steps of CreatePayment, once the provider has charged: save and publish. */
  function Store(c: Config, s: State, p: Snapshot, env: CreateEnv): (State, Snapshot, Option<Error>) {
    match s.store.Save(p, env.saveDown)
    case None => (s, p, Some(SaveFailed))
    case Some(store) => (s.(store := store, log := s.log + [EventFor(c, p, CREATED, env.eventID, env.published)]), p, None)
  }

  /** Call the provider for a new payment, then store it. */
  function Charge(c: Config, s: State, p: Snapshot, env: CreateEnv): (State, Snapshot, Option<Error>) {
    match env.reply
    case Declined(message) =>
      (s.(calls := s.calls + [ProviderCall(RequestFor(p), false)]), p, Some(ProviderFailed(c.provider, message)))
    case Charged(ref) =>
      Store(c, s.(calls := s.calls + [ProviderCall(RequestFor(p), true)]), p.(transactionID := ref), env)
  }

  /** CreatePayment for a request whose key has not been used. */
  function CreateNew(c: Config, s: State, req: Snapshot, env: CreateEnv): (State, Snapshot, Option<Error>) {
    match Build(c, req, env)
    case Rejected(error) => (s, req, Some(error))
    case Built(p) => Charge(c, s, p, env)
  }

  /** CreatePayment: the state after, the caller's payment after, and the error. */
  function Create(c: Config, s: State, req: Snapshot, env: CreateEnv): (State, Snapshot, Option<Error>) {
    match Existing(s.store, req, env)
    case Some(id) =>
      if id in s.store.Ids() then (s, s.store.Get(id), None) else (s, req, None)
    case None => CreateNew(c, s, req, env)
  }

  /** The id of the payment an event is about: by id, else by provider reference. */
  datatype Resolution = Resolved(id: string) | Unresolved(error: Error)

  function ByID(b: Backend, e: DomainEvent, env: EventEnv): Resolution {
    if b.Unavailable(env.idQueryDown) then Unresolved(QueryFailed)
    else if e.paymentID in b.Ids() then Resolved(e.paymentID)
    else Unresolved(NotFound)
  }

  function Resolve(b: Backend, e: DomainEvent, env: EventEnv): Resolution {
    var first := ByID(b, e, env);
    if first.Resolved? || e.transactionID == "" then first
    else if b.Unavailable(env.refQueryDown) then Unresolved(QueryFailed)
    else match Find(b, env.order, ByRef, e.transactionID)
         case Some(id) => Resolved(id)
         case None => Unresolved(NotFound)
  }

  /** The payment after the event has been applied. */
  function Settled(p: Snapshot, e: DomainEvent, to: Status, now: int): Snapshot {
    p.(status := to, updatedAt := now, transactionID := if e.transactionID == "" then p.transactionID else e.transactionID)
  }

  /** Move the payment `id` to a status it does not have yet. */
  function Settle(c: Config, s: State, id: string, e: DomainEvent, to: Status, env: EventEnv): (State, Option<Error>)
    requires id in s.store.Ids()
  {
    var p := s.store.Get(id);
    if p.status.Terminal() then (s, Some(StateMachine(p.status, to)))
    else
      var after := Settled(p, e, to, env.settled);
      match s.store.Save(after, env.saveDown)
      case None => (s, Some(SaveFailed))
      case Some(store) =>
        (s.(store := store,
            log := s.log + [EventFor(c, after, "payment." + to.Text(), env.eventID, env.published)]), None)
  }

  /** Apply an event to the payment `id`. */
  function Apply(c: Config, s: State, id: string, e: DomainEvent, env: EventEnv): (State, Option<Error>)
    requires id in s.store.Ids()
  {
    match Target(e.eventType)
    case None => (s, Some(UnknownEventType(e.eventType)))
    case Some(to) => if s.store.Get(id).status == to then (s, None) else Settle(c, s, id, e, to, env)
  }

  /** ProcessEvent: the state after, and the error. */
  function Process(c: Config, s: State, e: DomainEvent, env: EventEnv): (State, Option<Error>) {
    match Resolve(s.store, e, env)
    case Unresolved(error) => (s, Some(error))
    case Resolved(id) => if id in s.store.Ids() then Apply(c, s, id, e, env) else (s, Some(NotFound))
  }

  /** Saving a payment whose new value is already in the map gives the same map. */
  lemma SavingAgain(b: Backend, p: Snapshot, down: bool)
    ensures b.Memory? ==> Memory(b.payments[p.id := p]).Save(p, down) == b.Save(p, down)
  {
    if b.Memory? {
      assert b.payments[p.id := p][p.id := p] == b.payments[p.id := p];
    }
  }

  // ----- The service object -----

  class PaymentService {
    const config: Config
    const repo: Repository
    var log: seq<PaymentEvent>
    var calls: seq<ProviderCall>

    constructor (config: Config, repo: Repository)
      ensures this.config == config && this.repo == repo && log == [] && calls == []
    {
      this.config, this.repo, log, calls := config, repo, [], [];
    }

    ghost predicate Valid()
      reads repo, repo.Objects()
    {
      repo.Valid()
    }

    ghost function Now(): State
      reads this, repo, repo.Objects()
    {
      State(repo.Contents(), log, calls)
    }

    method PublishEvent(p: Payment, eventType: string, eventID: string, published: int)
      modifies this`log
      ensures log == old(log) + [EventFor(config, p.Value(), eventType, eventID, published)]
    {
      log := log + [PaymentEvent(eventID, eventType, p.id, config.provider, p.amount, p.currency, p.status.Text(), published)];
    }

    /** The idempotency check; an outage is logged and otherwise ignored. */
    method FindExisting(p: Payment, env: CreateEnv) returns (existing: Payment?)
      requires Valid()
      ensures existing == null <==> Existing(repo.Contents(), p.Value(), env).None?
      ensures existing != null ==>
                var id := Existing(repo.Contents(), p.Value(), env).value;
                id in repo.Contents().Ids() && existing.Value() == repo.Contents().Get(id)
    {
      existing := null;
      if p.idempotencyKey != "" {
        var err;
        existing, err := repo.GetByIdempotencyKey(p.idempotencyKey, env.order, env.queryDown);
      }
    }

    /** Save a charged payment and announce it. */
    method StorePayment(p: Payment, env: CreateEnv) returns (err: Option<Error>)
      requires Valid() && p !in repo.Objects()
      modifies this`log, repo
      ensures Valid()
      ensures Now() == Store(config, old(Now()), p.Value(), env).0
      ensures err == Store(config, old(Now()), p.Value(), env).2
    {
      err := repo.Save(p, env.saveDown);
      if err.Some? {
        return;
      }
      PublishEvent(p, CREATED, env.eventID, env.published);
    }

    /** Submit a new payment to the provider and, if it is charged, store it. */
    method ChargePayment(p: Payment, env: CreateEnv) returns (err: Option<Error>)
      requires Valid() && p !in repo.Objects()
      modifies this, repo, p`transactionID
      ensures Valid()
      ensures Now() == Charge(config, old(Now()), old(p.Value()), env).0
      ensures p.Value() == Charge(config, old(Now()), old(p.Value()), env).1
      ensures err == Charge(config, old(Now()), old(p.Value()), env).2
    {
      var request := ProviderRequest(p.id, p.amount, p.currency, p.description, p.customerID, p.idempotencyKey, p.paymentMethod);
      calls := calls + [ProviderCall(request, env.reply.Charged?)];
      if env.reply.Declined? {
        return Some(ProviderFailed(config.provider, env.reply.message));
      }
      p.transactionID := env.reply.transactionID;
      assert repo.Contents() == old(repo.Contents());
      err := StorePayment(p, env);
    }

    method CreateNewPayment(p: Payment, env: CreateEnv) returns (err: Option<Error>)
      requires Valid() && p !in repo.Objects()
      modifies this, repo, p
      ensures Valid()
      ensures Now() == CreateNew(config, old(Now()), old(p.Value()), env).0
      ensures p.Value() == CreateNew(config, old(Now()), old(p.Value()), env).1
      ensures err == CreateNew(config, old(Now()), old(p.Value()), env).2
    {
      var built := Build(config, p.Value(), env);
      if built.Rejected? {
        return Some(built.error);
      }
      p.Assign(built.payment);
      err := ChargePayment(p, env);
    }

    /** CreatePayment overwrites the caller's payment, which must not be a stored one. */
    method CreatePayment(p: Payment, env: CreateEnv) returns (err: Option<Error>)
      requires Valid() && p !in repo.Objects()
      modifies this, repo, p
      ensures Valid()
      ensures Now() == Create(config, old(Now()), old(p.Value()), env).0
      ensures p.Value() == Create(config, old(Now()), old(p.Value()), env).1
      ensures err == Create(config, old(Now()), old(p.Value()), env).2
    {
      var existing := FindExisting(p, env);
      if existing != null {
        p.Assign(existing.Value());
        return None;
      }
      err := CreateNewPayment(p, env);
    }

    /** Resolve an event to a payment: the pointer the store holds, or a copy of the row. */
    method ResolveEvent(e: DomainEvent, env: EventEnv) returns (p: Payment?, err: Option<Error>)
      requires Valid()
      ensures p == null <==> err.Some?
      ensures match Resolve(repo.Contents(), e, env)
              case Unresolved(error) => err == Some(error)
              case Resolved(id) =>
                && p != null && id in repo.Contents().Ids() && p.Value() == repo.Contents().Get(id)
                && if repo.inMemory then id in repo.payments && p == repo.payments[id] else fresh(p)
    {
      p, err := repo.GetByID(e.paymentID, env.idQueryDown);
      if err.Some? && e.transactionID != "" {
        p, err := repo.GetByProviderRef(e.transactionID, env.order, env.refQueryDown);
      }
    }

    /** The status changes of ProcessEvent, on the object itself: all of them, or none. */
    method Advance(p: Payment, to: Status, env: EventEnv) returns (err: Option<Error>)
      requires to.Terminal()
      modifies p`status, p`updatedAt
      ensures err.None? <==> !old(p.status).Terminal()
      ensures err.None? ==> p.Value() == old(p.Value()).(status := to, updatedAt := env.settled)
      ensures err.Some? ==> p.Value() == old(p.Value()) && err == Some(StateMachine(p.status, to))
    {
      if p.status == Pending {
        err := p.Transition(Processing, env.bridged);
        if err.Some? {
          return;
        }
      }
      err := p.Transition(to, env.settled);
    }

    /** The end of ProcessEvent: save the changed payment and announce its status. */
    method SaveSettled(p: Payment, to: Status, env: EventEnv) returns (err: Option<Error>)
      requires Valid() && p.status == to
      requires p in repo.Objects() ==> p.id in repo.payments && repo.payments[p.id] == p
      modifies this`log, repo
      ensures Valid()
      ensures match old(repo.Contents()).Save(p.Value(), env.saveDown)
              case None => err == Some(SaveFailed) && repo.Contents() == old(repo.Contents()) && log == old(log)
              case Some(store) =>
                && err == None && repo.Contents() == store
                && log == old(log) + [EventFor(config, p.Value(), "payment." + to.Text(), env.eventID, env.published)]
    {
      err := repo.Save(p, env.saveDown);
      if err.Some? {
        return;
      }
      PublishEvent(p, "payment." + p.status.Text(), env.eventID, env.published);
    }

    /** Change a payment object that may be the very object in the store: an error leaves
        everything as it was. */
    method Change(p: Payment, ghost id: string, e: DomainEvent, to: Status, env: EventEnv) returns (err: Option<Error>)
      requires Valid() && id in repo.Contents().Ids() && p.Value() == repo.Contents().Get(id) && to.Terminal()
      requires if repo.inMemory then id in repo.payments && p == repo.payments[id] else p !in repo.Objects()
      modifies p`status, p`updatedAt, p`transactionID
      ensures Valid()
      ensures err == if old(p.status).Terminal() then Some(StateMachine(old(p.status), to)) else None
      ensures err.Some? ==> repo.Contents() == old(repo.Contents())
      ensures err.None? ==> p.Value() == Settled(old(p.Value()), e, to, env.settled) && p.id == id
      ensures err.None? ==> repo.Contents() == if repo.inMemory then Memory(old(repo.Contents()).payments[id := p.Value()])
                                               else old(repo.Contents())
    {
      ghost var before := repo.Contents();
      err := Advance(p, to, env);
      if err.None? && e.transactionID != "" {
        p.transactionID := e.transactionID;
      }
      if repo.inMemory {
        forall other | other in repo.payments && other != id
          ensures repo.payments[other].Value() == before.payments[other]
        {
          assert repo.payments[other] != p;
        }
        DiffersAt(before.payments, p, id);
        SameEntry(before.payments, id);
      }
    }

    /** The store is what it was, but for the payment `id`. */
    lemma DiffersAt(before: map<string, Snapshot>, p: Payment, id: string)
      requires Valid() && repo.inMemory && id in repo.payments && repo.payments[id] == p
      requires before.Keys == repo.payments.Keys
      requires forall other | other in repo.payments && other != id :: repo.payments[other].Value() == before[other]
      ensures repo.Contents() == Memory(before[id := p.Value()])
    {
    }

    lemma SameEntry(before: map<string, Snapshot>, id: string)
      requires id in before
      ensures before[id := before[id]] == before
    {
    }

    method SettleEvent(p: Payment, ghost id: string, e: DomainEvent, to: Status, env: EventEnv) returns (err: Option<Error>)
      requires Valid() && id in repo.Contents().Ids() && p.Value() == repo.Contents().Get(id) && to.Terminal()
      requires if repo.inMemory then id in repo.payments && p == repo.payments[id] else p !in repo.Objects()
      modifies this`log, repo, p
      ensures Valid()
      ensures Now() == Settle(config, old(Now()), id, e, to, env).0
      ensures err == Settle(config, old(Now()), id, e, to, env).1
    {
      ghost var before := repo.Contents();
      err := Change(p, id, e, to, env);
      if err.Some? {
        return;
      }
      SavingAgain(before, p.Value(), env.saveDown);
      err := SaveSettled(p, to, env);
    }

    method ApplyEvent(p: Payment, ghost id: string, e: DomainEvent, env: EventEnv) returns (err: Option<Error>)
      requires Valid() && id in repo.Contents().Ids() && p.Value() == repo.Contents().Get(id)
      requires if repo.inMemory then id in repo.payments && p == repo.payments[id] else p !in repo.Objects()
      modifies this`log, repo, p
      ensures Valid()
      ensures Now() == Apply(config, old(Now()), id, e, env).0
      ensures err == Apply(config, old(Now()), id, e, env).1
    {
      var target := Target(e.eventType);
      if target.None? {
        return Some(UnknownEventType(e.eventType));
      }
      if p.status == target.value {
        return None;
      }
      err := SettleEvent(p, id, e, target.value, env);
    }

    method ProcessEvent(e: DomainEvent, env: EventEnv) returns (err: Option<Error>)
      requires Valid()
      modifies this`log, repo, repo.Objects()
      ensures Valid()
      ensures Now() == Process(config, old(Now()), e, env).0
      ensures err == Process(config, old(Now()), e, env).1
    {
      var p;
      p, err := ResolveEvent(e, env);
      if err.Some? {
        return;
      }
      err := ApplyEvent(p, Resolve(repo.Contents(), e, env).id, e, env);
    }

    method GetPayment(id: string, down: bool) returns (p: Payment?, err: Option<Error>)
      requires Valid()
      ensures p == null <==> err.Some?
      ensures p != null ==> id in repo.Contents().Ids() && p.Value() == repo.Contents().Get(id)
      ensures err == if repo.Contents().Unavailable(down) then Some(QueryFailed)
                     else if id !in repo.Contents().Ids() then Some(NotFound) else None
    {
      p, err := repo.GetByID(id, down);
    }
  }
}
