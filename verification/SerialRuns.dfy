/** Whole serial runs of the payment service over the in-memory store: arbitrary sequences
    of CreatePayment and ProcessEvent calls.

    Generated ids are new, the clock never goes back, and the map is visited in some order
    that enumerates it; everything else about the calls is arbitrary.
 */
module SerialRuns {
  import opened Options
  import opened Events
  import opened Entity
  import opened Storage
  import opened Service

  type Payments = map<string, Snapshot>

  datatype Call = CreateCall(req: Snapshot, env: CreateEnv) | EventCall(e: DomainEvent, ev: EventEnv)

  function Next(c: Config, s: State, call: Call): State {
    match call
    case CreateCall(req, env) => Create(c, s, req, env).0
    case EventCall(e, env) => Process(c, s, e, env).0
  }

  function Run(c: Config, s: State, calls: seq<Call>): State
    decreases |calls|
  {
    if calls == [] then s else Run(c, Next(c, s, calls[0]), calls[1..])
  }

  const EMPTY: State := State(Memory(map[]), [], [])

  ghost predicate Sensible(s: State, clock: int, call: Call) {
    match call
    case CreateCall(_, env) =>
      env.id !in s.store.Ids() && IsOrder(env.order, s.store) && clock <= env.created <= env.updated
    case EventCall(_, env) => IsOrder(env.order, s.store) && clock <= env.bridged <= env.settled
  }

  function ClockAfter(call: Call): int {
    match call
    case CreateCall(_, env) => env.updated
    case EventCall(_, env) => env.settled
  }

  ghost predicate SensibleRun(c: Config, s: State, clock: int, calls: seq<Call>)
    decreases |calls|
  {
    calls != [] ==>
      && Sensible(s, clock, calls[0])
      && SensibleRun(c, Next(c, s, calls[0]), ClockAfter(calls[0]), calls[1..])
  }

  // ----- What one call can do -----

  /** The ways a call can change the state. */
  datatype Change =
    | Nothing
    | Refused(call: ProviderCall)                                   // the provider declined
    | Added(p: Snapshot, call: ProviderCall, event: PaymentEvent)   // a new payment
    | Moved(p: Snapshot, event: PaymentEvent)                       // a pending payment was settled

  ghost predicate IsAdded(c: Config, s: State, ch: Change, env: CreateEnv)
    requires s.store.Memory? && ch.Added?
  {
    && ch.p.id == env.id && ch.p.status == Pending
    && 0 < ch.p.amount && ValidCustomer(ch.p.customerID) && ch.p.description != ""
    && ch.p.createdAt == env.created && ch.p.updatedAt == env.updated
    && ch.call == ProviderCall(RequestFor(ch.p), true)
    && ch.event == EventFor(c, ch.p, CREATED, env.eventID, env.published)
    && (ch.p.idempotencyKey != "" ==> forall id | id in s.store.payments :: s.store.payments[id].idempotencyKey != ch.p.idempotencyKey)
  }

  ghost predicate IsMoved(c: Config, s: State, ch: Change, e: DomainEvent, env: EventEnv)
    requires s.store.Memory? && ch.Moved?
  {
    && Target(e.eventType).Some?
    && ch.p.id in s.store.payments && !s.store.payments[ch.p.id].status.Terminal()
    && Resolve(s.store, e, env) == Resolved(ch.p.id)
    && ch.p == Settled(s.store.payments[ch.p.id], e, Target(e.eventType).value, env.settled)
    && ch.event == EventFor(c, ch.p, "payment." + ch.p.status.Text(), env.eventID, env.published)
  }

  function Changed(s: State, ch: Change): State
    requires s.store.Memory?
  {
    match ch
    case Nothing => s
    case Refused(call) => s.(calls := s.calls + [call])
    case Added(p, call, event) => State(Memory(s.store.payments[p.id := p]), s.log + [event], s.calls + [call])
    case Moved(p, event) => s.(store := Memory(s.store.payments[p.id := p]), log := s.log + [event])
  }

  /** Every payment is filed under its id, valid, pending or terminal, and its timestamps
      are in order. */
  ghost predicate WellKept(m: Payments, clock: int) {
    forall id | id in m ::
      && m[id].id == id
      && (m[id].status == Pending || m[id].status.Terminal())
      && 0 < m[id].amount && ValidCustomer(m[id].customerID) && m[id].description != ""
      && m[id].createdAt <= m[id].updatedAt <= clock
  }

  ghost predicate IsChange(c: Config, s: State, call: Call, ch: Change)
    requires s.store.Memory?
  {
    match call
    case CreateCall(_, env) =>
      && !ch.Moved?
      && (ch.Refused? ==> !ch.call.charged)
      && (ch.Added? ==> IsAdded(c, s, ch, env))
    case EventCall(e, env) => ch.Nothing? || (ch.Moved? && IsMoved(c, s, ch, e, env))
  }

  lemma CreateChanges(c: Config, s: State, clock: int, req: Snapshot, env: CreateEnv) returns (ch: Change)
    requires s.store.Memory? && Sensible(s, clock, CreateCall(req, env))
    ensures Create(c, s, req, env).0 == Changed(s, ch)
    ensures IsChange(c, s, CreateCall(req, env), ch)
  {
    if req.idempotencyKey != "" {
      FindFinds(s.store, env.order, ByKey, req.idempotencyKey);
    }
    var built := Build(c, req, env);
    if Existing(s.store, req, env).Some? || built.Rejected? {
      ch := Nothing;
    } else if env.reply.Declined? {
      ch := Refused(ProviderCall(RequestFor(built.payment), false));
    } else {
      var p := built.payment.(transactionID := env.reply.transactionID);
      ch := Added(p, ProviderCall(RequestFor(p), true), EventFor(c, p, CREATED, env.eventID, env.published));
    }
  }

  lemma EventChanges(c: Config, s: State, clock: int, e: DomainEvent, env: EventEnv) returns (ch: Change)
    requires s.store.Memory? && WellKept(s.store.payments, clock)
    ensures Process(c, s, e, env).0 == Changed(s, ch)
    ensures IsChange(c, s, EventCall(e, env), ch)
    ensures ch.Nothing? <==> Process(c, s, e, env).0 == s
  {
    ch := Nothing;
    match Resolve(s.store, e, env)
    case Unresolved(_) =>
    case Resolved(id) =>
      if id in s.store.payments && Target(e.eventType).Some? && !s.store.payments[id].status.Terminal() {
        var p := Settled(s.store.payments[id], e, Target(e.eventType).value, env.settled);
        ch := Moved(p, EventFor(c, p, "payment." + p.status.Text(), env.eventID, env.published));
      }
  }

  lemma CallChanges(c: Config, s: State, clock: int, call: Call) returns (ch: Change)
    requires s.store.Memory? && WellKept(s.store.payments, clock) && Sensible(s, clock, call)
    ensures Next(c, s, call) == Changed(s, ch) && IsChange(c, s, call, ch)
  {
    match call
    case CreateCall(req, env) => ch := CreateChanges(c, s, clock, req, env);
    case EventCall(e, env) => ch := EventChanges(c, s, clock, e, env);
  }

  // ----- What every call keeps -----

  ghost predicate KeysUnique(m: Payments) {
    forall id, id' | id in m && id' in m && m[id].idempotencyKey == m[id'].idempotencyKey != "" :: id == id'
  }

  /** The published events of one payment, in order. */
  function LogOf(log: seq<PaymentEvent>, id: string): seq<PaymentEvent> {
    if log == [] then [] else
      var last := log[|log| - 1];
      LogOf(log[..|log| - 1], id) + (if last.paymentID == id then [last] else [])
  }

  ghost predicate TellsOf(event: PaymentEvent, p: Snapshot, status: Status) {
    event.paymentID == p.id && event.amount == p.amount && event.currency == p.currency && event.status == status.Text()
  }

  /** `payment.created`, followed by at most one terminal event: the one of the status it has. */
  ghost predicate History(events: seq<PaymentEvent>, p: Snapshot) {
    && |events| == (if p.status.Terminal() then 2 else 1)
    && events[0].eventType == CREATED && TellsOf(events[0], p, Pending)
    && (p.status.Terminal() ==>
          events[1].eventType == "payment." + p.status.Text() && TellsOf(events[1], p, p.status))
  }

  ghost predicate LogTells(m: Payments, log: seq<PaymentEvent>) {
    && (forall id | id in m :: History(LogOf(log, id), m[id]))
    && (forall id: string | id !in m :: LogOf(log, id) == [])
  }

  /** The status of each payment in the last event about it. */
  function Replay(log: seq<PaymentEvent>): map<string, string> {
    if log == [] then map[] else
      var last := log[|log| - 1];
      Replay(log[..|log| - 1])[last.paymentID := last.status]
  }

  function Statuses(m: Payments): map<string, string> {
    map id | id in m :: m[id].status.Text()
  }

  ghost predicate Good(s: State, clock: int) {
    && s.store.Memory?
    && WellKept(s.store.payments, clock)
    && KeysUnique(s.store.payments)
    && LogTells(s.store.payments, s.log)
    && Replay(s.log) == Statuses(s.store.payments)
  }

  lemma LogSnoc(log: seq<PaymentEvent>, event: PaymentEvent)
    ensures forall id: string :: LogOf(log + [event], id) == LogOf(log, id) + (if event.paymentID == id then [event] else [])
    ensures Replay(log + [event]) == Replay(log)[event.paymentID := event.status]
  {
    assert (log + [event])[..|log|] == log;
  }

  lemma ChangeKeepsKept(c: Config, s: State, clock: int, call: Call, ch: Change)
    requires s.store.Memory? && WellKept(s.store.payments, clock) && Sensible(s, clock, call) && IsChange(c, s, call, ch)
    ensures WellKept(Changed(s, ch).store.payments, ClockAfter(call))
  {
  }

  lemma ChangeKeepsKeys(c: Config, s: State, call: Call, ch: Change)
    requires s.store.Memory? && KeysUnique(s.store.payments) && IsChange(c, s, call, ch)
    ensures KeysUnique(Changed(s, ch).store.payments)
  {
  }

  /** A new payment and its `payment.created`. */
  lemma NewPaymentKeepsLog(m: Payments, log: seq<PaymentEvent>, p: Snapshot, event: PaymentEvent)
    requires LogTells(m, log) && p.id !in m && p.status == Pending
    requires event.eventType == CREATED && TellsOf(event, p, Pending)
    ensures LogTells(m[p.id := p], log + [event])
  {
    LogSnoc(log, event);
    assert LogOf(log + [event], p.id) == [event];
    forall id | id in m
      ensures History(LogOf(log + [event], id), m[id])
    {
      assert id != p.id ==> LogOf(log + [event], id) == LogOf(log, id) + [];
    }
  }

  /** A pending payment that is settled, and the event of its new status. */
  lemma SettledPaymentKeepsLog(m: Payments, log: seq<PaymentEvent>, p: Snapshot, event: PaymentEvent)
    requires LogTells(m, log) && p.id in m && m[p.id].status == Pending && p.status.Terminal()
    requires p == m[p.id].(status := p.status, transactionID := p.transactionID, updatedAt := p.updatedAt)
    requires event.eventType == "payment." + p.status.Text() && TellsOf(event, p, p.status)
    ensures LogTells(m[p.id := p], log + [event])
  {
    LogSnoc(log, event);
    assert History(LogOf(log, p.id), m[p.id]);
    assert LogOf(log + [event], p.id) == LogOf(log, p.id) + [event];
    assert History(LogOf(log + [event], p.id), p);
  }

  lemma WriteKeepsReplay(m: Payments, log: seq<PaymentEvent>, p: Snapshot, event: PaymentEvent)
    requires Replay(log) == Statuses(m) && event.paymentID == p.id && event.status == p.status.Text()
    ensures Replay(log + [event]) == Statuses(m[p.id := p])
  {
    LogSnoc(log, event);
    assert Statuses(m[p.id := p]) == Statuses(m)[p.id := p.status.Text()];
  }

  lemma AddedKeepsLog(c: Config, s: State, ch: Change, env: CreateEnv)
    requires s.store.Memory? && ch.Added? && IsAdded(c, s, ch, env) && ch.p.id !in s.store.payments
    requires LogTells(s.store.payments, s.log)
    ensures LogTells(Changed(s, ch).store.payments, Changed(s, ch).log)
  {
    NewPaymentKeepsLog(s.store.payments, s.log, ch.p, ch.event);
  }

  lemma MovedKeepsLog(c: Config, s: State, clock: int, ch: Change, e: DomainEvent, env: EventEnv)
    requires s.store.Memory? && ch.Moved? && IsMoved(c, s, ch, e, env)
    requires WellKept(s.store.payments, clock) && LogTells(s.store.payments, s.log)
    ensures LogTells(Changed(s, ch).store.payments, Changed(s, ch).log)
  {
    SettledPaymentKeepsLog(s.store.payments, s.log, ch.p, ch.event);
  }

  lemma ChangeKeepsReplay(c: Config, s: State, call: Call, ch: Change)
    requires s.store.Memory? && IsChange(c, s, call, ch) && Replay(s.log) == Statuses(s.store.payments)
    ensures Replay(Changed(s, ch).log) == Statuses(Changed(s, ch).store.payments)
  {
    if ch.Added? || ch.Moved? {
      WriteKeepsReplay(s.store.payments, s.log, ch.p, ch.event);
    }
  }

  lemma CallKeepsGood(c: Config, s: State, clock: int, call: Call)
    requires Good(s, clock) && Sensible(s, clock, call)
    ensures Good(Next(c, s, call), ClockAfter(call))
  {
    var ch := CallChanges(c, s, clock, call);
    ChangeKeepsKept(c, s, clock, call, ch);
    ChangeKeepsKeys(c, s, call, ch);
    ChangeKeepsReplay(c, s, call, ch);
    match call
    case CreateCall(_, env) =>
      if ch.Added? {
        AddedKeepsLog(c, s, ch, env);
      }
    case EventCall(e, env) =>
      if ch.Moved? {
        MovedKeepsLog(c, s, clock, ch, e, env);
      }
  }

  /** The clock at the end of a run. */
  function EndClock(clock: int, calls: seq<Call>): int
    decreases |calls|
  {
    if calls == [] then clock else EndClock(ClockAfter(calls[0]), calls[1..])
  }

  /** The invariants hold after every serial run. In particular, for every payment the log
      is `payment.created` followed by at most one terminal event, and replaying the log
      rebuilds exactly the statuses in the store. */
  lemma {:induction false} RunKeepsGood(c: Config, s: State, clock: int, calls: seq<Call>)
    requires Good(s, clock) && SensibleRun(c, s, clock, calls)
    ensures Good(Run(c, s, calls), EndClock(clock, calls))
    decreases |calls|
  {
    if calls == [] {
    } else {
      CallKeepsGood(c, s, clock, calls[0]);
      RunKeepsGood(c, Next(c, s, calls[0]), ClockAfter(calls[0]), calls[1..]);
    }
  }
}
