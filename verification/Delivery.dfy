/** Delivery of provider events in serial runs: the first event that reaches a payment
    decides its status for ever, and delivering it again changes nothing.
 */
module Delivery {
  import opened Options
  import opened Events
  import opened Entity
  import opened Storage
  import opened Service
  import opened SerialRuns

  // ----- What never changes -----

  /** What may differ between a payment now and the same payment later. */
  ghost predicate Evolves(p: Snapshot, later: Snapshot) {
    && later == p.(status := later.status, transactionID := later.transactionID, updatedAt := later.updatedAt)
    && (p.status.Terminal() ==> later == p)
    && (later.status == Pending ==> later == p)
  }

  /** No payment is ever removed; its amount, currency, customer, description, key and
      creation time never change; and once its status is terminal nothing changes at all. */
  lemma {:induction false} PaymentsEvolve(c: Config, s: State, clock: int, calls: seq<Call>, id: string)
    requires Good(s, clock) && SensibleRun(c, s, clock, calls) && id in s.store.payments
    ensures Run(c, s, calls).store.Memory? && id in Run(c, s, calls).store.payments
    ensures Evolves(s.store.payments[id], Run(c, s, calls).store.payments[id])
    decreases |calls|
  {
    if calls == [] {
    } else {
      var ch := CallChanges(c, s, clock, calls[0]);
      CallKeepsGood(c, s, clock, calls[0]);
      PaymentsEvolve(c, Next(c, s, calls[0]), ClockAfter(calls[0]), calls[1..], id);
    }
  }

  // ----- Errors and repetitions change nothing -----

  /** ProcessEvent changes something exactly when it resolves to a pending payment and knows
      the event type; whenever it fails, nothing at all has changed, although the method
      works on the very objects of the store. */
  lemma EventChangesIff(c: Config, s: State, clock: int, e: DomainEvent, env: EventEnv)
    requires Good(s, clock)
    ensures var (after, err) := Process(c, s, e, env);
            && (after != s <==>
                  && Target(e.eventType).Some?
                  && Resolve(s.store, e, env).Resolved?
                  && Resolve(s.store, e, env).id in s.store.payments
                  && s.store.payments[Resolve(s.store, e, env).id].status == Pending)
            && (err.Some? ==> after == s)
  {
    var ch := EventChanges(c, s, clock, e, env);
    if ch.Moved? {
      assert |Process(c, s, e, env).0.log| == |s.log| + 1;
    }
  }

  /** Nothing in the store carries the event's provider reference and is still pending. */
  ghost predicate NoPendingRef(m: Payments, ref: string) {
    forall id | id in m && m[id].transactionID == ref :: m[id].status != Pending
  }

  /** The guard under which delivering an event is sure to change nothing. */
  ghost predicate Spent(m: Payments, e: DomainEvent) {
    if e.paymentID in m then m[e.paymentID].status != Pending
    else e.transactionID != "" ==> NoPendingRef(m, e.transactionID)
  }

  ghost predicate ChangesNothing(c: Config, s: State, e: DomainEvent) {
    forall env: EventEnv | IsOrder(env.order, s.store) :: Process(c, s, e, env).0 == s
  }

  lemma SpentChangesNothing(c: Config, s: State, clock: int, e: DomainEvent)
    requires Good(s, clock) && Spent(s.store.payments, e)
    ensures ChangesNothing(c, s, e)
  {
    forall env: EventEnv | IsOrder(env.order, s.store)
      ensures Process(c, s, e, env).0 == s
    {
      EventChangesIff(c, s, clock, e, env);
      FindFinds(s.store, env.order, ByRef, e.transactionID);
    }
  }

  /** Visiting a pending payment with the event's reference first settles it. */
  lemma PendingRefIsSettled(c: Config, s: State, clock: int, e: DomainEvent, id: string, order: seq<string>)
    requires Good(s, clock) && Target(e.eventType).Some? && IsOrder(order, s.store)
    requires id in s.store.payments && s.store.payments[id].status == Pending
    requires id == e.paymentID || (e.paymentID !in s.store.payments && s.store.payments[id].transactionID == e.transactionID != "")
    ensures !ChangesNothing(c, s, e)
  {
    var env := EventEnv([id] + order, false, false, clock, clock, false, "", clock);
    assert IsOrder(env.order, s.store);
    assert Resolve(s.store, e, env) == Resolved(id);
    EventChangesIff(c, s, clock, e, env);
  }

  /** A known event changes nothing, in whatever order the map is visited, exactly when the
      payment it names is settled or, if it names none, no pending payment carries its
      provider reference. */
  lemma DeliveryChangesNothingIff(c: Config, s: State, clock: int, e: DomainEvent, order: seq<string>)
    requires Good(s, clock) && Target(e.eventType).Some? && IsOrder(order, s.store)
    ensures ChangesNothing(c, s, e) <==> Spent(s.store.payments, e)
  {
    var m := s.store.payments;
    if Spent(m, e) {
      SpentChangesNothing(c, s, clock, e);
    } else if e.paymentID in m {
      PendingRefIsSettled(c, s, clock, e, e.paymentID, order);
    } else {
      var id :| id in m && m[id].transactionID == e.transactionID && m[id].status == Pending;
      PendingRefIsSettled(c, s, clock, e, id, order);
    }
  }

  // ----- Delivering an event again -----

  ghost predicate RefsUnique(m: Payments) {
    forall id, id' | id in m && id' in m && m[id].transactionID == m[id'].transactionID != "" :: id == id'
  }

  /** After an event has been resolved to a payment and applied or refused, that payment is
      settled; and if it was found by its provider reference it still carries it. */
  lemma DeliverySettles(c: Config, s: State, clock: int, e: DomainEvent, env: EventEnv)
    requires Good(s, clock) && Target(e.eventType).Some? && IsOrder(env.order, s.store)
    requires Resolve(s.store, e, env).Resolved?
    ensures var id, after := Resolve(s.store, e, env).id, Process(c, s, e, env).0;
            && after.store.Memory? && id in s.store.payments && id in after.store.payments
            && after.store.payments[id].status.Terminal()
            && (id != e.paymentID ==> e.transactionID != "" && after.store.payments[id].transactionID == e.transactionID)
  {
    var ch := EventChanges(c, s, clock, e, env);
    FindFinds(s.store, env.order, ByRef, e.transactionID);
  }

  /** Redelivery: an event that was once resolved to a payment, delivered again after any
      further run, leaves the store and the log unchanged, provided that no later payment
      took the unknown id it names and provider references are unique. */
  lemma RedeliveryChangesNothing(c: Config, s: State, clock: int, e: DomainEvent, env: EventEnv, calls: seq<Call>)
    requires Good(s, clock) && Target(e.eventType).Some?
    requires Sensible(s, clock, EventCall(e, env)) && Resolve(s.store, e, env).Resolved?
    requires var after := Process(c, s, e, env).0;
             && SensibleRun(c, after, env.settled, calls)
             && Run(c, after, calls).store.Memory?
             && var m := Run(c, after, calls).store.payments;
                (e.paymentID == Resolve(s.store, e, env).id || (e.paymentID !in m && RefsUnique(m)))
    ensures ChangesNothing(c, Run(c, Process(c, s, e, env).0, calls), e)
  {
    var after := Process(c, s, e, env).0;
    var id := Resolve(s.store, e, env).id;
    assert after == Next(c, s, EventCall(e, env));
    CallKeepsGood(c, s, clock, EventCall(e, env));
    DeliverySettles(c, s, clock, e, env);
    PaymentsEvolve(c, after, env.settled, calls, id);
    RunKeepsGood(c, after, env.settled, calls);
    SpentChangesNothing(c, Run(c, after, calls), EndClock(env.settled, calls), e);
  }

  /** What ProcessEvent answers about a settled payment. */
  function AnswerFor(status: Status, to: Status): Option<Error> {
    if status == to then None else Some(StateMachine(status, to))
  }

  lemma DeliveryAnswers(c: Config, s: State, clock: int, e: DomainEvent, env: EventEnv)
    requires Good(s, clock) && Target(e.eventType).Some? && IsOrder(env.order, s.store)
    requires Resolve(s.store, e, env).Resolved?
    ensures var (after, err) := Process(c, s, e, env);
            && after.store.Memory? && Resolve(s.store, e, env).id in after.store.payments
            && err == AnswerFor(after.store.payments[Resolve(s.store, e, env).id].status, Target(e.eventType).value)
  {
    var ch := EventChanges(c, s, clock, e, env);
    FindFinds(s.store, env.order, ByRef, e.transactionID);
  }

  /** An event that names a stored payment, or else carries its unique reference, is resolved to it. */
  lemma ResolvesAgain(s: State, e: DomainEvent, env: EventEnv, id: string)
    requires s.store.Memory? && IsOrder(env.order, s.store) && id in s.store.payments
    requires id == e.paymentID
             || (e.paymentID !in s.store.payments && RefsUnique(s.store.payments)
                 && s.store.payments[id].transactionID == e.transactionID != "")
    ensures Resolve(s.store, e, env) == Resolved(id)
  {
    FindFinds(s.store, env.order, ByRef, e.transactionID);
    if id != e.paymentID {
      assert Carries(s.store, id, ByRef, e.transactionID);
    }
  }

  /** A replayed event is answered as it was the first time: success after success, and the
      same state machine error after an error. */
  lemma RedeliveryAnswersTheSame(c: Config, s: State, clock: int, e: DomainEvent, env: EventEnv, calls: seq<Call>, env': EventEnv)
    requires Good(s, clock) && Target(e.eventType).Some?
    requires Sensible(s, clock, EventCall(e, env)) && Resolve(s.store, e, env).Resolved?
    requires SensibleRun(c, Process(c, s, e, env).0, env.settled, calls)
    requires var end := Run(c, Process(c, s, e, env).0, calls);
             && end.store.Memory? && IsOrder(env'.order, end.store)
             && (e.paymentID == Resolve(s.store, e, env).id || (e.paymentID !in end.store.payments && RefsUnique(end.store.payments)))
    ensures Process(c, Run(c, Process(c, s, e, env).0, calls), e, env').1 == Process(c, s, e, env).1
  {
    var after := Process(c, s, e, env).0;
    var id, end := Resolve(s.store, e, env).id, Run(c, after, calls);
    assert after == Next(c, s, EventCall(e, env));
    CallKeepsGood(c, s, clock, EventCall(e, env));
    DeliverySettles(c, s, clock, e, env);
    DeliveryAnswers(c, s, clock, e, env);
    PaymentsEvolve(c, after, env.settled, calls, id);
    RunKeepsGood(c, after, env.settled, calls);
    ResolvesAgain(end, e, env', id);
    DeliveryAnswers(c, end, EndClock(env.settled, calls), e, env');
    RedeliveryChangesNothing(c, s, clock, e, env, calls);
  }

  // ----- First writer wins -----

  /** The payment and status an event call is resolved to. */
  function DeliveredTo(s: State, call: Call): Option<(string, Status)> {
    match call
    case CreateCall(_, _) => None
    case EventCall(e, env) =>
      match (Target(e.eventType), Resolve(s.store, e, env))
      case (Some(to), Resolved(id)) => Some((id, to))
      case _ => None
  }

  /** The status asked for by the first event of a run that is resolved to this payment. */
  function FirstDelivery(c: Config, s: State, calls: seq<Call>, id: string): Option<Status>
    decreases |calls|
  {
    if calls == [] then None else
      var delivered := DeliveredTo(s, calls[0]);
      if delivered.Some? && delivered.value.0 == id then Some(delivered.value.1)
      else FirstDelivery(c, Next(c, s, calls[0]), calls[1..], id)
  }

  function StatusOf(s: State, id: string): Option<Status> {
    if s.store.Memory? && id in s.store.payments then Some(s.store.payments[id].status) else None
  }

  /** A pending payment is settled by an event resolved to it and by nothing else; events are
      never resolved to an unknown payment, and new payments are pending. */
  ghost predicate SettledBy(before: Option<Status>, delivered: Option<(string, Status)>, id: string, after: Option<Status>) {
    var hit := delivered.Some? && delivered.value.0 == id;
    && (before == Some(Pending) ==> after == if hit then Some(delivered.value.1) else before)
    && (before.None? ==> !hit && (after.None? || after == Some(Pending)))
  }

  lemma CreateSettlesNothing(c: Config, s: State, clock: int, req: Snapshot, env: CreateEnv, id: string)
    requires Good(s, clock) && Sensible(s, clock, CreateCall(req, env))
    ensures SettledBy(StatusOf(s, id), None, id, StatusOf(Create(c, s, req, env).0, id))
  {
    var ch := CreateChanges(c, s, clock, req, env);
  }

  lemma DeliveredIsStored(s: State, e: DomainEvent, env: EventEnv)
    requires s.store.Memory? && IsOrder(env.order, s.store) && DeliveredTo(s, EventCall(e, env)).Some?
    ensures var (id, to) := DeliveredTo(s, EventCall(e, env)).value;
            id in s.store.payments && Target(e.eventType) == Some(to) && Resolve(s.store, e, env) == Resolved(id)
  {
    FindFinds(s.store, env.order, ByRef, e.transactionID);
  }

  lemma EventSettlesIff(c: Config, s: State, clock: int, e: DomainEvent, env: EventEnv, id: string)
    requires Good(s, clock) && Sensible(s, clock, EventCall(e, env))
    ensures SettledBy(StatusOf(s, id), DeliveredTo(s, EventCall(e, env)), id, StatusOf(Process(c, s, e, env).0, id))
  {
    var ch := EventChanges(c, s, clock, e, env);
    EventChangesIff(c, s, clock, e, env);
    var delivered := DeliveredTo(s, EventCall(e, env));
    if delivered.Some? {
      DeliveredIsStored(s, e, env);
    }
  }

  lemma CallSettlesIff(c: Config, s: State, clock: int, call: Call, id: string)
    requires Good(s, clock) && Sensible(s, clock, call)
    ensures SettledBy(StatusOf(s, id), DeliveredTo(s, call), id, StatusOf(Next(c, s, call), id))
  {
    match call
    case CreateCall(req, env) => CreateSettlesNothing(c, s, clock, req, env, id);
    case EventCall(e, env) => EventSettlesIff(c, s, clock, e, env, id);
  }

  /** A settled payment keeps its status for the rest of the run. */
  lemma SettledForGood(c: Config, s: State, clock: int, calls: seq<Call>, id: string)
    requires Good(s, clock) && SensibleRun(c, s, clock, calls)
    requires StatusOf(s, id).Some? && StatusOf(s, id).value.Terminal()
    ensures StatusOf(Run(c, s, calls), id) == StatusOf(s, id)
  {
    PaymentsEvolve(c, s, clock, calls, id);
  }

  function OrPending(first: Option<Status>): Status {
    if first.Some? then first.value else Pending
  }

  /** A payment's status at the end of a run that starts before it is settled is that of the
      first event resolved to it, by id or by reference; later ones change nothing. Only a
      payment that was not stored, and to which no event was resolved, can be missing. */
  lemma {:induction false} FirstWriterWins(c: Config, s: State, clock: int, calls: seq<Call>, id: string)
    requires Good(s, clock) && SensibleRun(c, s, clock, calls)
    requires StatusOf(s, id).None? || StatusOf(s, id) == Some(Pending)
    ensures var end, first := StatusOf(Run(c, s, calls), id), FirstDelivery(c, s, calls, id);
            end == Some(OrPending(first)) || (end.None? && StatusOf(s, id).None? && first.None?)
    decreases |calls|
  {
    if calls == [] {
    } else {
      var next := Next(c, s, calls[0]);
      CallSettlesIff(c, s, clock, calls[0], id);
      CallKeepsGood(c, s, clock, calls[0]);
      if StatusOf(next, id).Some? && StatusOf(next, id).value != Pending {
        TargetsAreTerminal(s, calls[0]);
        SettledForGood(c, next, ClockAfter(calls[0]), calls[1..], id);
      } else {
        TargetsAreTerminal(s, calls[0]);
        FirstWriterWins(c, next, ClockAfter(calls[0]), calls[1..], id);
      }
    }
  }

  lemma TargetsAreTerminal(s: State, call: Call)
    ensures DeliveredTo(s, call).Some? ==> DeliveredTo(s, call).value.1.Terminal()
  {
  }
}
