/** What is published: the event that a call adds to the log, field by field, and which event
    is the last one about a settled payment after a serial run over either repository.
 */
module Announcements {
  import opened Options
  import opened Events
  import opened Entity
  import opened Storage
  import opened Service
  import opened SerialRuns
  import Delivery
  import Refinement
  import TableDelivery
  import TableRuns

  /** A known event type is "payment." and the name of the status it asks for. */
  lemma TypesNameStatuses(eventType: string)
    ensures Target(eventType).Some? <==> eventType in {"payment.completed", "payment.failed", "payment.cancelled"}
    ensures Target(eventType).Some? ==> "payment." + Target(eventType).value.Text() == eventType
    ensures Target(eventType) == Some(Completed) <==> eventType == "payment.completed"
    ensures Target(eventType) == Some(Failed) <==> eventType == "payment.failed"
    ensures Target(eventType) == Some(Cancelled) <==> eventType == "payment.cancelled"
  {
  }

  /** The event tells of this payment, published by this provider under this id at this time. */
  ghost predicate Names(event: PaymentEvent, p: Snapshot, provider: string, eventID: string, published: int) {
    && event.paymentID == p.id && event.amount == p.amount && event.currency == p.currency
    && event.provider == provider && event.eventID == eventID && event.createdAt == published
  }

  lemma SettleAnnounces(c: Config, s: State, id: string, e: DomainEvent, to: Status, env: EventEnv)
    requires id in s.store.Ids() && Target(e.eventType) == Some(to)
    ensures var after := Settle(c, s, id, e, to, env).0;
            after == s ||
            (&& |after.log| == |s.log| + 1 && after.log[..|s.log|] == s.log && after.calls == s.calls
             && var event := after.log[|s.log|];
                && event.eventType == e.eventType && "payment." + event.status == e.eventType
                && Names(event, s.store.Get(id), c.provider, env.eventID, env.published))
  {
    TypesNameStatuses(e.eventType);
    assert s.store.Get(id).id == id || s.store.Memory?;
    var p := Settled(s.store.Get(id), e, to, env.settled);
    assert p.id == s.store.Get(id).id;
  }

  /** When ProcessEvent changes anything it adds one event to the log: its type is the type of
      the event delivered, which is "payment." and its status; and it carries the payment's
      id, amount and currency, the provider, the new event id and the time. */
  lemma ProcessAnnounces(c: Config, s: State, e: DomainEvent, env: EventEnv)
    requires Process(c, s, e, env).0 != s
    ensures var after, resolution := Process(c, s, e, env).0, Resolve(s.store, e, env);
            && resolution.Resolved? && resolution.id in s.store.Ids()
            && |after.log| == |s.log| + 1 && after.log[..|s.log|] == s.log && after.calls == s.calls
            && var event := after.log[|s.log|];
               && event.eventType == e.eventType && "payment." + event.status == e.eventType
               && Names(event, s.store.Get(resolution.id), c.provider, env.eventID, env.published)
  {
    var id := Resolve(s.store, e, env).id;
    SettleAnnounces(c, s, id, e, Target(e.eventType).value, env);
  }

  /** The payment that an event settles takes the status the event names, the event's
      reference if it has one, and the time of the change; nothing else of it changes. */
  lemma ProcessSettles(c: Config, s: State, e: DomainEvent, env: EventEnv)
    requires s.store.Memory? && Process(c, s, e, env).0 != s
    requires forall id | id in s.store.payments :: s.store.payments[id].id == id
    ensures var after, id := Process(c, s, e, env).0, Resolve(s.store, e, env).id;
            && id in s.store.payments && after.store.Memory? && id in after.store.payments
            && (forall other | other in s.store.payments && other != id ::
                  other in after.store.payments && after.store.payments[other] == s.store.payments[other])
            && var p, q := s.store.payments[id], after.store.payments[id];
               && q == p.(status := q.status, transactionID := q.transactionID, updatedAt := env.settled)
               && (e.eventType == "payment.completed" ==> q.status == Completed)
               && (e.eventType == "payment.failed" ==> q.status == Failed)
               && (e.eventType == "payment.cancelled" ==> q.status == Cancelled)
               && (e.transactionID != "" ==> q.transactionID == e.transactionID)
               && (e.transactionID == "" ==> q.transactionID == p.transactionID)
  {
    TypesNameStatuses(e.eventType);
  }

  /** The same over the table; the time is kept to the microsecond. */
  lemma ProcessSettlesRow(c: Config, s: State, e: DomainEvent, env: EventEnv)
    requires s.store.Table? && Process(c, s, e, env).0 != s
    ensures var after, id := Process(c, s, e, env).0, Resolve(s.store, e, env).id;
            && id in s.store.rows && after.store.Table? && id in after.store.rows
            && (forall other | other in s.store.rows && other != id ::
                  other in after.store.rows && after.store.rows[other] == s.store.rows[other])
            && var p, q := s.store.rows[id], after.store.rows[id];
               && q == p.(status := q.status, transactionID := q.transactionID, updatedMicros := q.updatedMicros)
               && 0 <= env.settled - 1000 * q.updatedMicros < 1000
               && (e.eventType == "payment.completed" ==> q.status == Completed)
               && (e.eventType == "payment.failed" ==> q.status == Failed)
               && (e.eventType == "payment.cancelled" ==> q.status == Cancelled)
               && (e.transactionID != "" ==> q.transactionID == Some(e.transactionID))
               && (e.transactionID == "" && p.transactionID != Some("") ==> q.transactionID == p.transactionID)
  {
    TypesNameStatuses(e.eventType);
  }

  /** An event of an unknown type changes nothing: if it is resolved to a payment the error
      names its type, otherwise it is the error of the lookup. */
  lemma UnknownTypeIsRefused(c: Config, s: State, e: DomainEvent, env: EventEnv)
    requires e.eventType !in {"payment.completed", "payment.failed", "payment.cancelled"}
    ensures var (after, err) := Process(c, s, e, env);
            && after == s
            && match Resolve(s.store, e, env)
               case Unresolved(error) => err == Some(error)
               case Resolved(id) => id in s.store.Ids() ==> err == Some(UnknownEventType(e.eventType))
  {
    TypesNameStatuses(e.eventType);
  }

  lemma StoreAnnounces(c: Config, s: State, p: Snapshot, env: CreateEnv)
    ensures var (after, _, err) := Store(c, s, p, env);
            && (err.Some? ==> after.log == s.log)
            && (err.None? ==>
                  && |after.log| == |s.log| + 1 && after.log[..|s.log|] == s.log
                  && var event := after.log[|s.log|];
                     && event.eventType == "payment.created" && event.status == p.status.Text()
                     && Names(event, p, c.provider, env.eventID, env.published))
  {
  }

  /** When CreatePayment adds to the log it adds one event: `payment.created`, with the literal
      status "pending", the new id, the request's amount and its upper-cased currency. */
  lemma CreateAnnounces(c: Config, s: State, req: Snapshot, env: CreateEnv)
    requires Create(c, s, req, env).0.log != s.log
    ensures var after := Create(c, s, req, env).0;
            && |after.log| == |s.log| + 1 && after.log[..|s.log|] == s.log
            && var event := after.log[|s.log|];
               && event.eventType == "payment.created" && event.status == "pending"
               && event.paymentID == env.id && event.amount == req.amount && event.currency == c.rules.upper(req.currency)
               && event.provider == c.provider && event.eventID == env.eventID && event.createdAt == env.published
  {
    var p := Build(c, req, env).payment.(transactionID := env.reply.transactionID);
    StoreAnnounces(c, s.(calls := s.calls + [ProviderCall(RequestFor(Build(c, req, env).payment), true)]), p, env);
  }

  // ----- Runs over the in-memory store -----

  /** The first known event of a run that is resolved to this payment. */
  function FirstEvent(c: Config, s: State, calls: seq<Call>, id: string): Option<DomainEvent>
    decreases |calls|
  {
    if calls == [] then None else
      match calls[0]
      case EventCall(e, env) =>
        if Target(e.eventType).Some? && Resolve(s.store, e, env) == Resolved(id) then Some(e)
        else FirstEvent(c, Next(c, s, calls[0]), calls[1..], id)
      case CreateCall(_, _) => FirstEvent(c, Next(c, s, calls[0]), calls[1..], id)
  }

  lemma {:induction false} FirstEventDecides(c: Config, s: State, calls: seq<Call>, id: string)
    ensures var first := FirstEvent(c, s, calls, id);
            Delivery.FirstDelivery(c, s, calls, id) == if first.Some? then Target(first.value.eventType) else None
    decreases |calls|
  {
    if calls == [] {
    } else {
      FirstEventDecides(c, Next(c, s, calls[0]), calls[1..], id);
    }
  }

  function LastOf(events: seq<PaymentEvent>): Option<PaymentEvent> {
    if events == [] then None else Some(events[|events| - 1])
  }

  /** What the last event of a history says: the type that asked for the status, or creation. */
  lemma LastOfHistory(events: seq<PaymentEvent>, p: Snapshot, eventType: string)
    requires History(events, p)
    requires if p.status == Pending then eventType == "payment.pending" else Target(eventType) == Some(p.status)
    ensures var last := LastOf(events);
            && last.Some? && "payment." + last.value.status == eventType
            && last.value.eventType == (if p.status == Pending then "payment.created" else eventType)
  {
    if p.status != Pending {
      TypesNameStatuses(eventType);
    }
  }

  /** After a serial run over the in-memory store the last event published about a payment has
      the type of the first event that was resolved to it, and is `payment.created` if there
      was none. */
  lemma LastEventIsFirstResolved(c: Config, s: State, clock: int, calls: seq<Call>, id: string)
    requires Good(s, clock) && SensibleRun(c, s, clock, calls)
    requires Delivery.StatusOf(s, id).None? || Delivery.StatusOf(s, id) == Some(Pending)
    ensures var end, first := Run(c, s, calls), FirstEvent(c, s, calls, id);
            && end.store.Memory?
            && (first.Some? ==> id in end.store.payments)
            && (id in end.store.payments ==>
                  var last := LastOf(LogOf(end.log, id));
                  && last.Some?
                  && last.value.eventType == (if first.Some? then first.value.eventType else "payment.created")
                  && "payment." + last.value.status == (if first.Some? then first.value.eventType else "payment.pending"))
  {
    var end, first := Run(c, s, calls), FirstEvent(c, s, calls, id);
    FirstEventDecides(c, s, calls, id);
    Delivery.FirstWriterWins(c, s, clock, calls, id);
    RunKeepsGood(c, s, clock, calls);
    if first.Some? {
      FirstEventIsKnown(c, s, calls, id);
    }
    if id in end.store.payments {
      LastOfHistory(LogOf(end.log, id), end.store.payments[id], if first.Some? then first.value.eventType else "payment.pending");
    }
  }

  lemma {:induction false} FirstEventIsKnown(c: Config, s: State, calls: seq<Call>, id: string)
    requires FirstEvent(c, s, calls, id).Some?
    ensures Target(FirstEvent(c, s, calls, id).value.eventType).Some?
    decreases |calls|
  {
    if calls[0].EventCall? && Target(calls[0].e.eventType).Some? && Resolve(s.store, calls[0].e, calls[0].ev) == Resolved(id) {
    } else {
      FirstEventIsKnown(c, Next(c, s, calls[0]), calls[1..], id);
    }
  }

  // ----- Runs over the table -----

  /** The first event of a run that is applied to this payment and answered with success. */
  function FirstSaved(c: Config, s: State, calls: seq<Call>, id: string): Option<DomainEvent>
    decreases |calls|
  {
    if calls == [] then None else
      match calls[0]
      case EventCall(e, env) =>
        if Target(e.eventType).Some? && Resolve(s.store, e, env) == Resolved(id) && Process(c, s, e, env).1.None? then Some(e)
        else FirstSaved(c, Next(c, s, calls[0]), calls[1..], id)
      case CreateCall(_, _) => FirstSaved(c, Next(c, s, calls[0]), calls[1..], id)
  }

  lemma {:induction false} FirstSavedDecides(c: Config, s: State, calls: seq<Call>, id: string)
    ensures var first := FirstSaved(c, s, calls, id);
            && TableDelivery.FirstApplied(c, s, calls, id) == (if first.Some? then Target(first.value.eventType) else None)
            && (first.Some? ==> Target(first.value.eventType).Some?)
    decreases |calls|
  {
    if calls == [] {
    } else {
      FirstSavedDecides(c, Next(c, s, calls[0]), calls[1..], id);
    }
  }

  lemma RowHasHistory(s: State, clock: int, id: string)
    requires TableRuns.TableGood(s, clock) && id in s.store.rows
    ensures exists p: Snapshot :: History(LogOf(s.log, id), p) && p.status == s.store.rows[id].status
  {
    var p := TableRuns.View(s.store.rows)[id];
    assert History(LogOf(s.log, id), p);
  }

  lemma LastOfRow(s: State, clock: int, id: string, eventType: string)
    requires TableRuns.TableGood(s, clock) && id in s.store.rows
    requires var status := s.store.rows[id].status;
             if status == Pending then eventType == "payment.pending" else Target(eventType) == Some(status)
    ensures var last := LastOf(LogOf(s.log, id));
            && last.Some? && "payment." + last.value.status == eventType
            && last.value.eventType == (if s.store.rows[id].status == Pending then "payment.created" else eventType)
  {
    RowHasHistory(s, clock, id);
    var p: Snapshot :| History(LogOf(s.log, id), p) && p.status == s.store.rows[id].status;
    LastOfHistory(LogOf(s.log, id), p, eventType);
  }

  /** The last event about row `id` has the type of this event, or is `payment.created`. */
  ghost predicate LastIs(s: State, id: string, first: Option<DomainEvent>) {
    && s.store.Table?
    && (first.Some? ==> id in s.store.rows)
    && (id in s.store.rows ==>
          var last := LastOf(LogOf(s.log, id));
          && last.Some?
          && last.value.eventType == (if first.Some? then first.value.eventType else "payment.created")
          && "payment." + last.value.status == (if first.Some? then first.value.eventType else "payment.pending"))
  }

  lemma StatusTellsLast(s: State, clock: int, id: string, first: Option<DomainEvent>)
    requires TableRuns.TableGood(s, clock) && (first.Some? ==> Target(first.value.eventType).Some?)
    requires var status, end := if first.Some? then Target(first.value.eventType) else None, TableDelivery.StatusIn(s, id);
             end == Some(Delivery.OrPending(status)) || (end.None? && status.None?)
    ensures LastIs(s, id, first)
  {
    if first.Some? {
      KnownIsTerminal(first.value.eventType);
    }
    if id in s.store.rows {
      LastOfRow(s, clock, id, if first.Some? then first.value.eventType else "payment.pending");
    }
  }

  lemma KnownIsTerminal(eventType: string)
    ensures Target(eventType).Some? ==> Target(eventType).value.Terminal()
  {
  }

  /** After a serial run over the table, with any outages, the last event published about a
      payment has the type of the first event that was applied to it and saved, and is
      `payment.created` if there was none; its status says the same. */
  lemma LastEventIsFirstSaved(c: Config, s: State, clock: int, calls: seq<Call>, id: string)
    requires TableRuns.TableGood(s, clock) && Refinement.ThreeLetterCodes(c) && SensibleRun(c, s, clock, calls)
    requires TableDelivery.StatusIn(s, id).None? || TableDelivery.StatusIn(s, id) == Some(Pending)
    ensures LastIs(Run(c, s, calls), id, FirstSaved(c, s, calls, id))
  {
    FirstSavedDecides(c, s, calls, id);
    TableDelivery.FirstSavedWins(c, s, clock, calls, id);
    TableRuns.RunKeepsTable(c, s, clock, calls);
    StatusTellsLast(Run(c, s, calls), EndClock(clock, calls), id, FirstSaved(c, s, calls, id));
  }
}
