/** Whole serial runs of the payment service over the PostgreSQL table, with any outages: a
    save that the database refuses, or does not answer, publishes nothing.

    Currency codes have three letters, so that CHAR(3) gives back what was stored.
 */
module TableRuns {
  import opened Options
  import opened Events
  import opened Entity
  import opened Storage
  import opened Service
  import opened SerialRuns
  import Delivery
  import Money
  import Refinement

  /** The payments that can be read from the rows. */
  function View(rows: Rows): Payments {
    map id | id in rows :: Scan(id, rows[id])
  }

  /** One row was written and one event published. */
  datatype Write = Write(p: Snapshot, event: PaymentEvent)

  ghost predicate IsCreation(m: Payments, w: Write) {
    && w.p.id !in m && w.p.status == Pending && w.event.eventType == CREATED
    && (w.p.idempotencyKey != "" ==> forall id | id in m :: m[id].idempotencyKey != w.p.idempotencyKey)
  }

  ghost predicate IsSettlement(m: Payments, w: Write) {
    && w.p.id in m && m[w.p.id].status == Pending && w.p.status.Terminal()
    && w.p == m[w.p.id].(status := w.p.status, transactionID := w.p.transactionID, updatedAt := w.p.updatedAt)
    && w.event.eventType == "payment." + w.p.status.Text()
  }

  /** What a call can write: a new pending payment, or a settled one; its reference is not
      that of another payment, and the event tells of it. */
  ghost predicate IsWrite(m: Payments, w: Write, clock: int) {
    && (IsCreation(m, w) || IsSettlement(m, w))
    && TellsOf(w.event, w.p, w.p.status)
    && 0 < w.p.amount && ValidCustomer(w.p.customerID) && w.p.description != ""
    && w.p.createdAt <= w.p.updatedAt <= clock
    && (w.p.transactionID != "" ==> forall id | id in m && id != w.p.id :: m[id].transactionID != w.p.transactionID)
  }

  /** The state after the call: nothing was written and announced, or one payment was. */
  ghost predicate Wrote(s: State, after: State, w: Option<Write>, clock: int) {
    && s.store.Table? && after.store.Table?
    && match w
       case None => after.store == s.store && after.log == s.log
       case Some(w) =>
         && IsWrite(View(s.store.rows), w, clock)
         && View(after.store.rows) == View(s.store.rows)[w.p.id := w.p] && after.log == s.log + [w.event]
  }

  /** As for the in-memory store: payments are well kept, keys and references unique, the log
      of each payment is `payment.created` and at most one terminal event, and the replay of
      the log is the stored statuses. */
  ghost predicate TableGood(s: State, clock: int) {
    && s.store.Table?
    && var m := View(s.store.rows);
       && WellKept(m, clock) && KeysUnique(m) && Delivery.RefsUnique(m)
       && LogTells(m, s.log) && Replay(s.log) == Statuses(m)
  }

  // ----- What one call writes -----

  lemma UpsertViews(rows: Rows, p: Snapshot)
    requires Upsert(rows, p).Some?
    ensures var after := Upsert(rows, p).value;
            p.id in after && View(after) == View(rows)[p.id := Scan(p.id, after[p.id])]
  {
  }

  lemma RefIsFree(rows: Rows, p: Snapshot)
    requires Upsert(rows, p).Some? && p.transactionID != ""
    ensures forall id | id in View(rows) && id != p.id :: View(rows)[id].transactionID != p.transactionID
  {
    forall id | id in rows && id != p.id
      ensures View(rows)[id].transactionID != p.transactionID
    {
      assert rows[id].transactionID != NullString(p.transactionID);
    }
  }

  lemma KeyIsFree(rows: Rows, p: Snapshot)
    requires Upsert(rows, p).Some? && p.id !in rows && p.idempotencyKey != ""
    ensures forall id | id in View(rows) :: View(rows)[id].idempotencyKey != p.idempotencyKey
  {
    forall id | id in rows
      ensures View(rows)[id].idempotencyKey != p.idempotencyKey
    {
      assert rows[id].idempotencyKey != NullString(p.idempotencyKey);
    }
  }

  /** A payment that the domain has just built. */
  ghost predicate Newborn(p: Snapshot) {
    && p.status == Pending && 0 < p.amount && ValidCustomer(p.customerID) && p.description != ""
    && |p.currency| == 3 && p.paymentMethod == "" && p.createdAt <= p.updatedAt
  }

  lemma StoreWrites(c: Config, s: State, p: Snapshot, env: CreateEnv) returns (w: Option<Write>)
    requires s.store.Table? && p.id !in s.store.rows && Newborn(p)
    ensures Wrote(s, Store(c, s, p, env).0, w, p.updatedAt)
  {
    w := None;
    if s.store.Save(p, env.saveDown).Some? {
      var rows := s.store.rows;
      w := Some(Write(Refinement.AsStored(p), EventFor(c, p, CREATED, env.eventID, env.published)));
      Refinement.StoredOnce(p);
      UpsertViews(rows, p);
      if p.transactionID != "" {
        RefIsFree(rows, p);
      }
      if p.idempotencyKey != "" {
        KeyIsFree(rows, p);
      }
    }
  }

  lemma BuiltIsNewborn(c: Config, req: Snapshot, env: CreateEnv)
    requires Refinement.ThreeLetterCodes(c) && env.created <= env.updated && Build(c, req, env).Built?
    ensures var p := Build(c, req, env).payment; Newborn(p) && p.id == env.id && p.updatedAt == env.updated
  {
  }

  lemma ChargeWrites(c: Config, s: State, p: Snapshot, env: CreateEnv) returns (w: Option<Write>)
    requires s.store.Table? && p.id !in s.store.rows && Newborn(p)
    ensures Wrote(s, Charge(c, s, p, env).0, w, p.updatedAt)
  {
    w := None;
    if env.reply.Charged? {
      var charged := s.(calls := s.calls + [ProviderCall(RequestFor(p), true)]);
      w := StoreWrites(c, charged, p.(transactionID := env.reply.transactionID), env);
    }
  }

  lemma CreateWrites(c: Config, s: State, clock: int, req: Snapshot, env: CreateEnv) returns (w: Option<Write>)
    requires s.store.Table? && Refinement.ThreeLetterCodes(c) && Sensible(s, clock, CreateCall(req, env))
    ensures Wrote(s, Create(c, s, req, env).0, w, env.updated)
  {
    w := None;
    if Existing(s.store, req, env).None? && Build(c, req, env).Built? {
      BuiltIsNewborn(c, req, env);
      w := ChargeWrites(c, s, Build(c, req, env).payment, env);
    }
  }

  /** What the row of a settled payment reads as. */
  lemma SettledReads(rows: Rows, id: string, p: Snapshot)
    requires id in rows && p.id == id && Upsert(rows, p).Some?
    requires p == Scan(id, rows[id]).(status := p.status, transactionID := p.transactionID, updatedAt := p.updatedAt)
    ensures View(Upsert(rows, p).value) == View(rows)[id := p.(updatedAt := 1000 * Micros(p.updatedAt))]
  {
    UpsertViews(rows, p);
  }

  lemma SettledIsWrite(c: Config, rows: Rows, clock: int, id: string, p: Snapshot, event: PaymentEvent)
    requires WellKept(View(rows), clock) && id in rows && !rows[id].status.Terminal() && Upsert(rows, p).Some?
    requires p == Scan(id, rows[id]).(status := p.status, transactionID := p.transactionID, updatedAt := p.updatedAt)
    requires p.status.Terminal() && clock <= p.updatedAt
    requires TellsOf(event, p, p.status) && event.eventType == "payment." + p.status.Text()
    ensures IsWrite(View(rows), Write(p.(updatedAt := 1000 * Micros(p.updatedAt)), event), p.updatedAt)
  {
    assert View(rows)[id] == Scan(id, rows[id]);
    if p.transactionID != "" {
      RefIsFree(rows, p);
    }
  }

  lemma SettleWrites(c: Config, s: State, clock: int, id: string, e: DomainEvent, to: Status, env: EventEnv) returns (w: Option<Write>)
    requires TableGood(s, clock) && id in s.store.rows && to.Terminal() && clock <= env.settled
    ensures Wrote(s, Settle(c, s, id, e, to, env).0, w, env.settled)
  {
    w := None;
    var rows := s.store.rows;
    var p := Settled(Scan(id, rows[id]), e, to, env.settled);
    if !rows[id].status.Terminal() && s.store.Save(p, env.saveDown).Some? {
      var event := EventFor(c, p, "payment." + to.Text(), env.eventID, env.published);
      w := Some(Write(p.(updatedAt := 1000 * Micros(env.settled)), event));
      SettledReads(rows, id, p);
      SettledIsWrite(c, rows, clock, id, p, event);
    }
  }

  lemma EventWrites(c: Config, s: State, clock: int, e: DomainEvent, env: EventEnv) returns (w: Option<Write>)
    requires TableGood(s, clock) && clock <= env.settled
    ensures Wrote(s, Process(c, s, e, env).0, w, env.settled)
  {
    w := None;
    var resolution := Resolve(s.store, e, env);
    if resolution.Resolved? && resolution.id in s.store.rows && Target(e.eventType).Some?
       && s.store.rows[resolution.id].status != Target(e.eventType).value {
      w := SettleWrites(c, s, clock, resolution.id, e, Target(e.eventType).value, env);
    }
  }

  lemma CallWrites(c: Config, s: State, clock: int, call: Call) returns (w: Option<Write>)
    requires TableGood(s, clock) && Refinement.ThreeLetterCodes(c) && Sensible(s, clock, call)
    ensures Wrote(s, Next(c, s, call), w, ClockAfter(call)) && clock <= ClockAfter(call)
  {
    match call
    case CreateCall(req, env) => w := CreateWrites(c, s, clock, req, env);
    case EventCall(e, env) => w := EventWrites(c, s, clock, e, env);
  }

  // ----- What every call keeps -----

  lemma WriteKeepsKept(m: Payments, w: Write, clock: int, later: int)
    requires WellKept(m, clock) && KeysUnique(m) && Delivery.RefsUnique(m) && IsWrite(m, w, later) && clock <= later
    ensures WellKept(m[w.p.id := w.p], later) && KeysUnique(m[w.p.id := w.p]) && Delivery.RefsUnique(m[w.p.id := w.p])
  {
  }

  lemma WriteKeepsLog(m: Payments, log: seq<PaymentEvent>, w: Write, clock: int)
    requires LogTells(m, log) && Replay(log) == Statuses(m) && IsWrite(m, w, clock)
    ensures LogTells(m[w.p.id := w.p], log + [w.event])
    ensures Replay(log + [w.event]) == Statuses(m[w.p.id := w.p])
  {
    WriteKeepsReplay(m, log, w.p, w.event);
    if w.p.id in m {
      SettledPaymentKeepsLog(m, log, w.p, w.event);
    } else {
      NewPaymentKeepsLog(m, log, w.p, w.event);
    }
  }

  lemma CallKeepsTable(c: Config, s: State, clock: int, call: Call)
    requires TableGood(s, clock) && Refinement.ThreeLetterCodes(c) && Sensible(s, clock, call)
    ensures TableGood(Next(c, s, call), ClockAfter(call))
  {
    var w := CallWrites(c, s, clock, call);
    if w.Some? {
      WriteKeepsKept(View(s.store.rows), w.value, clock, ClockAfter(call));
      WriteKeepsLog(View(s.store.rows), s.log, w.value, ClockAfter(call));
    }
  }

  /** After every serial run over the table, whatever the database refuses or fails to answer,
      the log of each payment is `payment.created` and at most one terminal event, and
      replaying the log rebuilds exactly the statuses in the table. */
  lemma {:induction false} RunKeepsTable(c: Config, s: State, clock: int, calls: seq<Call>)
    requires TableGood(s, clock) && Refinement.ThreeLetterCodes(c) && SensibleRun(c, s, clock, calls)
    ensures TableGood(Run(c, s, calls), EndClock(clock, calls))
    decreases |calls|
  {
    if calls == [] {
    } else {
      CallKeepsTable(c, s, clock, calls[0]);
      RunKeepsTable(c, Next(c, s, calls[0]), ClockAfter(calls[0]), calls[1..]);
    }
  }

  /** What is stored in the table is what was announced, in every currency. */
  ghost predicate Balanced(s: State, currency: string) {
    s.store.Table? && Money.Stored(View(s.store.rows), currency, None) == Money.Announced(s.log, currency)
  }

  lemma WriteKeepsBalance(m: Payments, log: seq<PaymentEvent>, w: Write, clock: int, currency: string)
    requires IsWrite(m, w, clock)
    requires Money.Stored(m, currency, None) == Money.Announced(log, currency)
    ensures Money.Stored(m[w.p.id := w.p], currency, None) == Money.Announced(log + [w.event], currency)
  {
    Money.AnnouncedSnoc(log, w.event, currency);
    Money.StoredUpdate(m, w.p, currency, None);
    if w.p.id in m {
      Money.TerminalEventIsNotCreation(w.p.status);
    }
  }

  /** Over the table too, stored and announced money stay equal on every serial run, with any
      outages. */
  lemma {:induction false} MoneyIsConserved(c: Config, s: State, clock: int, calls: seq<Call>, currency: string)
    requires TableGood(s, clock) && Balanced(s, currency) && Refinement.ThreeLetterCodes(c) && SensibleRun(c, s, clock, calls)
    ensures Balanced(Run(c, s, calls), currency)
    decreases |calls|
  {
    if calls == [] {
    } else {
      var w := CallWrites(c, s, clock, calls[0]);
      if w.Some? {
        WriteKeepsBalance(View(s.store.rows), s.log, w.value, ClockAfter(calls[0]), currency);
      }
      CallKeepsTable(c, s, clock, calls[0]);
      MoneyIsConserved(c, Next(c, s, calls[0]), ClockAfter(calls[0]), calls[1..], currency);
    }
  }

  /** The amount a call has had charged for a payment that was then not saved. */
  function ChargedInVain(c: Config, s: State, call: Call, currency: string): int {
    match call
    case CreateCall(req, env) =>
      var (_, p, err) := Create(c, s, req, env);
      if err == Some(SaveFailed) && p.currency == currency then p.amount else 0
    case EventCall(_, _) => 0
  }

  function AllChargedInVain(c: Config, s: State, calls: seq<Call>, currency: string): int
    decreases |calls|
  {
    if calls == [] then 0 else
      ChargedInVain(c, s, calls[0], currency) + AllChargedInVain(c, Next(c, s, calls[0]), calls[1..], currency)
  }

  lemma StoreAnnounces(c: Config, s: State, p: Snapshot, env: CreateEnv, currency: string)
    ensures var (after, q, err) := Store(c, s, p, env);
            var amount := if p.currency == currency then p.amount else 0;
            && q == p && after.calls == s.calls && (err.None? || err == Some(SaveFailed))
            && Money.Announced(after.log, currency) == Money.Announced(s.log, currency) + (if err.None? then amount else 0)
  {
    Money.AnnouncedSnoc(s.log, EventFor(c, p, CREATED, env.eventID, env.published), currency);
  }

  /** What a create has had charged was announced, or charged in vain. */
  lemma ChargeIsAccounted(c: Config, s: State, p: Snapshot, env: CreateEnv, currency: string)
    ensures var (after, q, err) := Charge(c, s, p, env);
            Money.ChargedIn(after.calls, currency) - Money.ChargedIn(s.calls, currency)
            == Money.Announced(after.log, currency) - Money.Announced(s.log, currency)
               + (if err == Some(SaveFailed) && q.currency == currency then q.amount else 0)
  {
    var call := ProviderCall(RequestFor(p), env.reply.Charged?);
    Money.ChargedSnoc(s.calls, call, currency);
    if env.reply.Charged? {
      StoreAnnounces(c, s.(calls := s.calls + [call]), p.(transactionID := env.reply.transactionID), env, currency);
    }
  }

  lemma EventChargesNothing(c: Config, s: State, e: DomainEvent, env: EventEnv, currency: string)
    ensures var after := Process(c, s, e, env).0;
            after.calls == s.calls && Money.Announced(after.log, currency) == Money.Announced(s.log, currency)
  {
    var resolution := Resolve(s.store, e, env);
    if resolution.Resolved? && resolution.id in s.store.Ids() && Target(e.eventType).Some? {
      var to := Target(e.eventType).value;
      var p := Settled(s.store.Get(resolution.id), e, to, env.settled);
      Money.TerminalEventIsNotCreation(to);
      Money.AnnouncedSnoc(s.log, EventFor(c, p, "payment." + to.Text(), env.eventID, env.published), currency);
    }
  }

  lemma CallIsAccounted(c: Config, s: State, call: Call, currency: string)
    ensures var after := Next(c, s, call);
            Money.ChargedIn(after.calls, currency) - Money.ChargedIn(s.calls, currency)
            == Money.Announced(after.log, currency) - Money.Announced(s.log, currency) + ChargedInVain(c, s, call, currency)
  {
    match call
    case CreateCall(req, env) =>
      if Existing(s.store, req, env).None? && Build(c, req, env).Built? {
        ChargeIsAccounted(c, s, Build(c, req, env).payment, env, currency);
      }
    case EventCall(e, env) => EventChargesNothing(c, s, e, env, currency);
  }

  /** Over any serial run what the provider charged is what was announced, and so stored, and
      what was charged for payments whose save then failed. */
  lemma {:induction false} ChargesAreAccountedFor(c: Config, s: State, calls: seq<Call>, currency: string)
    ensures var end := Run(c, s, calls);
            Money.ChargedIn(end.calls, currency) - Money.ChargedIn(s.calls, currency)
            == Money.Announced(end.log, currency) - Money.Announced(s.log, currency) + AllChargedInVain(c, s, calls, currency)
    decreases |calls|
  {
    if calls == [] {
    } else {
      CallIsAccounted(c, s, calls[0], currency);
      ChargesAreAccountedFor(c, Next(c, s, calls[0]), calls[1..], currency);
    }
  }

  /** From the empty table, with any outages: charged money is stored money and what was
      charged in vain. */
  lemma ChargedIsStoredOrInVain(c: Config, s: State, calls: seq<Call>, currency: string)
    requires s == State(Table(map[]), [], []) && Refinement.ThreeLetterCodes(c) && SensibleRun(c, s, 0, calls)
    ensures var end := Run(c, s, calls);
            && end.store.Table?
            && Money.ChargedIn(end.calls, currency)
               == Money.Stored(View(end.store.rows), currency, None) + AllChargedInVain(c, s, calls, currency)
  {
    EmptyTableIsGood(s, currency);
    MoneyIsConserved(c, s, 0, calls, currency);
    ChargesAreAccountedFor(c, s, calls, currency);
  }

  lemma EmptyTableIsGood(s: State, currency: string)
    requires s == State(Table(map[]), [], [])
    ensures TableGood(s, 0) && Balanced(s, currency)
  {
    assert View(map[]) == map[] && Statuses(map[]) == map[];
  }
}
