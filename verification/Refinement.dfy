/** The PostgreSQL repository refines the in-memory one: on the same serial run the service
    gives the same answers, publishes the same events and makes the same provider calls,
    up to what the columns can represent, for as long as no two payments share a provider
    reference and amounts fit their column; and no longer.
 */
module Refinement {
  import opened Options
  import opened Events
  import opened Entity
  import opened Storage
  import opened Service
  import opened SerialRuns
  import Delivery

  /** A payment as it comes back from the table: timestamps cut to the microsecond. */
  function AsStored(p: Snapshot): Snapshot {
    Scan(p.id, NewRow(p))
  }

  ghost predicate Represents(rows: Rows, m: Payments) {
    rows.Keys == m.Keys && forall id | id in m :: rows[id] == NewRow(m[id])
  }

  /** What the table can hold faithfully. */
  ghost predicate Storable(m: Payments) {
    && Delivery.RefsUnique(m)
    && forall id | id in m :: m[id].amount <= MAX_CENTS && |m[id].currency| == 3 && m[id].paymentMethod == ""
  }

  /** The supported currencies are ISO 4217 codes, three letters each. */
  ghost predicate ThreeLetterCodes(c: Config) {
    forall currency | currency in c.rules.supported :: |currency| == 3
  }

  /** The same state, with the rows in place of the map. */
  ghost predicate Refines(t: State, s: State) {
    && s.store.Memory? && t.store.Table?
    && Represents(t.store.rows, s.store.payments)
    && t.log == s.log && t.calls == s.calls
  }

  ghost predicate NoOutage(call: Call) {
    match call
    case CreateCall(_, env) => !env.queryDown && !env.saveDown
    case EventCall(_, env) => !env.idQueryDown && !env.refQueryDown && !env.saveDown
  }

  /** What the caller sees. */
  datatype Answer = Created(p: Snapshot, err: Option<Error>) | Processed(outcome: Option<Error>)

  function AnswerTo(c: Config, s: State, call: Call): Answer {
    match call
    case CreateCall(req, env) => Created(Create(c, s, req, env).1, Create(c, s, req, env).2)
    case EventCall(e, env) => Processed(Process(c, s, e, env).1)
  }

  /** The same answer, up to what the table can represent. */
  ghost predicate Agree(a: Answer, b: Answer) {
    match (a, b)
    case (Created(p, err), Created(p', err')) => err == err' && AsStored(p) == AsStored(p')
    case (Processed(err), Processed(err')) => err == err'
    case _ => false
  }

  lemma StoredOnce(p: Snapshot)
    requires |p.currency| == 3 && p.paymentMethod == ""
    ensures AsStored(p) == p.(createdAt := 1000 * Micros(p.createdAt), updatedAt := 1000 * Micros(p.updatedAt))
    ensures AsStored(AsStored(p)) == AsStored(p)
  {
  }

  /** GetPayment gives the same answer from both stores: timestamps are cut to the microsecond,
      the currency padded to three letters and the payment method dropped. Of a storable
      payment only the timestamps differ. */
  lemma GetAgrees(rows: Rows, m: Payments, id: string, clock: int)
    requires Represents(rows, m) && WellKept(m, clock)
    ensures id in Table(rows).Ids() <==> id in Memory(m).Ids()
    ensures id in m ==>
              var p := Memory(m).Get(id);
              var cut := p.(createdAt := 1000 * Micros(p.createdAt), updatedAt := 1000 * Micros(p.updatedAt));
              && Table(rows).Get(id) == cut.(currency := Padded(p.currency), paymentMethod := "")
              && (Storable(m) ==> Table(rows).Get(id) == cut)
  {
  }

  /** Lookups by a non-empty value find the same payment. */
  lemma {:induction false} FindAgrees(rows: Rows, m: Payments, order: seq<string>, col: Column, v: string)
    requires Represents(rows, m) && v != ""
    ensures Find(Table(rows), order, col, v) == Find(Memory(m), order, col, v)
    decreases |order|
  {
    if order == [] {
    } else {
      FindAgrees(rows, m, order[1..], col, v);
    }
  }

  lemma ResolveAgrees(rows: Rows, m: Payments, e: DomainEvent, env: EventEnv)
    requires Represents(rows, m) && !env.idQueryDown && !env.refQueryDown
    ensures Resolve(Table(rows), e, env) == Resolve(Memory(m), e, env)
  {
    if e.transactionID != "" {
      FindAgrees(rows, m, env.order, ByRef, e.transactionID);
    }
  }

  lemma RefTakenIff(rows: Rows, m: Payments, id: string, ref: string)
    requires Represents(rows, m)
    ensures RefTaken(rows, id, NullString(ref)) <==>
            ref != "" && exists other | other in m :: other != id && m[other].transactionID == ref
  {
    if ref != "" && exists other | other in m :: other != id && m[other].transactionID == ref {
      var other :| other in m && other != id && m[other].transactionID == ref;
      assert rows[other].transactionID == NullString(ref);
    }
  }

  /** References stay unique exactly when no other payment has the new one. */
  lemma RefsStayUniqueIff(m: Payments, p: Snapshot)
    requires Delivery.RefsUnique(m)
    ensures Delivery.RefsUnique(m[p.id := p]) <==>
            !(p.transactionID != "" && exists other | other in m :: other != p.id && m[other].transactionID == p.transactionID)
  {
    var after := m[p.id := p];
    if p.transactionID != "" && exists other | other in m :: other != p.id && m[other].transactionID == p.transactionID {
      var other :| other in m && other != p.id && m[other].transactionID == p.transactionID;
      assert after[other].transactionID == after[p.id].transactionID;
    }
  }

  /** A change of a stored payment that the table's update can express, or a new payment
      with a new key. */
  ghost predicate Writable(m: Payments, p: Snapshot) {
    && 0 < p.amount && |p.currency| == 3 && p.paymentMethod == ""
    && (p.id in m ==> p == m[p.id].(status := p.status, transactionID := p.transactionID, updatedAt := p.updatedAt))
    && (p.id !in m && p.idempotencyKey != "" ==> forall id | id in m :: m[id].idempotencyKey != p.idempotencyKey)
  }

  /** The database accepts a payment exactly when the map that the in-memory store ends up
      with is storable. */
  lemma UpsertIffStorable(rows: Rows, m: Payments, p: Snapshot)
    requires Represents(rows, m) && Storable(m) && Writable(m, p)
    ensures Upsert(rows, p).Some? <==> Storable(m[p.id := p])
  {
    RefTakenIff(rows, m, p.id, p.transactionID);
    RefsStayUniqueIff(m, p);
    if p.amount > MAX_CENTS {
      assert m[p.id := p][p.id].amount > MAX_CENTS;
    }
  }

  lemma UpsertRepresents(rows: Rows, m: Payments, p: Snapshot)
    requires Represents(rows, m) && Writable(m, p) && Upsert(rows, p).Some?
    ensures Represents(Upsert(rows, p).value, m[p.id := p])
  {
  }

  /** How two states and errors compare after a call. */
  ghost predicate Follows(s: State, err: Option<Error>, t: State, before: State, err': Option<Error>) {
    && s.store.Memory?
    && (Storable(s.store.payments) ==> err' == err && Refines(t, s))
    && (!Storable(s.store.payments) ==> err == None && err' == Some(SaveFailed) && t.store == before.store && t.log == before.log)
  }

  lemma SettleAgrees(c: Config, s: State, t: State, id: string, e: DomainEvent, to: Status, env: EventEnv)
    requires Refines(t, s) && Storable(s.store.payments) && id in s.store.payments && !env.saveDown
    requires s.store.payments[id].id == id && 0 < s.store.payments[id].amount
    ensures Follows(Settle(c, s, id, e, to, env).0, Settle(c, s, id, e, to, env).1,
                    Settle(c, t, id, e, to, env).0, t, Settle(c, t, id, e, to, env).1)
  {
    var rows, m := t.store.rows, s.store.payments;
    var p, q := Settled(m[id], e, to, env.settled), Settled(t.store.Get(id), e, to, env.settled);
    StoredOnce(m[id]);
    assert NullString(p.transactionID) == NullString(q.transactionID);
    assert Upsert(rows, q) == Upsert(rows, p);
    UpsertIffStorable(rows, m, p);
    if Upsert(rows, p).Some? {
      UpsertRepresents(rows, m, p);
    }
  }

  lemma EventAgrees(c: Config, s: State, t: State, clock: int, e: DomainEvent, env: EventEnv)
    requires Good(s, clock) && Storable(s.store.payments) && Refines(t, s) && NoOutage(EventCall(e, env))
    ensures Follows(Process(c, s, e, env).0, Process(c, s, e, env).1, Process(c, t, e, env).0, t, Process(c, t, e, env).1)
  {
    var rows, m := t.store.rows, s.store.payments;
    ResolveAgrees(rows, m, e, env);
    var resolution := Resolve(s.store, e, env);
    if resolution.Resolved? && resolution.id in m {
      StoredOnce(m[resolution.id]);
      if Target(e.eventType).Some? {
        SettleAgrees(c, s, t, resolution.id, e, Target(e.eventType).value, env);
      }
    }
  }

  lemma StoreAgrees(c: Config, s: State, t: State, p: Snapshot, env: CreateEnv)
    requires Refines(t, s) && Storable(s.store.payments) && !env.saveDown
    requires p.id !in s.store.payments && Writable(s.store.payments, p)
    ensures Follows(Store(c, s, p, env).0, Store(c, s, p, env).2, Store(c, t, p, env).0, t, Store(c, t, p, env).2)
  {
    UpsertIffStorable(t.store.rows, s.store.payments, p);
    if Upsert(t.store.rows, p).Some? {
      UpsertRepresents(t.store.rows, s.store.payments, p);
    }
  }

  lemma ExistingAgrees(s: State, t: State, req: Snapshot, env: CreateEnv)
    requires Refines(t, s) && IsOrder(env.order, s.store) && !env.queryDown
    ensures Existing(t.store, req, env) == Existing(s.store, req, env)
    ensures match Existing(s.store, req, env)
            case Some(id) => id in s.store.payments
            case None => req.idempotencyKey != "" ==>
              forall id | id in s.store.payments :: s.store.payments[id].idempotencyKey != req.idempotencyKey
  {
    if req.idempotencyKey != "" {
      FindAgrees(t.store.rows, s.store.payments, env.order, ByKey, req.idempotencyKey);
      FindFinds(s.store, env.order, ByKey, req.idempotencyKey);
      if Existing(s.store, req, env).None? {
        forall id | id in s.store.payments
          ensures s.store.payments[id].idempotencyKey != req.idempotencyKey
        {
          assert !Carries(s.store, id, ByKey, req.idempotencyKey);
        }
      }
    }
  }

  lemma BuiltIsWritable(c: Config, m: Payments, req: Snapshot, env: CreateEnv)
    requires ThreeLetterCodes(c) && env.id !in m && Build(c, req, env).Built?
    requires req.idempotencyKey != "" ==> forall id | id in m :: m[id].idempotencyKey != req.idempotencyKey
    ensures Writable(m, Build(c, req, env).payment) && Build(c, req, env).payment.id == env.id
  {
  }

  lemma ChargeAgrees(c: Config, s: State, t: State, p: Snapshot, env: CreateEnv)
    requires Refines(t, s) && Storable(s.store.payments) && !env.saveDown
    requires p.id !in s.store.payments && Writable(s.store.payments, p)
    ensures Charge(c, s, p, env).1 == Charge(c, t, p, env).1
    ensures Follows(Charge(c, s, p, env).0, Charge(c, s, p, env).2, Charge(c, t, p, env).0, t, Charge(c, t, p, env).2)
  {
    if env.reply.Charged? {
      var call := ProviderCall(RequestFor(p), true);
      StoreAgrees(c, s.(calls := s.calls + [call]), t.(calls := t.calls + [call]),
                  p.(transactionID := env.reply.transactionID), env);
    }
  }

  lemma CreateAgrees(c: Config, s: State, t: State, clock: int, req: Snapshot, env: CreateEnv)
    requires Good(s, clock) && Storable(s.store.payments) && Refines(t, s)
    requires ThreeLetterCodes(c) && Sensible(s, clock, CreateCall(req, env)) && NoOutage(CreateCall(req, env))
    ensures AsStored(Create(c, t, req, env).1) == AsStored(Create(c, s, req, env).1)
    ensures Follows(Create(c, s, req, env).0, Create(c, s, req, env).2, Create(c, t, req, env).0, t, Create(c, t, req, env).2)
  {
    ExistingAgrees(s, t, req, env);
    var existing, built := Existing(s.store, req, env), Build(c, req, env);
    if existing.Some? {
      StoredOnce(s.store.payments[existing.value]);
    } else if built.Built? {
      BuiltIsWritable(c, s.store.payments, req, env);
      ChargeAgrees(c, s, t, built.payment, env);
    }
  }

  /** The two repositories agree on a call exactly when the in-memory store ends up storable;
      otherwise the database refuses the save and keeps what it had. */
  ghost predicate AgreesIffStorable(c: Config, s: State, t: State, call: Call) {
    var s', t' := Next(c, s, call), Next(c, t, call);
    && s'.store.Memory?
    && (Agree(AnswerTo(c, s, call), AnswerTo(c, t, call)) <==> Storable(s'.store.payments))
    && (Storable(s'.store.payments) ==> Refines(t', s'))
    && (!Storable(s'.store.payments) ==> t'.store == t.store && t'.log == t.log)
  }

  lemma CreateCallAgreesIff(c: Config, s: State, t: State, clock: int, req: Snapshot, env: CreateEnv)
    requires Good(s, clock) && Storable(s.store.payments) && Refines(t, s)
    requires ThreeLetterCodes(c) && Sensible(s, clock, CreateCall(req, env)) && NoOutage(CreateCall(req, env))
    ensures AgreesIffStorable(c, s, t, CreateCall(req, env))
  {
    CreateAgrees(c, s, t, clock, req, env);
  }

  lemma EventCallAgreesIff(c: Config, s: State, t: State, clock: int, e: DomainEvent, env: EventEnv)
    requires Good(s, clock) && Storable(s.store.payments) && Refines(t, s) && NoOutage(EventCall(e, env))
    ensures AgreesIffStorable(c, s, t, EventCall(e, env))
  {
    EventAgrees(c, s, t, clock, e, env);
  }

  lemma CallAgreesIff(c: Config, s: State, t: State, clock: int, call: Call)
    requires Good(s, clock) && Storable(s.store.payments) && Refines(t, s)
    requires ThreeLetterCodes(c) && Sensible(s, clock, call) && NoOutage(call)
    ensures AgreesIffStorable(c, s, t, call)
  {
    match call
    case CreateCall(req, env) => CreateCallAgreesIff(c, s, t, clock, req, env);
    case EventCall(e, env) => EventCallAgreesIff(c, s, t, clock, e, env);
  }

  /** The answers of a run, in order. */
  function Answers(c: Config, s: State, calls: seq<Call>): seq<Answer>
    decreases |calls|
  {
    if calls == [] then [] else [AnswerTo(c, s, calls[0])] + Answers(c, Next(c, s, calls[0]), calls[1..])
  }

  ghost predicate StorableRun(c: Config, s: State, calls: seq<Call>)
    decreases |calls|
  {
    && s.store.Memory? && Storable(s.store.payments)
    && (calls != [] ==> StorableRun(c, Next(c, s, calls[0]), calls[1..]))
  }

  ghost predicate AllAgree(a: seq<Answer>, b: seq<Answer>) {
    |a| == |b| && forall i | 0 <= i < |a| :: Agree(a[i], b[i])
  }

  /** On every serial run without outages in which references stay unique and amounts fit,
      the two repositories give the same answers and end in the same state. */
  lemma {:induction false} RunsAgree(c: Config, s: State, t: State, clock: int, calls: seq<Call>)
    requires Good(s, clock) && Refines(t, s) && ThreeLetterCodes(c)
    requires SensibleRun(c, s, clock, calls) && StorableRun(c, s, calls)
    requires forall i | 0 <= i < |calls| :: NoOutage(calls[i])
    ensures AllAgree(Answers(c, s, calls), Answers(c, t, calls))
    ensures Refines(Run(c, t, calls), Run(c, s, calls))
    decreases |calls|
  {
    if calls == [] {
    } else {
      var s', t' := Next(c, s, calls[0]), Next(c, t, calls[0]);
      CallAgreesIff(c, s, t, clock, calls[0]);
      CallKeepsGood(c, s, clock, calls[0]);
      RunsAgree(c, s', t', ClockAfter(calls[0]), calls[1..]);
      var a, b := Answers(c, s, calls), Answers(c, t, calls);
      assert a[1..] == Answers(c, s', calls[1..]) && b[1..] == Answers(c, t', calls[1..]);
      forall i | 0 <= i < |a|
        ensures Agree(a[i], b[i])
      {
        assert i > 0 ==> a[i] == a[1..][i - 1] && b[i] == b[1..][i - 1];
      }
    }
  }

  /** Every row of the table can be read back: neither value object would panic. */
  lemma RowsCanBeRead(rows: Rows, m: Payments, clock: int, id: string)
    requires Represents(rows, m) && WellKept(m, clock) && id in rows
    ensures rows[id].amount > 0 && ValidCustomer(rows[id].customerID)
  {
  }

  // ----- What the columns hold -----

  /** Timestamps are cut down to the microsecond. */
  lemma MicrosCut(nanos: int)
    ensures 0 <= nanos - 1000 * Micros(nanos) < 1000
  {
  }

  /** A currency is padded with spaces to three characters. */
  lemma {:induction false} PaddedWithSpaces(currency: string)
    ensures currency <= Padded(currency) && forall i | |currency| <= i < |Padded(currency)| :: Padded(currency)[i] == ' '
    decreases 3 - |currency|
  {
    if |currency| >= 3 {
    } else {
      PaddedWithSpaces(currency + " ");
    }
  }

  /** A new payment is saved exactly when its amount is from one cent to 99,999,999.99, its
      currency has at most three letters, and no row has its reference or its key, an empty
      one counting as none. */
  lemma NewPaymentIsSavedIff(rows: Rows, p: Snapshot)
    requires p.id !in rows
    ensures Upsert(rows, p).Some? <==>
              && 1 <= p.amount <= 9_999_999_999 && |p.currency| <= 3
              && (p.transactionID != "" ==> forall id | id in rows :: rows[id].transactionID != Some(p.transactionID))
              && (p.idempotencyKey != "" ==> forall id | id in rows :: rows[id].idempotencyKey != Some(p.idempotencyKey))
  {
  }

  /** A stored payment is updated exactly when its copy fits and no other row has its reference. */
  lemma StoredPaymentIsSavedIff(rows: Rows, p: Snapshot)
    requires p.id in rows
    ensures Upsert(rows, p).Some? <==>
              && 1 <= p.amount <= 9_999_999_999 && |p.currency| <= 3
              && (p.transactionID != "" ==> forall id | id in rows && id != p.id :: rows[id].transactionID != Some(p.transactionID))
  {
  }
}
