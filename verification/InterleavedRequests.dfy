/** Interleaved creates and the provider: which payment each charged request is for.
 */
module InterleavedRequests {
  import opened Options
  import opened Events
  import opened Entity
  import opened Storage
  import opened Service
  import opened Interleaving
  import opened Requests

  /** The request is for the payment in this row. */
  ghost predicate AsksFor(r: ProviderRequest, row: Row) {
    && r.customerID == row.customerID && r.amount == row.amount && Padded(r.currency) == row.currency
    && NullString(r.description) == row.description && NullString(r.idempotencyKey) == row.idempotencyKey
    && r.paymentMethod == ""
  }

  /** The charged request asks for the payment that is stored under its id, or that a call is
      about to save under it. */
  ghost predicate Honest(m: Machine, r: ProviderRequest) {
    && r.paymentID in m.used
    && (r.paymentID in m.rows ==> AsksFor(r, m.rows[r.paymentID]))
    && (forall t | t in m.threads && m.threads[t].SavingNew? && m.threads[t].p.id == r.paymentID :: Asks(r, m.threads[t].p))
    && (forall t | t in m.threads && m.threads[t].AtProvider? :: m.threads[t].p.id != r.paymentID)
  }

  /** Some charged request names this id. */
  ghost predicate Paid(m: Machine, id: string) {
    exists i :: ChargesFor(m.calls, i, id)
  }

  /** Each charged request is honest. */
  ghost predicate CallsHonest(m: Machine) {
    forall i | 0 <= i < |m.calls| && m.calls[i].charged :: Honest(m, m.calls[i].request)
  }

  /** Whatever is stored or about to be saved has been charged for. */
  ghost predicate AllPaid(m: Machine) {
    && (forall id | id in m.rows :: Paid(m, id))
    && (forall t | t in m.threads && m.threads[t].SavingNew? :: Paid(m, m.threads[t].p.id))
  }

  /** Charged requests are honest and name different payments; every row, and every payment
      about to be saved, has been charged for; copies at the provider carry no method. */
  ghost predicate AllHonest(m: Machine) {
    && CallsHonest(m)
    && (forall i, j, id: string | ChargesFor(m.calls, i, id) && ChargesFor(m.calls, j, id) :: i == j)
    && AllPaid(m)
    && (forall t | t in m.threads && m.threads[t].AtProvider? :: m.threads[t].p.paymentMethod == "")
  }

  /** A step that leaves requests, rows and new copies alone. */
  ghost predicate Aside(m: Machine, t: nat, after: Machine) {
    && MovesOnly(m, t, after) && after.calls == m.calls && after.rows == m.rows && m.used <= after.used
    && NewID(after.threads[t]).None?
  }

  lemma AsideKeepsHonest(m: Machine, t: nat, after: Machine)
    requires AllHonest(m) && Aside(m, t, after)
    ensures AllHonest(after)
  {
    forall i | 0 <= i < |after.calls| && after.calls[i].charged
      ensures Honest(after, after.calls[i].request)
    {
      assert Honest(m, m.calls[i].request);
    }
    forall id | id in after.rows
      ensures Paid(after, id)
    {
      assert Paid(m, id);
    }
  }

  lemma NewCopyKeepsHonest(m: Machine, t: nat, p: Snapshot)
    requires Inv(m) && AllHonest(m) && p.id !in m.used && p.paymentMethod == ""
    ensures AllHonest(At(m, t, AtProvider(p)).(used := m.used + {p.id}))
  {
    var after := At(m, t, AtProvider(p)).(used := m.used + {p.id});
    forall i | 0 <= i < |after.calls| && after.calls[i].charged
      ensures Honest(after, after.calls[i].request)
    {
      assert Honest(m, m.calls[i].request);
    }
    forall id | id in after.rows
      ensures Paid(after, id)
    {
      assert Paid(m, id);
    }
  }

  /** The lookup either builds a new copy under the fresh id, or ends the call. */
  lemma CheckKeyEither(c: Config, m: Machine, t: nat, req: Snapshot, w: World)
    ensures var after := CheckKey(c, m, t, req, w);
            if after.threads[t].AtProvider?
            then var p := after.threads[t].p;
                 p.id == w.id && p.paymentMethod == "" && after == At(m, t, AtProvider(p)).(used := m.used + {w.id})
            else Aside(m, t, after)
  {
  }

  lemma CheckKeyKeepsHonest(c: Config, m: Machine, t: nat, req: Snapshot, w: World)
    requires Inv(m) && AllHonest(m) && w.id !in m.used
    ensures AllHonest(CheckKey(c, m, t, req, w))
  {
    var after := CheckKey(c, m, t, req, w);
    CheckKeyEither(c, m, t, req, w);
    if after.threads[t].AtProvider? {
      NewCopyKeepsHonest(m, t, after.threads[t].p);
    } else {
      AsideKeepsHonest(m, t, after);
    }
  }

  lemma DeclinedKeepsHonest(m: Machine, t: nat, err: Error, r: ProviderRequest)
    requires AllHonest(m)
    ensures AllHonest(Fail(m, t, err).(calls := m.calls + [ProviderCall(r, false)]))
  {
    var after := Fail(m, t, err).(calls := m.calls + [ProviderCall(r, false)]);
    forall i, id: string | ChargesFor(after.calls, i, id)
      ensures ChargesFor(m.calls, i, id)
    {
    }
    forall i | 0 <= i < |after.calls| && after.calls[i].charged
      ensures Honest(after, after.calls[i].request)
    {
      assert Honest(m, m.calls[i].request);
    }
    forall id | Paid(m, id)
      ensures Paid(after, id)
    {
      var i :| ChargesFor(m.calls, i, id);
      assert ChargesFor(after.calls, i, id);
    }
  }

  lemma PaidStays(m: Machine, after: Machine, id: string)
    requires m.calls <= after.calls && Paid(m, id)
    ensures Paid(after, id)
  {
    var i :| ChargesFor(m.calls, i, id);
    assert ChargesFor(after.calls, i, id);
  }

  lemma ChargedStaysHonest(m: Machine, t: nat, p: Snapshot, q: Snapshot, calls: seq<ProviderCall>, r: ProviderRequest)
    requires Inv(m) && t in m.threads && m.threads[t] == AtProvider(p) && q == p.(transactionID := q.transactionID)
    requires Honest(m, r)
    ensures Honest(At(m, t, SavingNew(q)).(calls := calls), r)
  {
  }

  /** A charge of the payment at the provider is honest: nobody has been charged for its id. */
  lemma NewChargeIsHonest(m: Machine, t: nat, p: Snapshot, q: Snapshot, calls: seq<ProviderCall>, r: ProviderRequest)
    requires Inv(m) && t in m.threads && m.threads[t] == AtProvider(p) && q == p.(transactionID := q.transactionID)
    requires Asks(r, q)
    ensures Honest(At(m, t, SavingNew(q)).(calls := calls), r)
  {
    assert PhaseOk(m, m.threads[t]) && NewID(m.threads[t]) == Some(p.id);
  }

  lemma ChargedKeepsHonest(m: Machine, t: nat, p: Snapshot, ref: string, r: ProviderRequest)
    requires Inv(m) && AllHonest(m) && t in m.threads && m.threads[t] == AtProvider(p)
    requires Asks(r, p.(transactionID := ref))
    ensures AllHonest(At(m, t, SavingNew(p.(transactionID := ref))).(calls := m.calls + [ProviderCall(r, true)]))
  {
    var calls, q := m.calls + [ProviderCall(r, true)], p.(transactionID := ref);
    var after := At(m, t, SavingNew(q)).(calls := calls);
    var n := |m.calls|;
    forall i, id: string | ChargesFor(calls, i, id)
      ensures if i == n then id == p.id else ChargesFor(m.calls, i, id) && id != p.id
    {
      assert i < n ==> Honest(m, m.calls[i].request);
    }
    forall i | 0 <= i < |calls| && calls[i].charged
      ensures Honest(after, calls[i].request)
    {
      if i == n {
        NewChargeIsHonest(m, t, p, q, calls, r);
      } else {
        ChargedStaysHonest(m, t, p, q, calls, m.calls[i].request);
      }
    }
    assert ChargesFor(calls, n, p.id);
    forall id | Paid(m, id)
      ensures Paid(after, id)
    {
      PaidStays(m, after, id);
    }
  }

  lemma CallProviderKeepsHonest(c: Config, m: Machine, t: nat, p: Snapshot, w: World)
    requires Inv(m) && AllHonest(m) && t in m.threads && m.threads[t] == AtProvider(p)
    ensures AllHonest(CallProvider(c, m, t, p, w))
  {
    match w.reply
    case Declined(why) => DeclinedKeepsHonest(m, t, ProviderFailed(c.provider, why), RequestFor(p));
    case Charged(ref) => ChargedKeepsHonest(m, t, p, ref, RequestFor(p));
  }

  lemma WrittenStaysHonest(m: Machine, t: nat, p: Snapshot, eventType: string, w: World, r: ProviderRequest)
    requires t in m.threads && (m.threads[t] == SavingNew(p) || m.threads[t] == SavingSettled(p))
    requires m.threads[t].SavingSettled? ==> p.id in m.rows
    requires Honest(m, r)
    ensures Honest(SaveRow(m, t, p, eventType, w), r)
  {
  }

  lemma SaveKeepsCallsHonest(m: Machine, t: nat, p: Snapshot, eventType: string, w: World)
    requires CallsHonest(m) && t in m.threads && (m.threads[t] == SavingNew(p) || m.threads[t] == SavingSettled(p))
    requires m.threads[t].SavingSettled? ==> p.id in m.rows
    ensures CallsHonest(SaveRow(m, t, p, eventType, w))
  {
    var after := SaveRow(m, t, p, eventType, w);
    forall i | 0 <= i < |after.calls| && after.calls[i].charged
      ensures Honest(after, after.calls[i].request)
    {
      WrittenStaysHonest(m, t, p, eventType, w, m.calls[i].request);
    }
  }

  lemma SaveKeepsPaid(m: Machine, t: nat, p: Snapshot, eventType: string, w: World)
    requires AllPaid(m) && t in m.threads && (m.threads[t] == SavingNew(p) || m.threads[t] == SavingSettled(p))
    requires m.threads[t].SavingSettled? ==> p.id in m.rows
    ensures AllPaid(SaveRow(m, t, p, eventType, w))
  {
    var after := SaveRow(m, t, p, eventType, w);
    SaveIDs(m, t, p, eventType, w);
    forall id | Paid(m, id)
      ensures Paid(after, id)
    {
      PaidStays(m, after, id);
    }
    forall id | id in after.rows
      ensures Paid(m, id)
    {
      assert id in m.rows || id == p.id;
    }
  }

  lemma SaveKeepsHonest(m: Machine, t: nat, p: Snapshot, eventType: string, w: World)
    requires Inv(m) && AllHonest(m) && t in m.threads && (m.threads[t] == SavingNew(p) || m.threads[t] == SavingSettled(p))
    ensures AllHonest(SaveRow(m, t, p, eventType, w))
  {
    assert PhaseOk(m, m.threads[t]);
    SaveKeepsCallsHonest(m, t, p, eventType, w);
    SaveKeepsPaid(m, t, p, eventType, w);
    SaveMoves(m, t, p, eventType, w);
    SaveAppends(m, t, p, eventType, w);
  }

  lemma FindIsAside(m: Machine, t: nat, e: DomainEvent, w: World)
    ensures Aside(m, t, FindID(m, t, e, w)) && Aside(m, t, FindRef(m, t, e, w))
  {
    FindIDs(m, t, e, w);
    FindMoves(m, t, e, w);
    if e.paymentID in m.rows {
      DecideAppends(m, t, Scan(e.paymentID, m.rows[e.paymentID]), e, w);
    }
    var found := Find(Table(m.rows), w.order, ByRef, e.transactionID);
    if found.Some? && found.value in m.rows {
      DecideAppends(m, t, Scan(found.value, m.rows[found.value]), e, w);
    }
  }

  lemma CreateStepKeepsHonest(c: Config, m: Machine, t: nat, w: World)
    requires Inv(m) && AllHonest(m) && w.id !in m.used && t in m.threads
    requires m.threads[t].CheckingKey? || m.threads[t].AtProvider?
    ensures AllHonest(Step(c, m, t, w))
  {
    match m.threads[t]
    case CheckingKey(req) => CheckKeyKeepsHonest(c, m, t, req, w);
    case AtProvider(p) => CallProviderKeepsHonest(c, m, t, p, w);
  }

  lemma FindStepKeepsHonest(m: Machine, t: nat, e: DomainEvent, w: World)
    requires AllHonest(m)
    ensures AllHonest(FindID(m, t, e, w)) && AllHonest(FindRef(m, t, e, w))
  {
    FindIsAside(m, t, e, w);
    AsideKeepsHonest(m, t, FindID(m, t, e, w));
    AsideKeepsHonest(m, t, FindRef(m, t, e, w));
  }

  lemma PublishKeepsHonest(c: Config, m: Machine, t: nat, p: Snapshot, eventType: string, w: World)
    requires AllHonest(m)
    ensures AllHonest(Publish(c, m, t, p, eventType, w))
  {
    AsideKeepsHonest(m, t, Publish(c, m, t, p, eventType, w));
  }

  lemma OtherStepKeepsHonest(c: Config, m: Machine, t: nat, w: World)
    requires Inv(m) && AllHonest(m) && t in m.threads
    requires !m.threads[t].CheckingKey? && !m.threads[t].AtProvider?
    ensures AllHonest(Step(c, m, t, w))
  {
    match m.threads[t]
    case SavingNew(p) => SaveKeepsHonest(m, t, p, CREATED, w);
    case FindingID(e) => FindStepKeepsHonest(m, t, e, w);
    case FindingRef(e) => FindStepKeepsHonest(m, t, e, w);
    case SavingSettled(p) => SaveKeepsHonest(m, t, p, "payment." + p.status.Text(), w);
    case Publishing(p, eventType) => PublishKeepsHonest(c, m, t, p, eventType, w);
    case Done(_, _) =>
  }

  lemma BeginKeepsHonest(m: Machine, t: nat, phase: Phase)
    requires AllHonest(m) && t !in m.threads && NewID(phase).None?
    ensures AllHonest(At(m, t, phase))
  {
    AsideKeepsHonest(m, t, At(m, t, phase));
  }

  lemma MoveKeepsHonest(c: Config, m: Machine, move: Move)
    requires Inv(m) && AllHonest(m) && Sensible(m, move)
    ensures AllHonest(Do(c, m, move))
  {
    match move.action
    case Advance(w) =>
      if move.thread !in m.threads {
      } else if m.threads[move.thread].CheckingKey? || m.threads[move.thread].AtProvider? {
        CreateStepKeepsHonest(c, m, move.thread, w);
      } else {
        OtherStepKeepsHonest(c, m, move.thread, w);
      }
    case BeginCreate(req) =>
      if move.thread !in m.threads {
        BeginKeepsHonest(m, move.thread, CheckingKey(req));
      }
    case BeginEvent(e) =>
      if move.thread !in m.threads {
        BeginKeepsHonest(m, move.thread, FindingID(e));
      }
  }

  /** Over every interleaving: every row was charged for by exactly one request, which named
      its id and agreed with it; no two charged requests name the same payment; and the
      payment a charged call is about to save is the one it has charged for. */
  lemma {:induction false} ChargedRequestsMatchRows(c: Config, m: Machine, moves: seq<Move>)
    requires Inv(m) && AllHonest(m) && SensibleMoves(c, m, moves)
    ensures AllHonest(DoAll(c, m, moves))
    decreases |moves|
  {
    if moves == [] {
    } else {
      MoveKeepsHonest(c, m, moves[0]);
      DoKeepsInv(c, m, moves[0]);
      ChargedRequestsMatchRows(c, Do(c, m, moves[0]), moves[1..]);
    }
  }

  lemma StartIsHonest(m: Machine)
    requires m == START
    ensures Inv(m) && AllHonest(m)
  {
    StartIsFine(m);
  }
}
