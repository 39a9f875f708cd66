/** Delivery of provider events in serial runs over the table, with any outages: the first
    event that is applied to a payment, and saved, decides its status for ever.
 */
module TableDelivery {
  import opened Options
  import opened Events
  import opened Entity
  import opened Storage
  import opened Service
  import opened SerialRuns
  import opened TableRuns
  import Delivery
  import Refinement

  /** No row is ever removed; what a row says about a payment never changes but for status,
      reference and update time, and nothing once the status is terminal. */
  lemma {:induction false} RowsEvolve(c: Config, s: State, clock: int, calls: seq<Call>, id: string)
    requires TableGood(s, clock) && Refinement.ThreeLetterCodes(c) && SensibleRun(c, s, clock, calls) && id in s.store.rows
    ensures var end := Run(c, s, calls);
            && end.store.Table? && id in end.store.rows
            && Delivery.Evolves(View(s.store.rows)[id], View(end.store.rows)[id])
    decreases |calls|
  {
    if calls == [] {
    } else {
      var next := Next(c, s, calls[0]);
      CallEvolves(c, s, clock, calls[0], id);
      CallKeepsTable(c, s, clock, calls[0]);
      RowsEvolve(c, next, ClockAfter(calls[0]), calls[1..], id);
    }
  }

  lemma WriteEvolves(m: Payments, w: Write, clock: int, id: string)
    requires IsWrite(m, w, clock) && id in m
    ensures Delivery.Evolves(m[id], m[w.p.id := w.p][id])
  {
  }

  lemma ViewKeys(rows: Rows)
    ensures View(rows).Keys == rows.Keys
  {
  }

  lemma CallEvolves(c: Config, s: State, clock: int, call: Call, id: string)
    requires TableGood(s, clock) && Refinement.ThreeLetterCodes(c) && Sensible(s, clock, call) && id in s.store.rows
    ensures var next := Next(c, s, call);
            && next.store.Table? && id in next.store.rows
            && Delivery.Evolves(View(s.store.rows)[id], View(next.store.rows)[id])
  {
    var w := CallWrites(c, s, clock, call);
    ViewKeys(s.store.rows);
    ViewKeys(Next(c, s, call).store.rows);
    if w.Some? {
      WriteEvolves(View(s.store.rows), w.value, ClockAfter(call), id);
    }
  }

  // ----- First writer wins -----

  function StatusIn(s: State, id: string): Option<Status> {
    if s.store.Table? && id in s.store.rows then Some(s.store.rows[id].status) else None
  }

  /** The payment and status of an event call that succeeds. */
  function AppliedTo(c: Config, s: State, call: Call): Option<(string, Status)> {
    match call
    case CreateCall(_, _) => None
    case EventCall(e, env) =>
      match (Target(e.eventType), Resolve(s.store, e, env))
      case (Some(to), Resolved(id)) => if Process(c, s, e, env).1.None? then Some((id, to)) else None
      case _ => None
  }

  function FirstApplied(c: Config, s: State, calls: seq<Call>, id: string): Option<Status>
    decreases |calls|
  {
    if calls == [] then None else
      var applied := AppliedTo(c, s, calls[0]);
      if applied.Some? && applied.value.0 == id then Some(applied.value.1)
      else FirstApplied(c, Next(c, s, calls[0]), calls[1..], id)
  }

  lemma StoreAppliesNothing(c: Config, s: State, p: Snapshot, env: CreateEnv, id: string)
    requires s.store.Table? && p.id !in s.store.rows && p.status == Pending
    ensures Delivery.SettledBy(StatusIn(s, id), None, id, StatusIn(Store(c, s, p, env).0, id))
  {
  }

  lemma ChargeAppliesNothing(c: Config, s: State, p: Snapshot, env: CreateEnv, id: string)
    requires s.store.Table? && p.id !in s.store.rows && p.status == Pending
    ensures Delivery.SettledBy(StatusIn(s, id), None, id, StatusIn(Charge(c, s, p, env).0, id))
  {
    if env.reply.Charged? {
      var charged := s.(calls := s.calls + [ProviderCall(RequestFor(p), true)]);
      StoreAppliesNothing(c, charged, p.(transactionID := env.reply.transactionID), env, id);
    }
  }

  lemma CreateAppliesNothing(c: Config, s: State, clock: int, req: Snapshot, env: CreateEnv, id: string)
    requires TableGood(s, clock) && Refinement.ThreeLetterCodes(c) && Sensible(s, clock, CreateCall(req, env))
    ensures Delivery.SettledBy(StatusIn(s, id), None, id, StatusIn(Create(c, s, req, env).0, id))
  {
    if Existing(s.store, req, env).None? && Build(c, req, env).Built? {
      BuiltIsNewborn(c, req, env);
      ChargeAppliesNothing(c, s, Build(c, req, env).payment, env, id);
    }
  }

  lemma ResolvedIsStored(s: State, e: DomainEvent, env: EventEnv)
    requires s.store.Table? && Resolve(s.store, e, env).Resolved?
    ensures Resolve(s.store, e, env).id in s.store.rows
  {
    FoundIsStored(s.store, env.order, ByRef, e.transactionID);
  }

  lemma {:induction false} FoundIsStored(b: Backend, order: seq<string>, col: Column, v: string)
    ensures Find(b, order, col, v).Some? ==> Find(b, order, col, v).value in b.Ids() && Carries(b, Find(b, order, col, v).value, col, v)
    decreases |order|
  {
    if order == [] {
    } else {
      FoundIsStored(b, order[1..], col, v);
    }
  }

  lemma EventApplies(c: Config, s: State, clock: int, e: DomainEvent, env: EventEnv, id: string)
    requires TableGood(s, clock)
    ensures Delivery.SettledBy(StatusIn(s, id), AppliedTo(c, s, EventCall(e, env)), id, StatusIn(Process(c, s, e, env).0, id))
  {
    if Resolve(s.store, e, env).Resolved? {
      ResolvedIsStored(s, e, env);
    }
  }

  lemma CallApplies(c: Config, s: State, clock: int, call: Call, id: string)
    requires TableGood(s, clock) && Refinement.ThreeLetterCodes(c) && Sensible(s, clock, call)
    ensures Delivery.SettledBy(StatusIn(s, id), AppliedTo(c, s, call), id, StatusIn(Next(c, s, call), id))
  {
    match call
    case CreateCall(req, env) => CreateAppliesNothing(c, s, clock, req, env, id);
    case EventCall(e, env) => EventApplies(c, s, clock, e, env, id);
  }

  lemma SettledRowStays(c: Config, s: State, clock: int, calls: seq<Call>, id: string)
    requires TableGood(s, clock) && Refinement.ThreeLetterCodes(c) && SensibleRun(c, s, clock, calls)
    requires StatusIn(s, id).Some? && StatusIn(s, id).value.Terminal()
    ensures StatusIn(Run(c, s, calls), id) == StatusIn(s, id)
  {
    RowsEvolve(c, s, clock, calls, id);
    assert View(s.store.rows)[id].status == s.store.rows[id].status;
  }

  lemma AppliedIsTerminal(c: Config, s: State, call: Call)
    ensures AppliedTo(c, s, call).Some? ==> AppliedTo(c, s, call).value.1.Terminal()
  {
  }

  /** The final status of a payment is that of the first event that was applied to it and
      saved; an event whose save was refused does not count, and later ones change nothing. */
  lemma {:induction false} FirstSavedWins(c: Config, s: State, clock: int, calls: seq<Call>, id: string)
    requires TableGood(s, clock) && Refinement.ThreeLetterCodes(c) && SensibleRun(c, s, clock, calls)
    requires StatusIn(s, id).None? || StatusIn(s, id) == Some(Pending)
    ensures var end, first := StatusIn(Run(c, s, calls), id), FirstApplied(c, s, calls, id);
            end == Some(Delivery.OrPending(first)) || (end.None? && StatusIn(s, id).None? && first.None?)
    decreases |calls|
  {
    if calls == [] {
    } else {
      var next := Next(c, s, calls[0]);
      CallApplies(c, s, clock, calls[0], id);
      CallKeepsTable(c, s, clock, calls[0]);
      AppliedIsTerminal(c, s, calls[0]);
      if StatusIn(next, id).Some? && StatusIn(next, id).value != Pending {
        SettledRowStays(c, next, ClockAfter(calls[0]), calls[1..], id);
      } else {
        FirstSavedWins(c, next, ClockAfter(calls[0]), calls[1..], id);
      }
    }
  }

  // ----- Redelivery -----

  /** An event call changes something exactly when it resolves to a pending payment, knows
      the event type, and the database takes the save. */
  lemma EventChangesIff(c: Config, s: State, clock: int, e: DomainEvent, env: EventEnv)
    requires TableGood(s, clock)
    ensures Process(c, s, e, env).0 != s <==>
              && Target(e.eventType).Some? && Resolve(s.store, e, env).Resolved?
              && var id, to := Resolve(s.store, e, env).id, Target(e.eventType).value;
                 && id in s.store.rows && s.store.rows[id].status == Pending
                 && s.store.Save(Settled(Scan(id, s.store.rows[id]), e, to, env.settled), env.saveDown).Some?
    ensures Process(c, s, e, env).1.Some? ==> Process(c, s, e, env).0 == s
  {
    var resolution := Resolve(s.store, e, env);
    if resolution.Resolved? && resolution.id in s.store.rows {
      assert View(s.store.rows)[resolution.id].status == s.store.rows[resolution.id].status;
      assert |Process(c, s, e, env).0.log| == |s.log| || |Process(c, s, e, env).0.log| == |s.log| + 1;
    }
  }

  lemma ResolvedByIdOrRef(s: State, e: DomainEvent, env: EventEnv)
    requires s.store.Table? && Resolve(s.store, e, env).Resolved?
    ensures var id := Resolve(s.store, e, env).id;
            && id in s.store.rows
            && (id != e.paymentID ==> e.transactionID != "" && s.store.rows[id].transactionID == Some(e.transactionID))
  {
    FoundIsStored(s.store, env.order, ByRef, e.transactionID);
  }

  lemma AppliedSettles(c: Config, s: State, clock: int, id: string, e: DomainEvent, env: EventEnv)
    requires TableGood(s, clock) && Target(e.eventType).Some? && id in s.store.rows
    requires Apply(c, s, id, e, env).1 != Some(SaveFailed)
    ensures var after := Apply(c, s, id, e, env).0;
            && after.store.Table? && id in after.store.rows && after.store.rows[id].status.Terminal()
            && (s.store.rows[id].transactionID == Some(e.transactionID) && e.transactionID != "" ==>
                  after.store.rows[id].transactionID == Some(e.transactionID))
  {
    assert View(s.store.rows)[id].status == s.store.rows[id].status;
  }

  /** An event that was answered, other than by a refused save, has left its payment settled;
      and if it was found by its reference it still carries it. */
  lemma AnsweredSettles(c: Config, s: State, clock: int, e: DomainEvent, env: EventEnv)
    requires TableGood(s, clock) && Target(e.eventType).Some? && Resolve(s.store, e, env).Resolved?
    requires Process(c, s, e, env).1 != Some(SaveFailed)
    ensures var id, after := Resolve(s.store, e, env).id, Process(c, s, e, env).0;
            && id in s.store.rows && after.store.Table? && id in after.store.rows && after.store.rows[id].status.Terminal()
            && (id != e.paymentID ==> e.transactionID != "" && after.store.rows[id].transactionID == Some(e.transactionID))
  {
    ResolvedByIdOrRef(s, e, env);
    AppliedSettles(c, s, clock, Resolve(s.store, e, env).id, e, env);
  }

  lemma SettledIsLeftAlone(c: Config, s: State, clock: int, e: DomainEvent, env: EventEnv, id: string)
    requires TableGood(s, clock) && id in s.store.rows && s.store.rows[id].status.Terminal()
    requires if id == e.paymentID then !env.idQueryDown
             else e.paymentID !in s.store.rows && e.transactionID != "" && s.store.rows[id].transactionID == Some(e.transactionID)
    ensures Process(c, s, e, env).0 == s
  {
    if Resolve(s.store, e, env).Resolved? {
      var found := Resolve(s.store, e, env).id;
      FoundIsStored(s.store, env.order, ByRef, e.transactionID);
      assert View(s.store.rows)[found].transactionID == FromNull(s.store.rows[found].transactionID);
      assert View(s.store.rows)[id].transactionID == FromNull(s.store.rows[id].transactionID);
      assert found == id;
    }
    EventChangesIff(c, s, clock, e, env);
  }

  lemma StaysAsRead(rows: Rows, later: Rows, id: string)
    requires id in rows && id in later && View(rows)[id] == View(later)[id]
    ensures rows[id].status == later[id].status
    ensures FromNull(rows[id].transactionID) == FromNull(later[id].transactionID)
  {
    assert View(rows)[id] == Scan(id, rows[id]) && View(later)[id] == Scan(id, later[id]);
  }

  /** A settled row is as it was after any run. */
  lemma SettledRowIsKept(c: Config, s: State, clock: int, calls: seq<Call>, id: string)
    requires TableGood(s, clock) && Refinement.ThreeLetterCodes(c) && SensibleRun(c, s, clock, calls)
    requires id in s.store.rows && s.store.rows[id].status.Terminal()
    ensures var end := Run(c, s, calls);
            && TableGood(end, EndClock(clock, calls)) && id in end.store.rows && end.store.rows[id].status.Terminal()
            && FromNull(end.store.rows[id].transactionID) == FromNull(s.store.rows[id].transactionID)
  {
    RowsEvolve(c, s, clock, calls, id);
    RunKeepsTable(c, s, clock, calls);
    assert View(s.store.rows)[id].status == s.store.rows[id].status;
    StaysAsRead(s.store.rows, Run(c, s, calls).store.rows, id);
  }

  /** Redelivery over the table: an event that was resolved and answered, delivered again after
      any further run with any outages, changes neither the table nor the log; when it names
      its payment by id, provided that the lookup by id is answered. */
  lemma RedeliveryChangesNothing(c: Config, s: State, clock: int, e: DomainEvent, env: EventEnv, calls: seq<Call>, env': EventEnv)
    requires TableGood(s, clock) && Refinement.ThreeLetterCodes(c) && Target(e.eventType).Some?
    requires Sensible(s, clock, EventCall(e, env)) && Resolve(s.store, e, env).Resolved?
    requires Process(c, s, e, env).1 != Some(SaveFailed)
    requires SensibleRun(c, Process(c, s, e, env).0, env.settled, calls)
    requires var id, end := Resolve(s.store, e, env).id, Run(c, Process(c, s, e, env).0, calls);
             end.store.Table? && if id == e.paymentID then !env'.idQueryDown else e.paymentID !in end.store.rows
    ensures var end := Run(c, Process(c, s, e, env).0, calls); Process(c, end, e, env').0 == end
  {
    var id, after := Resolve(s.store, e, env).id, Process(c, s, e, env).0;
    CallKeepsTable(c, s, clock, EventCall(e, env));
    AnsweredSettles(c, s, clock, e, env);
    SettledRowIsKept(c, after, env.settled, calls, id);
    SettledIsLeftAlone(c, Run(c, after, calls), EndClock(env.settled, calls), e, env', id);
  }
}
