/** What the provider is asked: the request that a create sends, field by field, and the match
    between charged requests and stored payments over serial runs over the in-memory store.
 */
module Requests {
  import opened Options
  import opened Events
  import opened Entity
  import opened Storage
  import opened Service
  import opened SerialRuns

  /** A create calls the provider at most once, with the new payment's id and the request's
      values, its currency in upper case, and never a payment method; it fails with the
      provider's message if it is declined. */
  lemma CreateRequests(c: Config, s: State, req: Snapshot, env: CreateEnv)
    requires Create(c, s, req, env).0.calls != s.calls
    ensures var (after, _, err) := Create(c, s, req, env);
            && |after.calls| == |s.calls| + 1 && after.calls[..|s.calls|] == s.calls
            && (env.reply.Declined? ==> err == Some(ProviderFailed(c.provider, env.reply.message)))
            && var call := after.calls[|s.calls|];
               && (call.charged <==> env.reply.Charged?)
               && call.request.paymentID == env.id
               && call.request.customerID == req.customerID
               && call.request.amount == req.amount
               && call.request.currency == c.rules.upper(req.currency)
               && call.request.description == req.description
               && call.request.idempotencyKey == req.idempotencyKey
               && call.request.paymentMethod == ""
  {
  }

  /** The request names this payment and agrees with it. */
  ghost predicate Asks(r: ProviderRequest, p: Snapshot) {
    && r.paymentID == p.id && r.customerID == p.customerID && r.amount == p.amount && r.currency == p.currency
    && r.description == p.description && r.idempotencyKey == p.idempotencyKey && r.paymentMethod == ""
  }

  ghost predicate NamesStored(m: Payments, r: ProviderRequest) {
    r.paymentID in m && Asks(r, m[r.paymentID])
  }

  ghost predicate ChargesFor(calls: seq<ProviderCall>, i: int, id: string) {
    0 <= i < |calls| && calls[i].charged && calls[i].request.paymentID == id
  }

  /** Every charged request names a stored payment and agrees with it, no two name the same
      one, and every payment created since `before` is named by one. */
  ghost predicate Matched(before: Payments, s: State) {
    && s.store.Memory?
    && (forall i | 0 <= i < |s.calls| && s.calls[i].charged :: NamesStored(s.store.payments, s.calls[i].request))
    && (forall i, j, id: string | ChargesFor(s.calls, i, id) && ChargesFor(s.calls, j, id) :: i == j)
    && (forall id | id in s.store.payments && id !in before :: exists i :: ChargesFor(s.calls, i, id))
  }

  lemma MovedKeepsMatched(c: Config, before: Payments, s: State, ch: Change, e: DomainEvent, env: EventEnv)
    requires Matched(before, s) && ch.Moved? && IsMoved(c, s, ch, e, env)
    requires forall id | id in s.store.payments :: s.store.payments[id].id == id
    ensures Matched(before, Changed(s, ch))
  {
  }

  lemma RefusedKeepsMatched(before: Payments, s: State, ch: Change)
    requires Matched(before, s) && ch.Refused? && !ch.call.charged
    ensures Matched(before, Changed(s, ch))
  {
    var after := Changed(s, ch);
    forall i, id: string | ChargesFor(after.calls, i, id)
      ensures ChargesFor(s.calls, i, id)
    {
    }
    forall id | id in after.store.payments && id !in before
      ensures exists i :: ChargesFor(after.calls, i, id)
    {
      var i :| ChargesFor(s.calls, i, id);
      assert ChargesFor(after.calls, i, id);
    }
  }

  lemma AddedKeepsMatched(c: Config, before: Payments, s: State, ch: Change, env: CreateEnv)
    requires Matched(before, s) && ch.Added? && IsAdded(c, s, ch, env) && ch.p.id !in s.store.payments && ch.p.paymentMethod == ""
    ensures Matched(before, Changed(s, ch))
  {
    var after := Changed(s, ch);
    var n := |s.calls|;
    assert ChargesFor(after.calls, n, ch.p.id);
    forall i, id: string | ChargesFor(after.calls, i, id)
      ensures if i == n then id == ch.p.id else ChargesFor(s.calls, i, id) && id in s.store.payments
    {
      assert i < n ==> after.calls[i] == s.calls[i] && NamesStored(s.store.payments, s.calls[i].request);
    }
    forall id | id in after.store.payments && id !in before
      ensures exists i :: ChargesFor(after.calls, i, id)
    {
      if id != ch.p.id {
        var i :| ChargesFor(s.calls, i, id);
        assert ChargesFor(after.calls, i, id);
      }
    }
  }

  lemma AddedHasNoMethod(c: Config, s: State, clock: int, req: Snapshot, env: CreateEnv, ch: Change)
    requires s.store.Memory? && Sensible(s, clock, CreateCall(req, env)) && IsChange(c, s, CreateCall(req, env), ch)
    requires Create(c, s, req, env).0 == Changed(s, ch) && ch.Added?
    ensures ch.p.paymentMethod == ""
  {
    var after := Create(c, s, req, env).0;
    assert after.store.payments[ch.p.id] == ch.p;
    assert ch.p.id !in s.store.payments;
  }

  lemma CallKeepsMatched(c: Config, before: Payments, s: State, clock: int, call: Call)
    requires Good(s, clock) && Matched(before, s) && Sensible(s, clock, call)
    ensures Matched(before, Next(c, s, call))
  {
    var ch := CallChanges(c, s, clock, call);
    match call
    case CreateCall(req, env) =>
      if ch.Refused? {
        RefusedKeepsMatched(before, s, ch);
      } else if ch.Added? {
        AddedHasNoMethod(c, s, clock, req, env, ch);
        AddedKeepsMatched(c, before, s, ch, env);
      }
    case EventCall(e, env) =>
      if ch.Moved? {
        MovedKeepsMatched(c, before, s, ch, e, env);
      }
  }

  /** Over serial runs over the in-memory store: each charged request names exactly one stored
      payment and agrees with it in all its fields, and every payment created in the run is
      named by exactly one charged request. */
  lemma {:induction false} ChargedRequestsMatchPayments(c: Config, before: Payments, s: State, clock: int, calls: seq<Call>)
    requires Good(s, clock) && Matched(before, s) && SensibleRun(c, s, clock, calls)
    ensures Matched(before, Run(c, s, calls))
    decreases |calls|
  {
    if calls == [] {
    } else {
      CallKeepsMatched(c, before, s, clock, calls[0]);
      CallKeepsGood(c, s, clock, calls[0]);
      ChargedRequestsMatchPayments(c, before, Next(c, s, calls[0]), ClockAfter(calls[0]), calls[1..]);
    }
  }

  /** A system without charged requests is matched from where it stands. */
  lemma UnchargedIsMatched(s: State)
    requires s.store.Memory? && forall i | 0 <= i < |s.calls| :: !s.calls[i].charged
    ensures Matched(s.store.payments, s)
  {
  }
}
