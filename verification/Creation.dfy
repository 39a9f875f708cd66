/** Creation of payments in serial runs: the idempotency key protects against creating, and
    charging, twice.
 */
module Creation {
  import opened Options
  import opened Events
  import opened Entity
  import opened Storage
  import opened Service
  import opened SerialRuns
  import Delivery

  ghost predicate KeyStored(m: Payments, key: string) {
    exists id | id in m :: m[id].idempotencyKey == key
  }

  /** Each charged key is in the store, and no key was charged twice. */
  ghost predicate ChargedOnce(s: State) {
    && s.store.Memory?
    && (forall i | 0 <= i < |s.calls| && s.calls[i].charged && s.calls[i].request.idempotencyKey != "" ::
          KeyStored(s.store.payments, s.calls[i].request.idempotencyKey))
    && (forall i, j | 0 <= i < j < |s.calls| && s.calls[i].charged && s.calls[j].charged
                      && s.calls[i].request.idempotencyKey != "" ::
          s.calls[i].request.idempotencyKey != s.calls[j].request.idempotencyKey)
  }

  lemma StoredKeysStay(m: Payments, p: Snapshot, key: string)
    requires KeyStored(m, key) && (p.id in m ==> m[p.id].idempotencyKey == p.idempotencyKey)
    ensures KeyStored(m[p.id := p], key)
  {
    var id :| id in m && m[id].idempotencyKey == key;
    assert m[p.id := p][id].idempotencyKey == key;
  }

  /** Every key that was stored still is, after a payment is added or moved. */
  lemma ChangeKeepsStoredKeys(c: Config, s: State, clock: int, call: Call, ch: Change, key: string)
    requires Good(s, clock) && Sensible(s, clock, call) && IsChange(c, s, call, ch) && KeyStored(s.store.payments, key)
    ensures KeyStored(Changed(s, ch).store.payments, key)
  {
    if ch.Added? || ch.Moved? {
      StoredKeysStay(s.store.payments, ch.p, key);
    }
  }

  /** The key of a new payment was not stored before, and is now. */
  lemma AddedKeyIsNew(c: Config, s: State, clock: int, call: Call, ch: Change)
    requires Good(s, clock) && Sensible(s, clock, call) && IsChange(c, s, call, ch) && ch.Added?
    ensures ch.call.request.idempotencyKey == ch.p.idempotencyKey
    ensures KeyStored(Changed(s, ch).store.payments, ch.p.idempotencyKey)
    ensures ch.p.idempotencyKey != "" ==> !KeyStored(s.store.payments, ch.p.idempotencyKey)
  {
    assert Changed(s, ch).store.payments[ch.p.id].idempotencyKey == ch.p.idempotencyKey;
  }

  lemma ChangeKeepsChargedOnce(c: Config, s: State, clock: int, call: Call, ch: Change)
    requires Good(s, clock) && ChargedOnce(s) && Sensible(s, clock, call) && IsChange(c, s, call, ch)
    ensures ChargedOnce(Changed(s, ch))
  {
    var after := Changed(s, ch);
    forall key | KeyStored(s.store.payments, key)
      ensures KeyStored(after.store.payments, key)
    {
      ChangeKeepsStoredKeys(c, s, clock, call, ch, key);
    }
    if ch.Added? {
      AddedKeyIsNew(c, s, clock, call, ch);
    }
  }

  /** In any serial run no non-empty idempotency key is charged twice. */
  lemma {:induction false} NoDoubleCharge(c: Config, s: State, clock: int, calls: seq<Call>)
    requires Good(s, clock) && ChargedOnce(s) && SensibleRun(c, s, clock, calls)
    ensures ChargedOnce(Run(c, s, calls))
    decreases |calls|
  {
    if calls == [] {
    } else {
      var ch := CallChanges(c, s, clock, calls[0]);
      ChangeKeepsChargedOnce(c, s, clock, calls[0], ch);
      CallKeepsGood(c, s, clock, calls[0]);
      NoDoubleCharge(c, Next(c, s, calls[0]), ClockAfter(calls[0]), calls[1..]);
    }
  }

  lemma NewIsStored(c: Config, s: State, req: Snapshot, env: CreateEnv)
    requires s.store.Memory? && CreateNew(c, s, req, env).2.None?
    ensures var (after, p, _) := CreateNew(c, s, req, env);
            && after.store.Memory? && p.id in after.store.payments && after.store.payments[p.id] == p
            && p.idempotencyKey == req.idempotencyKey
  {
  }

  /** A create that succeeds leaves a payment with its id and key in the store, and hands
      exactly that payment to the caller. */
  lemma CreateStores(c: Config, s: State, clock: int, req: Snapshot, env: CreateEnv)
    requires Good(s, clock) && Sensible(s, clock, CreateCall(req, env))
    requires Create(c, s, req, env).2.None?
    ensures var (after, p, _) := Create(c, s, req, env);
            && after.store.Memory? && p.id in after.store.payments && after.store.payments[p.id] == p
            && p.idempotencyKey == req.idempotencyKey
  {
    if Existing(s.store, req, env).None? {
      NewIsStored(c, s, req, env);
    } else {
      FindFinds(s.store, env.order, ByKey, req.idempotencyKey);
    }
  }

  ghost predicate KeyInUse(m: Payments, key: string) {
    key != "" && KeyStored(m, key)
  }

  ghost predicate Acceptable(c: Config, req: Snapshot) {
    0 < req.amount && c.rules.upper(req.currency) in c.rules.supported && ValidCustomer(req.customerID) && req.description != ""
  }

  /** A create succeeds exactly when its key is already in use, or the request is acceptable
      and the provider charges it; a new payment is pending, carries the request's values
      and the provider's reference, and never the card token. */
  lemma CreateSucceedsIff(c: Config, s: State, clock: int, req: Snapshot, env: CreateEnv)
    requires Good(s, clock) && Sensible(s, clock, CreateCall(req, env))
    ensures var (after, p, err) := Create(c, s, req, env);
            && (err.None? <==> KeyInUse(s.store.payments, req.idempotencyKey) || (Acceptable(c, req) && env.reply.Charged?))
            && (err.None? && !KeyInUse(s.store.payments, req.idempotencyKey) ==>
                  p == Snapshot(env.id, req.amount, c.rules.upper(req.currency), Pending, req.idempotencyKey,
                                env.reply.transactionID, req.customerID, req.description, "", env.created, env.updated))
  {
    if req.idempotencyKey != "" {
      FindFinds(s.store, env.order, ByKey, req.idempotencyKey);
      if Existing(s.store, req, env).None? {
        forall id | id in s.store.payments
          ensures s.store.payments[id].idempotencyKey != req.idempotencyKey
        {
          assert !Carries(s.store, id, ByKey, req.idempotencyKey);
        }
      }
    }
  }

  /** A key that is in the store wins: the call returns that payment as it now is, whatever
      the request's other fields say, and neither the store, the log nor the provider sees it. */
  lemma StoredKeyWins(c: Config, s: State, clock: int, id: string, req: Snapshot, env: CreateEnv)
    requires Good(s, clock) && IsOrder(env.order, s.store)
    requires id in s.store.payments && s.store.payments[id].idempotencyKey == req.idempotencyKey != ""
    ensures Create(c, s, req, env) == (s, s.store.payments[id], None)
  {
    FindFinds(s.store, env.order, ByKey, req.idempotencyKey);
  }

  /** Idempotent creation: after a successful create and any further run, another create
      with the same key returns the same payment, as it now is, and changes nothing. */
  lemma CreateIsIdempotent(c: Config, s: State, clock: int, req: Snapshot, env: CreateEnv, calls: seq<Call>,
                           again: Snapshot, env': CreateEnv)
    requires Good(s, clock) && Sensible(s, clock, CreateCall(req, env))
    requires Create(c, s, req, env).2.None? && req.idempotencyKey != ""
    requires SensibleRun(c, Create(c, s, req, env).0, env.updated, calls)
    requires again.idempotencyKey == req.idempotencyKey
    requires IsOrder(env'.order, Run(c, Create(c, s, req, env).0, calls).store)
    ensures var id, end := Create(c, s, req, env).1.id, Run(c, Create(c, s, req, env).0, calls);
            && end.store.Memory? && id in end.store.payments
            && Create(c, end, again, env') == (end, end.store.payments[id], None)
  {
    var (after, p, _) := Create(c, s, req, env);
    assert after == Next(c, s, CreateCall(req, env));
    CreateStores(c, s, clock, req, env);
    CallKeepsGood(c, s, clock, CreateCall(req, env));
    Delivery.PaymentsEvolve(c, after, env.updated, calls, p.id);
    RunKeepsGood(c, after, env.updated, calls);
    StoredKeyWins(c, Run(c, after, calls), EndClock(env.updated, calls), p.id, again, env');
  }

  /** A failed create stores and announces nothing. */
  lemma FailedCreateStoresNothing(c: Config, s: State, req: Snapshot, env: CreateEnv)
    requires Create(c, s, req, env).2.Some?
    ensures var after := Create(c, s, req, env).0;
            && after.store == s.store && after.log == s.log
            && (after.calls == s.calls || |after.calls| == |s.calls| + 1)
  {
  }

  // ----- Retrying after a failure, over either repository -----

  ghost predicate HasKey(b: Backend, key: string) {
    exists id | id in b.Ids() :: Carries(b, id, ByKey, key)
  }

  lemma ExistingIff(b: Backend, req: Snapshot, env: CreateEnv)
    requires IsOrder(env.order, b) && req.idempotencyKey != ""
    ensures Existing(b, req, env).Some? <==> !b.Unavailable(env.queryDown) && HasKey(b, req.idempotencyKey)
    ensures Existing(b, req, env).Some? ==> Existing(b, req, env).value in b.Ids()
  {
    FindFinds(b, env.order, ByKey, req.idempotencyKey);
  }

  lemma SavedKeyIsFound(b: Backend, p: Snapshot, down: bool)
    requires p.id !in b.Ids() && p.idempotencyKey != "" && b.Save(p, down).Some?
    ensures HasKey(b.Save(p, down).value, p.idempotencyKey)
  {
    var after := b.Save(p, down).value;
    assert p.id in after.Ids() && Carries(after, p.id, ByKey, p.idempotencyKey);
  }

  /** The provider has charged for this call. */
  ghost predicate Charges(before: State, after: State) {
    && before.calls < after.calls
    && |after.calls| == |before.calls| + 1
    && after.calls[|before.calls|].charged
  }

  /** A charged create with an unused key either stores the payment under the key, or fails
      and leaves the store as it was, although the provider has charged. */
  lemma ChargedCreateStoresOrFails(c: Config, s: State, req: Snapshot, env: CreateEnv)
    requires env.id !in s.store.Ids() && IsOrder(env.order, s.store)
    requires req.idempotencyKey != "" && !HasKey(s.store, req.idempotencyKey)
    requires Charges(s, Create(c, s, req, env).0)
    ensures var (after, _, err) := Create(c, s, req, env);
            && (err.None? ==> HasKey(after.store, req.idempotencyKey))
            && (err.Some? ==> err == Some(SaveFailed) && after.store == s.store && after.log == s.log)
  {
    ExistingIff(s.store, req, env);
    var p := Build(c, req, env).payment.(transactionID := env.reply.transactionID);
    if s.store.Save(p, env.saveDown).Some? {
      SavedKeyIsFound(s.store, p, env.saveDown);
    }
  }

  lemma CreateCallsProviderIff(c: Config, s: State, req: Snapshot, env: CreateEnv)
    requires Existing(s.store, req, env).Some? ==> Existing(s.store, req, env).value in s.store.Ids()
    ensures Create(c, s, req, env).0.calls != s.calls <==> Existing(s.store, req, env).None? && Acceptable(c, req)
  {
  }

  /** In memory every payment is filed under its own id; a table cannot do otherwise. */
  ghost predicate Filed(b: Backend) {
    b.Memory? ==> forall id | id in b.payments :: b.payments[id].id == id
  }

  lemma SaveKeepsKeys(b: Backend, p: Snapshot, down: bool, key: string)
    requires Filed(b) && key != "" && b.Save(p, down).Some?
    requires p.id in b.Ids() ==> b.Get(p.id).idempotencyKey == p.idempotencyKey
    ensures Filed(b.Save(p, down).value)
    ensures HasKey(b.Save(p, down).value, key) <==> HasKey(b, key) || (p.id !in b.Ids() && p.idempotencyKey == key)
  {
    var after := b.Save(p, down).value;
    if HasKey(b, key) {
      var id :| id in b.Ids() && Carries(b, id, ByKey, key);
      assert Carries(after, id, ByKey, key);
    }
    if p.id !in b.Ids() && p.idempotencyKey == key {
      assert Carries(after, p.id, ByKey, key);
    }
    if HasKey(after, key) {
      var id :| id in after.Ids() && Carries(after, id, ByKey, key);
      assert id in b.Ids() ==> Carries(b, id, ByKey, key);
    }
  }

  /** The call is a create with this key, and it succeeds. */
  ghost predicate CreatesKey(c: Config, s: State, call: Call, key: string) {
    call.CreateCall? && call.req.idempotencyKey == key && Create(c, s, call.req, call.env).2.None?
  }

  lemma CreateFindsOrStores(c: Config, s: State, req: Snapshot, env: CreateEnv, key: string)
    requires Filed(s.store) && key != "" && env.id !in s.store.Ids() && IsOrder(env.order, s.store)
    ensures var (after, _, err) := Create(c, s, req, env);
            Filed(after.store) && (HasKey(after.store, key) <==> HasKey(s.store, key) || (req.idempotencyKey == key && err.None?))
  {
    if req.idempotencyKey != "" {
      ExistingIff(s.store, req, env);
      FindFinds(s.store, env.order, ByKey, req.idempotencyKey);
    }
    if Existing(s.store, req, env).None? && Build(c, req, env).Built? && env.reply.Charged? {
      var p := Build(c, req, env).payment.(transactionID := env.reply.transactionID);
      if s.store.Save(p, env.saveDown).Some? {
        SaveKeepsKeys(s.store, p, env.saveDown, key);
      }
    }
  }

  lemma EventKeepsKeys(c: Config, s: State, e: DomainEvent, env: EventEnv, key: string)
    requires Filed(s.store) && key != ""
    ensures var after := Process(c, s, e, env).0;
            Filed(after.store) && (HasKey(after.store, key) <==> HasKey(s.store, key))
  {
    var resolution := Resolve(s.store, e, env);
    if resolution.Resolved? && resolution.id in s.store.Ids() && Target(e.eventType).Some? {
      var p := Settled(s.store.Get(resolution.id), e, Target(e.eventType).value, env.settled);
      assert p.id == resolution.id;
      if s.store.Save(p, env.saveDown).Some? {
        SaveKeepsKeys(s.store, p, env.saveDown, key);
      }
    }
  }

  /** Some create with this key succeeds in the run. */
  ghost predicate CreatedIn(c: Config, s: State, calls: seq<Call>, key: string)
    decreases |calls|
  {
    calls != [] && (CreatesKey(c, s, calls[0], key) || CreatedIn(c, Next(c, s, calls[0]), calls[1..], key))
  }

  /** Over either repository a key is stored after a run exactly when it was before, or some
      create with it has succeeded. */
  lemma {:induction false} KeyStoredIffCreated(c: Config, s: State, clock: int, calls: seq<Call>, key: string)
    requires Filed(s.store) && key != "" && SensibleRun(c, s, clock, calls)
    ensures Filed(Run(c, s, calls).store)
    ensures HasKey(Run(c, s, calls).store, key) <==> HasKey(s.store, key) || CreatedIn(c, s, calls, key)
    decreases |calls|
  {
    if calls == [] {
    } else {
      match calls[0] {
        case CreateCall(req, env) => CreateFindsOrStores(c, s, req, env, key);
        case EventCall(e, env) => EventKeepsKeys(c, s, e, env, key);
      }
      KeyStoredIffCreated(c, Next(c, s, calls[0]), ClockAfter(calls[0]), calls[1..], key);
    }
  }

  /** The documentation promises that a request can be retried without a duplicate charge.
      After a create that charged, and any further serial run over either repository, a retry
      with the same key calls the provider again exactly when it is acceptable and either the
      key cannot be looked up now, or the payment could not be saved the first time and no
      create with the key has succeeded since. */
  lemma RetryCallsProviderIff(c: Config, s: State, clock: int, req: Snapshot, env: CreateEnv, calls: seq<Call>,
                              again: Snapshot, env': CreateEnv)
    requires Filed(s.store) && Sensible(s, clock, CreateCall(req, env))
    requires req.idempotencyKey != "" && !HasKey(s.store, req.idempotencyKey)
    requires Charges(s, Create(c, s, req, env).0)
    requires SensibleRun(c, Create(c, s, req, env).0, env.updated, calls)
    requires again.idempotencyKey == req.idempotencyKey
    requires IsOrder(env'.order, Run(c, Create(c, s, req, env).0, calls).store)
    ensures var (after, _, err) := Create(c, s, req, env);
            var end := Run(c, after, calls);
            Create(c, end, again, env').0.calls != end.calls <==>
              Acceptable(c, again)
              && (end.store.Unavailable(env'.queryDown) || (err.Some? && !CreatedIn(c, after, calls, req.idempotencyKey)))
  {
    var after := Create(c, s, req, env).0;
    var end := Run(c, after, calls);
    ChargedCreateStoresOrFails(c, s, req, env);
    CreateFindsOrStores(c, s, req, env, req.idempotencyKey);
    KeyStoredIffCreated(c, after, env.updated, calls, req.idempotencyKey);
    ExistingIff(end.store, again, env');
    CreateCallsProviderIff(c, end, again, env');
  }

  lemma {:induction false} RunStaysInMemory(c: Config, s: State, calls: seq<Call>)
    requires s.store.Memory?
    ensures Run(c, s, calls).store.Memory?
    decreases |calls|
  {
    if calls == [] {
    } else {
      CallStaysInMemory(c, s, calls[0]);
      RunStaysInMemory(c, Next(c, s, calls[0]), calls[1..]);
    }
  }

  lemma CallStaysInMemory(c: Config, s: State, call: Call)
    requires s.store.Memory?
    ensures Next(c, s, call).store.Memory?
  {
  }

  lemma MemoryCreateSaves(c: Config, s: State, req: Snapshot, env: CreateEnv)
    requires s.store.Memory? && Charges(s, Create(c, s, req, env).0)
    ensures Create(c, s, req, env).2.None?
  {
  }

  /** In particular, over the in-memory store a retry never reaches the provider again. */
  lemma MemoryRetryIsSafe(c: Config, s: State, clock: int, req: Snapshot, env: CreateEnv, calls: seq<Call>,
                          again: Snapshot, env': CreateEnv)
    requires s.store.Memory? && Filed(s.store) && Sensible(s, clock, CreateCall(req, env))
    requires req.idempotencyKey != "" && !HasKey(s.store, req.idempotencyKey)
    requires Charges(s, Create(c, s, req, env).0)
    requires SensibleRun(c, Create(c, s, req, env).0, env.updated, calls)
    requires again.idempotencyKey == req.idempotencyKey
    requires IsOrder(env'.order, Run(c, Create(c, s, req, env).0, calls).store)
    ensures var end := Run(c, Create(c, s, req, env).0, calls); Create(c, end, again, env').0.calls == end.calls
  {
    MemoryCreateSaves(c, s, req, env);
    CallStaysInMemory(c, s, CreateCall(req, env));
    RunStaysInMemory(c, Create(c, s, req, env).0, calls);
    RetryCallsProviderIff(c, s, clock, req, env, calls, again, env');
  }

  lemma ChargedThenRefused(c: Config, s: State, req: Snapshot, env: CreateEnv)
    requires s.store == Table(map[]) && req.idempotencyKey != "" && Acceptable(c, req)
    requires env.reply.Charged? && env.saveDown
    ensures var (after, _, err) := Create(c, s, req, env);
            && err == Some(SaveFailed) && after.store == s.store
            && |after.calls| == |s.calls| + 1 && after.calls[..|s.calls|] == s.calls
            && after.calls[|s.calls|].charged && after.calls[|s.calls|].request.idempotencyKey == req.idempotencyKey
  {
    FindFinds(s.store, env.order, ByKey, req.idempotencyKey);
    assert Existing(s.store, req, env).None?;
  }

  /** From the empty table: a create is charged and its save is not answered; a second create
      with the same key is charged again. */
  lemma RefusedSaveChargesTwice(c: Config, s: State, req: Snapshot, env: CreateEnv, env': CreateEnv)
    requires s == State(Table(map[]), [], []) && req.idempotencyKey != "" && Acceptable(c, req)
    requires env.reply.Charged? && env.saveDown && env'.reply.Charged? && env'.saveDown
    ensures var calls := Create(c, Create(c, s, req, env).0, req, env').0.calls;
            && |calls| == 2 && calls[0].charged && calls[1].charged
            && calls[0].request.idempotencyKey == calls[1].request.idempotencyKey == req.idempotencyKey
  {
    var first := Create(c, s, req, env).0;
    ChargedThenRefused(c, s, req, env);
    ChargedThenRefused(c, first, req, env');
    var calls := Create(c, first, req, env').0.calls;
    assert calls[0] == calls[..1][0];
  }
}
