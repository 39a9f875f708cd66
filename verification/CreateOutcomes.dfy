/** What the status code of a create request says, over both repositories, and what can be
    listed afterwards.
 */
module CreateOutcomes {
  import opened Options
  import opened Events
  import opened Entity
  import opened Storage
  import opened Service
  import opened SerialRuns
  import opened Webhook
  import Creation
  import Listing
  import Requests

  /** A customer id is `cust_` and at least one character more. */
  lemma CustomerIDs(id: string)
    ensures ValidCustomer(id) <==> |id| > 5 && id[..5] == "cust_"
  {
    assert |CUSTOMER_PREFIX| == 5;
  }

  /** Objections come in this order: amount, currency, customer, description. */
  lemma ObjectionsInOrder(c: Config, req: Snapshot, env: CreateEnv)
    ensures var built, currencyOk := Build(c, req, env), c.rules.upper(req.currency) in c.rules.supported;
            && (built.Built? <==> 0 < req.amount && currencyOk && ValidCustomer(req.customerID) && req.description != "")
            && (req.amount <= 0 ==> built == Rejected(Domain("payment amount must be positive")))
            && (0 < req.amount && !currencyOk ==>
                  built == Rejected(Domain("unsupported or invalid currency: " + req.currency)))
            && (0 < req.amount && currencyOk && !ValidCustomer(req.customerID) ==>
                  built == Rejected(Domain("customer ID must have 'cust_' prefix and not be empty")))
            && (0 < req.amount && currencyOk && ValidCustomer(req.customerID) && req.description == "" ==>
                  built == Rejected(Domain("description is required")))
  {
  }

  /** What the handler itself accepts. */
  ghost predicate WellFormed(body: Option<PaymentRequest>, key: string) {
    body.Some? && key != "" && 0 < body.value.amount && |body.value.customerID| > 5 && body.value.customerID[..5] == "cust_"
  }

  /** What the domain accepts beyond that. */
  ghost predicate Sellable(c: Config, body: PaymentRequest) {
    c.rules.upper(body.currency) in c.rules.supported && body.description != ""
  }

  lemma RefusedByHandler(c: Config, s: State, body: Option<PaymentRequest>, key: string, env: CreateEnv)
    requires !WellFormed(body, key)
    ensures Accept(c, s, body, key, env) == (s, 400)
  {
    if body.Some? {
      CustomerIDs(body.value.customerID);
    }
  }

  lemma PassedOn(c: Config, s: State, body: PaymentRequest, key: string, env: CreateEnv)
    requires WellFormed(Some(body), key)
    ensures var (after, _, err) := Create(c, s, FromRequest(body, key), env);
            Accept(c, s, Some(body), key, env) == (after, if err.Some? then StatusCode(err.value) else 201)
  {
    CustomerIDs(body.customerID);
  }

  /** The answers to a create request over the in-memory store: 201 exactly when it is well
      formed and its key is in use, or it is sellable and charged; 400 exactly when it is not
      well formed, or its key is unused and it is not sellable; 500 exactly when it is and the
      provider declines. Only a 201 stores or announces anything. */
  lemma CreateRequestOutcome(c: Config, s: State, clock: int, body: Option<PaymentRequest>, key: string, env: CreateEnv)
    requires Good(s, clock) && env.id !in s.store.Ids() && IsOrder(env.order, s.store) && clock <= env.created <= env.updated
    ensures var (after, code) := Accept(c, s, body, key, env);
            var used := exists id | id in s.store.payments :: s.store.payments[id].idempotencyKey == key;
            && (code == 201 <==> WellFormed(body, key) && (used || (Sellable(c, body.value) && env.reply.Charged?)))
            && (code == 400 <==> !WellFormed(body, key) || (!used && !Sellable(c, body.value)))
            && (code == 500 <==> WellFormed(body, key) && !used && Sellable(c, body.value) && env.reply.Declined?)
            && (code != 201 ==> after.store == s.store && after.log == s.log)
  {
    if WellFormed(body, key) {
      var req := FromRequest(body.value, key);
      CustomerIDs(req.customerID);
      PassedOn(c, s, body.value, key, env);
      Creation.CreateSucceedsIff(c, s, clock, req, env);
      if Create(c, s, req, env).2.Some? {
        FailureIs(c, s, req, env);
        Creation.FailedCreateStoresNothing(c, s, req, env);
      }
    } else {
      RefusedByHandler(c, s, body, key, env);
    }
  }

  /** Why a create over the in-memory store fails: the domain's objection, or the provider's. */
  lemma FailureIs(c: Config, s: State, req: Snapshot, env: CreateEnv)
    requires s.store.Memory? && Create(c, s, req, env).2.Some?
    ensures var err := Create(c, s, req, env).2.value;
            && (err.Domain? <==> Build(c, req, env).Rejected?)
            && (!err.Domain? <==> err == ProviderFailed(c.provider, if env.reply.Declined? then env.reply.message else ""))
            && (Build(c, req, env).Built? ==> env.reply.Declined?)
  {
  }

  /** A request answered 201 under an unused key stores a pending payment with the request's
      values and hands the provider's reference on; the card token goes nowhere. */
  lemma CreatedPaymentIsStored(c: Config, s: State, clock: int, body: PaymentRequest, key: string, env: CreateEnv)
    requires Good(s, clock) && env.id !in s.store.Ids() && IsOrder(env.order, s.store) && clock <= env.created <= env.updated
    requires Accept(c, s, Some(body), key, env).1 == 201
    requires forall id | id in s.store.payments :: s.store.payments[id].idempotencyKey != key
    ensures var after := Accept(c, s, Some(body), key, env).0;
            && env.reply.Charged? && after.store.Memory? && env.id in after.store.payments
            && var p := after.store.payments[env.id];
               && p.id == env.id && p.amount == body.amount && p.currency == c.rules.upper(body.currency)
               && p.customerID == body.customerID && p.description == body.description && p.idempotencyKey == key
               && p.status == Pending && p.transactionID == env.reply.transactionID && p.paymentMethod == ""
               && p.createdAt == env.created && p.updatedAt == env.updated
  {
    var req := FromRequest(body, key);
    CreateRequestOutcome(c, s, clock, Some(body), key, env);
    PassedOn(c, s, body, key, env);
    Creation.CreateSucceedsIff(c, s, clock, req, env);
    Creation.CreateStores(c, s, clock, req, env);
  }

  /** A payment that was just created is in an unfiltered listing that has room for all. */
  lemma CreatedPaymentIsListed(c: Config, s: State, clock: int, body: PaymentRequest, key: string, env: CreateEnv,
                               limit: int, r: seq<Snapshot>)
    requires Good(s, clock) && env.id !in s.store.Ids() && IsOrder(env.order, s.store) && clock <= env.created <= env.updated
    requires Accept(c, s, Some(body), key, env).1 == 201
    requires forall id | id in s.store.payments :: s.store.payments[id].idempotencyKey != key
    requires var after := Accept(c, s, Some(body), key, env).0;
             && after.store.Memory? && |after.store.payments| <= (if limit > 0 then limit else 50)
             && Listing.Lists(Listing.ListFilter("", limit), after.store.payments, r)
    ensures exists i | 0 <= i < |r| :: r[i].id == env.id && r[i].idempotencyKey == key && r[i].amount == body.amount
  {
    var after := Accept(c, s, Some(body), key, env).0;
    CreatedPaymentIsStored(c, s, clock, body, key, env);
    Listing.ListsByName(Listing.ListFilter("", limit), after.store.payments, r);
    assert after.store.payments[env.id] in r;
  }

  // ----- Over the table -----

  /** Over the table, for an unused key: 201 exactly when the request is well formed, sellable,
      charged and saved; 500 exactly when the provider declines or the save fails; whether the
      key could be looked up makes no difference. */
  lemma CreateRequestOverTable(c: Config, s: State, body: Option<PaymentRequest>, key: string, env: CreateEnv)
    requires s.store.Table? && env.id !in s.store.rows && IsOrder(env.order, s.store)
    requires forall id | id in s.store.rows :: s.store.rows[id].idempotencyKey != Some(key)
    ensures var (after, code) := Accept(c, s, body, key, env);
            var charged := WellFormed(body, key) && Sellable(c, body.value) && env.reply.Charged?;
            && (code == 201 <==> charged && after.store != s.store)
            && (code == 400 <==> !WellFormed(body, key) || !Sellable(c, body.value))
            && (code == 500 <==> WellFormed(body, key) && Sellable(c, body.value) && (env.reply.Declined? || after.store == s.store))
            && (env.saveDown ==> after.store == s.store)
            && (code != 201 ==> after.store == s.store && after.log == s.log)
  {
    if WellFormed(body, key) {
      var req := FromRequest(body.value, key);
      CustomerIDs(req.customerID);
      PassedOn(c, s, body.value, key, env);
      FindFinds(s.store, env.order, ByKey, key);
      if Build(c, req, env).Built? {
        ChargeOverTable(c, s, Build(c, req, env).payment, env);
      }
    } else {
      RefusedByHandler(c, s, body, key, env);
    }
  }

  lemma ChargeOverTable(c: Config, s: State, p: Snapshot, env: CreateEnv)
    requires s.store.Table? && p.id !in s.store.rows
    ensures var (after, _, err) := Charge(c, s, p, env);
            && (err.None? <==> env.reply.Charged? && after.store != s.store)
            && (err.Some? ==> after.store == s.store && after.log == s.log && StatusCode(err.value) == 500)
            && (env.saveDown ==> after.store == s.store)
  {
    if env.reply.Charged? {
      var q := p.(transactionID := env.reply.transactionID);
      if s.store.Save(q, env.saveDown).Some? {
        assert p.id in s.store.Save(q, env.saveDown).value.rows;
      }
    }
  }

  /** Over the table a stored key whose lookup is answered gives the stored payment and 201;
      one whose lookup is not answered goes on to the provider. */
  lemma StoredKeyOverTable(c: Config, s: State, id: string, body: PaymentRequest, key: string, env: CreateEnv)
    requires s.store.Table? && env.id !in s.store.rows && IsOrder(env.order, s.store)
    requires id in s.store.rows && s.store.rows[id].idempotencyKey == Some(key) && WellFormed(Some(body), key)
    ensures var (after, code) := Accept(c, s, Some(body), key, env);
            && (!env.queryDown ==> after == s && code == 201)
            && (env.queryDown && Sellable(c, body) ==> |after.calls| == |s.calls| + 1)
  {
    CustomerIDs(body.customerID);
    PassedOn(c, s, body, key, env);
    FindFinds(s.store, env.order, ByKey, key);
    assert Carries(s.store, id, ByKey, key);
  }
}
