/** The payment entity: its status machine, its validated construction, and the shared
    mutable object behind a `*Payment` pointer.
 */
module Entity {
  import opened Options

  datatype Status = Pending | Processing | Completed | Failed | Cancelled
  {
    predicate Terminal() {
      Completed? || Failed? || Cancelled?
    }

    function Text(): string {
      match this
      case Pending => "pending"
      case Processing => "processing"
      case Completed => "completed"
      case Failed => "failed"
      case Cancelled => "cancelled"
    }
  }

  /** The errors of the payment service. */
  datatype Error =
    | NotFound
    | Domain(message: string)
    | StateMachine(from: Status, to: Status)
    | UnknownEventType(eventType: string)
    | ProviderFailed(provider: string, message: string)
    | SaveFailed
    | QueryFailed

  /** The value of a payment. Amounts are whole cents, times nanoseconds. */
  datatype Snapshot = Snapshot(
    id: string,
    amount: int,
    currency: string,
    status: Status,
    idempotencyKey: string,
    transactionID: string,
    customerID: string,
    description: string,
    paymentMethod: string,
    createdAt: int,
    updatedAt: int)

  // ----- The status machine -----

  const VALID_TRANSITIONS: map<Status, seq<Status>> :=
    map[Pending := [Processing, Cancelled], Processing := [Completed, Failed, Cancelled]]

  ghost predicate Legal(from: Status, to: Status) {
    from in VALID_TRANSITIONS && to in VALID_TRANSITIONS[from]
  }

  // ----- Validated construction -----

  /** What is fixed at start-up: the supported currencies, and strings.ToUpper. */
  datatype Rules = Rules(supported: set<string>, upper: string -> string)

  const CUSTOMER_PREFIX: string := "cust_"

  predicate ValidCustomer(id: string) {
    CUSTOMER_PREFIX <= id && |id| > |CUSTOMER_PREFIX|
  }

  datatype Built = Built(payment: Snapshot) | Rejected(error: Error)

  /** NewPayment: validate in this order: amount, currency, customer, description. */
  function NewPayment(rules: Rules, id: string, transactionID: string, customerID: string, amount: int,
                      currency: string, description: string, idempotencyKey: string, created: int, updated: int): Built {
    if amount <= 0 then Rejected(Domain("payment amount must be positive"))
    else
      var curr := rules.upper(currency);
      if curr !in rules.supported then Rejected(Domain("unsupported or invalid currency: " + currency))
      else if !ValidCustomer(customerID) then
        Rejected(Domain("customer ID must have 'cust_' prefix and not be empty"))
      else if description == "" then Rejected(Domain("description is required"))
      else Built(Snapshot(id, amount, curr, Pending, idempotencyKey, transactionID, customerID, description, "", created, updated))
  }

  // ----- The shared object -----

  /** What a `*Payment` points to. */
  class Payment {
    var id: string
    var amount: int
    var currency: string
    var status: Status
    var idempotencyKey: string
    var transactionID: string
    var customerID: string
    var description: string
    var paymentMethod: string
    var createdAt: int
    var updatedAt: int

    function Value(): Snapshot
      reads this
    {
      Snapshot(id, amount, currency, status, idempotencyKey, transactionID, customerID, description,
               paymentMethod, createdAt, updatedAt)
    }

    constructor (v: Snapshot)
      ensures Value() == v
    {
      id, amount, currency, status := v.id, v.amount, v.currency, v.status;
      idempotencyKey, transactionID, customerID := v.idempotencyKey, v.transactionID, v.customerID;
      description, paymentMethod := v.description, v.paymentMethod;
      createdAt, updatedAt := v.createdAt, v.updatedAt;
    }

    /** `*p = v` */
    method Assign(v: Snapshot)
      modifies this
      ensures Value() == v
    {
      id, amount, currency, status := v.id, v.amount, v.currency, v.status;
      idempotencyKey, transactionID, customerID := v.idempotencyKey, v.transactionID, v.customerID;
      description, paymentMethod := v.description, v.paymentMethod;
      createdAt, updatedAt := v.createdAt, v.updatedAt;
    }

    method CanTransitionTo(next: Status) returns (ok: bool)
      ensures ok <==> Legal(status, next)
    {
      if status !in VALID_TRANSITIONS {
        return false;
      }
      var allowed := VALID_TRANSITIONS[status];
      var i := 0;
      while i < |allowed|
        invariant i <= |allowed|
        invariant next !in allowed[..i]
      {
        if allowed[i] == next {
          return true;
        }
        i := i + 1;
      }
      return false;
    }

    /** Move to the next status if the machine allows it; otherwise change nothing. */
    method Transition(next: Status, now: int) returns (err: Option<Error>)
      modifies this`status, this`updatedAt
      ensures err.None? <==> Legal(old(status), next)
      ensures err.None? ==> Value() == old(Value()).(status := next, updatedAt := now)
      ensures err.Some? ==> Value() == old(Value()) && err == Some(StateMachine(status, next))
    {
      var ok := CanTransitionTo(next);
      if !ok {
        return Some(StateMachine(status, next));
      }
      status, updatedAt := next, now;
      return None;
    }

    method Cancel(now: int) returns (err: Option<Error>)
      modifies this`status, this`updatedAt
      ensures err.None? <==> old(status) in {Pending, Processing}
      ensures err.None? ==> Value() == old(Value()).(status := Cancelled, updatedAt := now)
      ensures err.Some? ==> Value() == old(Value())
    {
      err := Transition(Cancelled, now);
    }
  }

  // ----- Properties of the status machine -----

  ghost predicate Path(path: seq<Status>) {
    forall i | 0 <= i < |path| - 1 :: Legal(path[i], path[i + 1])
  }

  /** Terminal statuses are exactly those without a way out. */
  lemma TerminalIffStuck(s: Status)
    ensures s.Terminal() <==> forall next: Status :: !Legal(s, next)
  {
    if s.Pending? {
      assert Legal(s, Cancelled);
    } else if s.Processing? {
      assert Legal(s, Failed);
    }
  }

  function Rank(s: Status): nat {
    match s
    case Pending => 0
    case Processing => 1
    case _ => 2
  }

  /** A path of transitions only moves forward, so it never comes back to a status it has
      left, and only its last status can be terminal; completed and failed are only
      reached through processing. */
  lemma {:induction false} PathsMoveForward(path: seq<Status>, i: nat, j: nat)
    requires Path(path) && i < j < |path|
    ensures Rank(path[i]) < Rank(path[j]) && path[i] != path[j] && !path[i].Terminal()
    ensures path[j] in {Completed, Failed} ==> path[j - 1] == Processing
    decreases j
  {
    assert Legal(path[j - 1], path[j]);
    if i < j - 1 {
      PathsMoveForward(path, i, j - 1);
    }
  }
}
