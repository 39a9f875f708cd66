/** The two payment repositories: the in-memory map of shared objects and the PostgreSQL
    table of rows, behind the same interface.
 */
module Storage {
  import opened Options
  import opened Entity

  // ----- Rows -----

  /** A row of the payments table, without its primary key. Timestamps are kept to the
      microsecond; None is NULL. */
  datatype Row = Row(
    transactionID: Option<string>,
    customerID: string,
    amount: int,
    currency: string,
    status: Status,
    idempotencyKey: Option<string>,
    description: Option<string>,
    createdMicros: int,
    updatedMicros: int)

  function NullString(s: string): Option<string> {
    if s == "" then None else Some(s)
  }

  function FromNull(s: Option<string>): string {
    if s.None? then "" else s.value
  }

  function Micros(nanos: int): int {
    nanos / 1000
  }

  /** CHAR(3) pads a shorter value with spaces. */
  function Padded(currency: string): (padded: string)
    ensures |padded| == if |currency| >= 3 then |currency| else 3
    decreases 3 - |currency|
  {
    if |currency| >= 3 then currency else Padded(currency + " ")
  }

  /** The largest amount that NUMERIC(10,2) holds, in cents. */
  const MAX_CENTS: int := 9_999_999_999

  function NewRow(p: Snapshot): Row {
    Row(NullString(p.transactionID), p.customerID, p.amount, Padded(p.currency), p.status,
        NullString(p.idempotencyKey), NullString(p.description), Micros(p.createdAt), Micros(p.updatedAt))
  }

  /** What reading a row back gives. The payment method is not stored. */
  function Scan(id: string, r: Row): Snapshot {
    Snapshot(id, r.amount, r.currency, r.status, FromNull(r.idempotencyKey), FromNull(r.transactionID),
             r.customerID, FromNull(r.description), "", 1000 * r.createdMicros, 1000 * r.updatedMicros)
  }

  type Rows = map<string, Row>

  /** Would the UNIQUE constraint on the transaction id reject this value for row `id`? */
  predicate RefTaken(rows: Rows, id: string, ref: Option<string>) {
    ref.Some? && exists other | other in rows :: other != id && rows[other].transactionID == ref
  }

  predicate KeyTaken(rows: Rows, key: Option<string>) {
    key.Some? && exists other | other in rows :: rows[other].idempotencyKey == key
  }

  /** The values fit their columns: the CHECK on the amount, NUMERIC(10,2) and CHAR(3). */
  predicate Fits(p: Snapshot) {
    0 < p.amount <= MAX_CENTS && |p.currency| <= 3
  }

  /** INSERT ... ON CONFLICT (id) DO UPDATE of the three mutable columns; None if a
      constraint is violated. */
  function Upsert(rows: Rows, p: Snapshot): Option<Rows> {
    if !Fits(p) || RefTaken(rows, p.id, NullString(p.transactionID)) then None
    else if p.id in rows then
      Some(rows[p.id := rows[p.id].(transactionID := NullString(p.transactionID), status := p.status,
                                    updatedMicros := Micros(p.updatedAt))])
    else if KeyTaken(rows, NullString(p.idempotencyKey)) then None
    else Some(rows[p.id := NewRow(p)])
  }

  // ----- The repository interface, on values -----

  datatype Backend = Memory(payments: map<string, Snapshot>) | Table(rows: Rows)
  {
    function Ids(): set<string> {
      if Memory? then payments.Keys else rows.Keys
    }

    function Get(id: string): Snapshot
      requires id in Ids()
    {
      if Memory? then payments[id] else Scan(id, rows[id])
    }

    /** Save a payment; None if the database refuses it or is down. */
    function Save(p: Snapshot, down: bool): Option<Backend> {
      if Memory? then Some(Memory(payments[p.id := p]))
      else if down then None
      else match Upsert(rows, p)
           case None => None
           case Some(after) => Some(Table(after))
    }

    /** Only a database can fail to answer a query. */
    predicate Unavailable(down: bool) {
      Table? && down
    }
  }

  datatype Column = ByKey | ByRef

  /** Does the stored payment carry this idempotency key or provider reference? In SQL a
      NULL equals nothing. */
  predicate Carries(b: Backend, id: string, col: Column, v: string)
    requires id in b.Ids()
  {
    match b
    case Memory(payments) => v == (if col.ByKey? then payments[id].idempotencyKey else payments[id].transactionID)
    case Table(rows) => Some(v) == (if col.ByKey? then rows[id].idempotencyKey else rows[id].transactionID)
  }

  /** `order` enumerates the stored ids in the order in which they happen to be visited. */
  ghost predicate IsOrder(order: seq<string>, b: Backend) {
    forall id :: id in order <==> id in b.Ids()
  }

  /** The first stored payment, in visiting order, that carries the value. */
  function Find(b: Backend, order: seq<string>, col: Column, v: string): Option<string> {
    if order == [] then None
    else if order[0] in b.Ids() && Carries(b, order[0], col, v) then Some(order[0])
    else Find(b, order[1..], col, v)
  }

  /** Find finds a payment that carries the value if there is one. */
  lemma {:induction false} FindFinds(b: Backend, order: seq<string>, col: Column, v: string)
    requires forall id | id in b.Ids() && Carries(b, id, col, v) :: id in order
    ensures match Find(b, order, col, v)
            case Some(id) => id in order && id in b.Ids() && Carries(b, id, col, v)
            case None => forall id | id in b.Ids() :: !Carries(b, id, col, v)
    decreases |order|
  {
    if order != [] && !(order[0] in b.Ids() && Carries(b, order[0], col, v)) {
      FindFinds(b, order[1..], col, v);
    }
  }

  // ----- The repositories -----

  class Repository {
    const inMemory: bool
    var payments: map<string, Payment>
    var rows: Rows

    ghost function Objects(): set<Payment>
      reads this
    {
      set id | id in payments :: payments[id]
    }

    /** Every stored object is filed under its own id, so no two ids share an object. */
    ghost predicate Valid()
      reads this, Objects()
    {
      && (inMemory ==> forall id | id in payments :: payments[id].id == id)
      && (!inMemory ==> payments == map[])
    }

    ghost function Contents(): Backend
      reads this, Objects()
    {
      if inMemory then Memory(map id | id in payments :: payments[id].Value()) else Table(rows)
    }

    constructor (inMemory: bool)
      ensures Valid() && this.inMemory == inMemory && payments == map[]
      ensures Contents() == if inMemory then Memory(map[]) else Table(map[])
    {
      this.inMemory, payments, rows := inMemory, map[], map[];
    }

    /** The in-memory store keeps the caller's pointer; the database copies the values. */
    method Save(p: Payment, down: bool) returns (err: Option<Error>)
      requires Valid() && (p in Objects() ==> p.id in payments && payments[p.id] == p)
      modifies this
      ensures Valid()
      ensures Objects() <= old(Objects()) + {p}
      ensures match old(Contents()).Save(p.Value(), down)
              case None => err == Some(SaveFailed) && Contents() == old(Contents())
              case Some(after) => err == None && Contents() == after
    {
      if inMemory {
        payments := payments[p.id := p];
        return None;
      }
      if down {
        return Some(SaveFailed);
      }
      match Upsert(rows, p.Value()) {
        case None => return Some(SaveFailed);
        case Some(after) => rows := after;
      }
      return None;
    }

    /** The pointer the store holds, or a new object filled from the row. */
    method Load(id: string) returns (p: Payment)
      requires Valid() && id in Contents().Ids()
      ensures p.Value() == Contents().Get(id)
      ensures if inMemory then p in Objects() && p == payments[id] else fresh(p)
    {
      if inMemory {
        p := payments[id];
      } else {
        p := new Payment(Scan(id, rows[id]));
      }
    }

    method GetByID(id: string, down: bool) returns (p: Payment?, err: Option<Error>)
      requires Valid()
      ensures p == null <==> err.Some?
      ensures err == if Contents().Unavailable(down) then Some(QueryFailed)
                     else if id !in Contents().Ids() then Some(NotFound) else None
      ensures p != null ==> p.Value() == Contents().Get(id)
      ensures p != null ==> if inMemory then id in payments && p == payments[id] else fresh(p)
    {
      if !inMemory && down {
        return null, Some(QueryFailed);
      }
      if (inMemory && id !in payments) || (!inMemory && id !in rows) {
        return null, Some(NotFound);
      }
      p := Load(id);
      err := None;
    }

    /** Visit the stored payments in the given order and stop at the first that matches. */
    method Scanned(order: seq<string>, col: Column, v: string) returns (found: Option<string>)
      requires Valid()
      ensures found == Find(Contents(), order, col, v)
      ensures found.Some? ==> found.value in Contents().Ids() && Carries(Contents(), found.value, col, v)
    {
      ghost var b := Contents();
      var i := 0;
      while i < |order|
        invariant i <= |order|
        invariant Find(b, order, col, v) == Find(b, order[i..], col, v)
      {
        var id := order[i];
        assert order[i..][0] == id && order[i..][1..] == order[i + 1..];
        if inMemory && id in payments {
          var p := payments[id];
          if v == (if col.ByKey? then p.idempotencyKey else p.transactionID) {
            return Some(id);
          }
        } else if !inMemory && id in rows {
          if Some(v) == (if col.ByKey? then rows[id].idempotencyKey else rows[id].transactionID) {
            return Some(id);
          }
        }
        i := i + 1;
      }
      return None;
    }

    /** A missing key is not an error. */
    method GetByIdempotencyKey(key: string, order: seq<string>, down: bool) returns (p: Payment?, err: Option<Error>)
      requires Valid()
      ensures err == if Contents().Unavailable(down) then Some(QueryFailed) else None
      ensures p == null <==> err.Some? || Find(Contents(), order, ByKey, key).None?
      ensures p != null ==> var id := Find(Contents(), order, ByKey, key).value;
                            id in Contents().Ids() && p.Value() == Contents().Get(id)
    {
      if !inMemory && down {
        return null, Some(QueryFailed);
      }
      var found := Scanned(order, ByKey, key);
      if found.None? {
        return null, None;
      }
      p := Load(found.value);
      err := None;
    }

    method GetByProviderRef(ref: string, order: seq<string>, down: bool) returns (p: Payment?, err: Option<Error>)
      requires Valid()
      ensures p == null <==> err.Some?
      ensures err == if Contents().Unavailable(down) then Some(QueryFailed)
                     else if Find(Contents(), order, ByRef, ref).None? then Some(NotFound) else None
      ensures p != null ==> var id := Find(Contents(), order, ByRef, ref).value;
                            && id in Contents().Ids() && p.Value() == Contents().Get(id)
                            && if inMemory then id in payments && p == payments[id] else fresh(p)
    {
      if !inMemory && down {
        return null, Some(QueryFailed);
      }
      var found := Scanned(order, ByRef, ref);
      if found.None? {
        return null, Some(NotFound);
      }
      p := Load(found.value);
      err := None;
    }
  }
}
