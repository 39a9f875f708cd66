/** Concurrent calls over the PostgreSQL repository: every CreatePayment and ProcessEvent is
    cut into its repository, provider and publisher steps, and the steps of any number of
    calls interleave in any way. Each database statement is atomic; there are no locks and
    no transactions around several of them.
 */
module Interleaving {
  import opened Options
  import opened Events
  import opened Entity
  import opened Storage
  import opened Service

  /** Where a call is: what its next step will do, with the copies it holds. */
  datatype Phase =
    | CheckingKey(req: Snapshot)
    | AtProvider(p: Snapshot)
    | SavingNew(p: Snapshot)
    | FindingID(e: DomainEvent)
    | FindingRef(e: DomainEvent)
    | SavingSettled(p: Snapshot)
    | Publishing(p: Snapshot, eventType: string)
    | Done(answer: Option<Snapshot>, err: Option<Error>)

  /** The table, the published events, the provider calls, the calls in flight, the ids
      generated so far, and the statuses each row has had. */
  datatype Machine = Machine(
    rows: Rows,
    log: seq<PaymentEvent>,
    calls: seq<ProviderCall>,
    threads: map<nat, Phase>,
    used: set<string>,
    history: map<string, seq<Status>>)

  /** What the outside world contributes to one step. */
  datatype World = World(
    order: seq<string>,
    down: bool,
    id: string,
    placeholder: string,
    now: int,
    later: int,
    reply: Reply,
    eventID: string)

  datatype Action = BeginCreate(req: Snapshot) | BeginEvent(e: DomainEvent) | Advance(w: World)

  datatype Move = Move(thread: nat, action: Action)

  const START: Machine := Machine(map[], [], [], map[], {}, map[])

  // ----- The steps -----

  function At(m: Machine, t: nat, phase: Phase): Machine {
    m.(threads := m.threads[t := phase])
  }

  function Fail(m: Machine, t: nat, err: Error): Machine {
    At(m, t, Done(None, Some(err)))
  }

  function BuildNew(c: Config, req: Snapshot, w: World): Built {
    NewPayment(c.rules, w.id, w.placeholder, req.customerID, req.amount, req.currency,
               req.description, req.idempotencyKey, w.now, w.later)
  }

  /** Look the key up; build a new payment if it is free or could not be looked up. */
  function CheckKey(c: Config, m: Machine, t: nat, req: Snapshot, w: World): Machine {
    var found := if req.idempotencyKey == "" || w.down then None else Find(Table(m.rows), w.order, ByKey, req.idempotencyKey);
    if found.Some? && found.value in m.rows then At(m, t, Done(Some(Scan(found.value, m.rows[found.value])), None))
    else
      match BuildNew(c, req, w)
      case Rejected(error) => Fail(m, t, error)
      case Built(p) => At(m, t, AtProvider(p)).(used := m.used + {w.id})
  }

  function CallProvider(c: Config, m: Machine, t: nat, p: Snapshot, w: World): Machine {
    match w.reply
    case Declined(why) => Fail(m, t, ProviderFailed(c.provider, why)).(calls := m.calls + [ProviderCall(RequestFor(p), false)])
    case Charged(ref) =>
      At(m, t, SavingNew(p.(transactionID := ref))).(calls := m.calls + [ProviderCall(RequestFor(p), true)])
  }

  function Noted(history: map<string, seq<Status>>, p: Snapshot): map<string, seq<Status>> {
    history[p.id := (if p.id in history then history[p.id] else []) + [p.status]]
  }

  /** One upsert; the next step publishes. */
  function SaveRow(m: Machine, t: nat, p: Snapshot, eventType: string, w: World): Machine {
    var saved := if w.down then None else Upsert(m.rows, p);
    match saved
    case None => Fail(m, t, SaveFailed)
    case Some(rows) => At(m, t, Publishing(p, eventType)).(rows := rows, history := Noted(m.history, p))
  }

  /** The database takes this save. */
  ghost predicate Accepted(m: Machine, p: Snapshot, w: World) {
    !w.down && Upsert(m.rows, p).Some?
  }

  /** What ProcessEvent does with the copy it has read, up to the save. */
  function Decide(m: Machine, t: nat, p: Snapshot, e: DomainEvent, w: World): Machine {
    match Target(e.eventType)
    case None => Fail(m, t, UnknownEventType(e.eventType))
    case Some(to) =>
      if p.status == to then At(m, t, Done(Some(p), None))
      else if p.status.Terminal() then Fail(m, t, StateMachine(p.status, to))
      else At(m, t, SavingSettled(Settled(p, e, to, w.later)))
  }

  function FindID(m: Machine, t: nat, e: DomainEvent, w: World): Machine {
    if !w.down && e.paymentID in m.rows then Decide(m, t, Scan(e.paymentID, m.rows[e.paymentID]), e, w)
    else if e.transactionID != "" then At(m, t, FindingRef(e))
    else Fail(m, t, if w.down then QueryFailed else NotFound)
  }

  function FindRef(m: Machine, t: nat, e: DomainEvent, w: World): Machine {
    var found := if w.down then None else Find(Table(m.rows), w.order, ByRef, e.transactionID);
    if found.Some? && found.value in m.rows then Decide(m, t, Scan(found.value, m.rows[found.value]), e, w)
    else Fail(m, t, if w.down then QueryFailed else NotFound)
  }

  function Publish(c: Config, m: Machine, t: nat, p: Snapshot, eventType: string, w: World): Machine {
    At(m, t, Done(Some(p), None)).(log := m.log + [EventFor(c, p, eventType, w.eventID, w.now)])
  }

  /** The next step of a call in flight. */
  function Step(c: Config, m: Machine, t: nat, w: World): Machine {
    if t !in m.threads then m else
      match m.threads[t]
      case CheckingKey(req) => CheckKey(c, m, t, req, w)
      case AtProvider(p) => CallProvider(c, m, t, p, w)
      case SavingNew(p) => SaveRow(m, t, p, CREATED, w)
      case FindingID(e) => FindID(m, t, e, w)
      case FindingRef(e) => FindRef(m, t, e, w)
      case SavingSettled(p) => SaveRow(m, t, p, "payment." + p.status.Text(), w)
      case Publishing(p, eventType) => Publish(c, m, t, p, eventType, w)
      case Done(_, _) => m
  }

  function Do(c: Config, m: Machine, move: Move): Machine {
    match move.action
    case BeginCreate(req) => if move.thread in m.threads then m else At(m, move.thread, CheckingKey(req))
    case BeginEvent(e) => if move.thread in m.threads then m else At(m, move.thread, FindingID(e))
    case Advance(w) => Step(c, m, move.thread, w)
  }

  function DoAll(c: Config, m: Machine, moves: seq<Move>): Machine
    decreases |moves|
  {
    if moves == [] then m else DoAll(c, Do(c, m, moves[0]), moves[1..])
  }

  /** Generated ids are new, and lookups visit every row. */
  ghost predicate Sensible(m: Machine, move: Move) {
    move.action.Advance? ==> move.action.w.id !in m.used && IsOrder(move.action.w.order, Table(m.rows))
  }

  ghost predicate SensibleMoves(c: Config, m: Machine, moves: seq<Move>)
    decreases |moves|
  {
    moves != [] ==> Sensible(m, moves[0]) && SensibleMoves(c, Do(c, m, moves[0]), moves[1..])
  }

  // ----- The invariant -----

  /** The UNIQUE constraints hold, and an absent key is NULL, not the empty string. */
  ghost predicate Unique(rows: Rows) {
    && (forall id | id in rows :: rows[id].idempotencyKey != Some(""))
    && (forall id, id' | id in rows && id' in rows && rows[id].idempotencyKey.Some?
                         && rows[id].idempotencyKey == rows[id'].idempotencyKey :: id == id')
    && (forall id, id' | id in rows && id' in rows && rows[id].transactionID.Some?
                         && rows[id].transactionID == rows[id'].transactionID :: id == id')
  }

  /** Every row can be read back: neither value object would panic. */
  ghost predicate Readable(rows: Rows) {
    forall id | id in rows :: 0 < rows[id].amount && ValidCustomer(rows[id].customerID)
  }

  /** Pending at first, and terminal ever after. */
  ghost predicate PendingThenTerminal(h: seq<Status>) {
    h != [] && h[0] == Pending && forall i | 0 < i < |h| :: h[i].Terminal()
  }

  /** A history ends with the status the row has. */
  ghost predicate HistoryOf(row: Row, h: seq<Status>) {
    PendingThenTerminal(h) && row.status == h[|h| - 1]
  }

  ghost predicate Histories(m: Machine) {
    && m.history.Keys == m.rows.Keys <= m.used
    && forall id | id in m.rows :: HistoryOf(m.rows[id], m.history[id])
  }

  /** The copy a new payment is saved from: pending, under an id that no row has yet. */
  ghost predicate NewCopy(m: Machine, p: Snapshot) {
    p.status == Pending && p.id in m.used && p.id !in m.rows && ValidCustomer(p.customerID)
  }

  /** A copy of a stored payment, under the key it is stored with. */
  ghost predicate StoredCopy(m: Machine, p: Snapshot) {
    p.id in m.rows && m.rows[p.id].idempotencyKey == NullString(p.idempotencyKey)
  }

  /** The copy a call holds is sane for its phase. */
  ghost predicate PhaseOk(m: Machine, phase: Phase) {
    match phase
    case AtProvider(p) => NewCopy(m, p)
    case SavingNew(p) => NewCopy(m, p)
    case SavingSettled(p) => StoredCopy(m, p) && p.status.Terminal()
    case Publishing(p, _) => StoredCopy(m, p)
    case Done(Some(p), _) => StoredCopy(m, p)
    case _ => true
  }

  function NewID(phase: Phase): Option<string> {
    match phase
    case AtProvider(p) => Some(p.id)
    case SavingNew(p) => Some(p.id)
    case _ => None
  }

  ghost predicate Threads(m: Machine) {
    && (forall t | t in m.threads :: PhaseOk(m, m.threads[t]))
    && (forall t, t' | t in m.threads && t' in m.threads && NewID(m.threads[t]).Some?
                       && NewID(m.threads[t]) == NewID(m.threads[t']) :: t == t')
  }

  /** Only payments that are in the table have been announced. */
  ghost predicate OnlyStoredAnnounced(m: Machine) {
    forall i | 0 <= i < |m.log| :: m.log[i].paymentID in m.rows
  }

  ghost predicate Inv(m: Machine) {
    Unique(m.rows) && Readable(m.rows) && Histories(m) && Threads(m) && OnlyStoredAnnounced(m)
  }

  // ----- Every step keeps it -----

  lemma UpsertKeepsUnique(rows: Rows, p: Snapshot)
    requires Unique(rows) && Upsert(rows, p).Some?
    ensures Unique(Upsert(rows, p).value)
    ensures Upsert(rows, p).value.Keys == rows.Keys + {p.id}
    ensures forall id | id in rows && id != p.id :: Upsert(rows, p).value[id] == rows[id]
    ensures Upsert(rows, p).value[p.id].status == p.status
    ensures Upsert(rows, p).value[p.id].idempotencyKey
            == if p.id in rows then rows[p.id].idempotencyKey else NullString(p.idempotencyKey)
  {
  }

  lemma PhaseChangeKeepsInv(m: Machine, t: nat, phase: Phase)
    requires Inv(m) && PhaseOk(m, phase) && NewID(phase).None?
    ensures Inv(At(m, t, phase))
  {
  }

  lemma NewCopyKeepsInv(m: Machine, t: nat, p: Snapshot)
    requires Inv(m) && p.id !in m.used && p.status == Pending && ValidCustomer(p.customerID)
    ensures Inv(At(m, t, AtProvider(p)).(used := m.used + {p.id}))
  {
  }

  lemma CheckKeyKeepsInv(c: Config, m: Machine, t: nat, req: Snapshot, w: World)
    requires Inv(m) && w.id !in m.used
    ensures Inv(CheckKey(c, m, t, req, w))
  {
    var found := if req.idempotencyKey == "" || w.down then None else Find(Table(m.rows), w.order, ByKey, req.idempotencyKey);
    var built := BuildNew(c, req, w);
    if found.Some? && found.value in m.rows {
      PhaseChangeKeepsInv(m, t, Done(Some(Scan(found.value, m.rows[found.value])), None));
    } else if built.Rejected? {
      PhaseChangeKeepsInv(m, t, Done(None, Some(built.error)));
    } else {
      NewCopyKeepsInv(m, t, built.payment);
    }
  }

  lemma CallsKeepInv(m: Machine, calls: seq<ProviderCall>)
    requires Inv(m)
    ensures Inv(m.(calls := calls))
  {
  }

  lemma ChargedKeepsInv(m: Machine, t: nat, p: Snapshot, ref: string)
    requires Inv(m) && t in m.threads && m.threads[t] == AtProvider(p)
    ensures Inv(At(m, t, SavingNew(p.(transactionID := ref))))
  {
    assert NewID(m.threads[t]) == Some(p.id) && PhaseOk(m, m.threads[t]);
  }

  lemma CallProviderKeepsInv(c: Config, m: Machine, t: nat, p: Snapshot, w: World)
    requires Inv(m) && t in m.threads && m.threads[t] == AtProvider(p)
    ensures Inv(CallProvider(c, m, t, p, w))
  {
    match w.reply
    case Declined(why) =>
      var err := ProviderFailed(c.provider, why);
      PhaseChangeKeepsInv(m, t, Done(None, Some(err)));
      CallsKeepInv(Fail(m, t, err), m.calls + [ProviderCall(RequestFor(p), false)]);
    case Charged(ref) =>
      ChargedKeepsInv(m, t, p, ref);
      CallsKeepInv(At(m, t, SavingNew(p.(transactionID := ref))), m.calls + [ProviderCall(RequestFor(p), true)]);
  }

  lemma NotedKeepsHistory(h: seq<Status>, status: Status)
    requires if h == [] then status == Pending else PendingThenTerminal(h) && status.Terminal()
    ensures PendingThenTerminal(h + [status])
  {
  }

  lemma NotedIsHistory(m: Machine, row: Row, p: Snapshot)
    requires Histories(m) && (NewCopy(m, p) || (p.id in m.rows && p.status.Terminal())) && row.status == p.status
    ensures HistoryOf(row, Noted(m.history, p)[p.id])
  {
    var before := if p.id in m.history then m.history[p.id] else [];
    NotedKeepsHistory(before, p.status);
  }

  lemma NotedKeepsHistories(m: Machine, rows: Rows, p: Snapshot)
    requires Histories(m) && (NewCopy(m, p) || (p.id in m.rows && p.status.Terminal()))
    requires rows.Keys == m.rows.Keys + {p.id} && rows[p.id].status == p.status
    requires forall id | id in m.rows && id != p.id :: rows[id] == m.rows[id]
    ensures Histories(m.(rows := rows, history := Noted(m.history, p)))
  {
    NotedIsHistory(m, rows[p.id], p);
  }

  lemma SaveKeepsHistories(m: Machine, t: nat, p: Snapshot, eventType: string, w: World)
    requires Histories(m) && Unique(m.rows) && (NewCopy(m, p) || (p.id in m.rows && p.status.Terminal()))
    ensures Histories(SaveRow(m, t, p, eventType, w))
  {
    var saved := if w.down then None else Upsert(m.rows, p);
    if saved.Some? {
      UpsertKeepsUnique(m.rows, p);
      NotedKeepsHistories(m, saved.value, p);
    }
  }

  lemma SaveKeepsRows(m: Machine, t: nat, p: Snapshot, eventType: string, w: World)
    requires Unique(m.rows) && OnlyStoredAnnounced(m)
    ensures Unique(SaveRow(m, t, p, eventType, w).rows) && OnlyStoredAnnounced(SaveRow(m, t, p, eventType, w))
  {
    if !w.down && Upsert(m.rows, p).Some? {
      UpsertKeepsUnique(m.rows, p);
    }
  }

  lemma SaveKeepsReadable(m: Machine, t: nat, p: Snapshot, eventType: string, w: World)
    requires Readable(m.rows) && (NewCopy(m, p) || p.id in m.rows)
    ensures Readable(SaveRow(m, t, p, eventType, w).rows)
  {
  }

  /** The calls in flight after a call has written row p.id and gone on to publish. */
  lemma WrittenKeepsThreads(m: Machine, t: nat, p: Snapshot, eventType: string, rows: Rows, history: map<string, seq<Status>>)
    requires Threads(m) && t in m.threads && (m.threads[t] == SavingNew(p) || m.threads[t] == SavingSettled(p))
    requires rows.Keys == m.rows.Keys + {p.id} && rows[p.id].idempotencyKey == NullString(p.idempotencyKey)
    requires forall id | id in m.rows && id != p.id :: rows[id] == m.rows[id]
    ensures Threads(At(m, t, Publishing(p, eventType)).(rows := rows, history := history))
  {
  }

  lemma FailKeepsThreads(m: Machine, t: nat, err: Error)
    requires Threads(m)
    ensures Threads(Fail(m, t, err))
  {
  }

  lemma SaveKeepsThreads(m: Machine, t: nat, p: Snapshot, eventType: string, w: World)
    requires Threads(m) && Unique(m.rows) && t in m.threads && (m.threads[t] == SavingNew(p) || m.threads[t] == SavingSettled(p))
    ensures Threads(SaveRow(m, t, p, eventType, w))
  {
    assert PhaseOk(m, m.threads[t]);
    var saved := if w.down then None else Upsert(m.rows, p);
    if saved.Some? {
      UpsertKeepsUnique(m.rows, p);
      WrittenKeepsThreads(m, t, p, eventType, saved.value, Noted(m.history, p));
    } else {
      FailKeepsThreads(m, t, SaveFailed);
    }
  }

  lemma DecideKeepsInv(m: Machine, t: nat, id: string, e: DomainEvent, w: World)
    requires Inv(m) && id in m.rows
    ensures Inv(Decide(m, t, Scan(id, m.rows[id]), e, w))
  {
    var p := Scan(id, m.rows[id]);
    match Target(e.eventType)
    case None => PhaseChangeKeepsInv(m, t, Done(None, Some(UnknownEventType(e.eventType))));
    case Some(to) =>
      if p.status == to {
        PhaseChangeKeepsInv(m, t, Done(Some(p), None));
      } else if p.status.Terminal() {
        PhaseChangeKeepsInv(m, t, Done(None, Some(StateMachine(p.status, to))));
      } else {
        PhaseChangeKeepsInv(m, t, SavingSettled(Settled(p, e, to, w.later)));
      }
  }

  lemma PublishKeepsInv(c: Config, m: Machine, t: nat, p: Snapshot, eventType: string, w: World)
    requires Inv(m) && StoredCopy(m, p)
    ensures Inv(Publish(c, m, t, p, eventType, w))
  {
    PhaseChangeKeepsInv(m, t, Done(Some(p), None));
  }

  lemma FindKeepsInv(m: Machine, t: nat, e: DomainEvent, w: World)
    requires Inv(m)
    ensures Inv(FindID(m, t, e, w)) && Inv(FindRef(m, t, e, w))
  {
    PhaseChangeKeepsInv(m, t, FindingRef(e));
    PhaseChangeKeepsInv(m, t, Done(None, Some(QueryFailed)));
    PhaseChangeKeepsInv(m, t, Done(None, Some(NotFound)));
    if e.paymentID in m.rows {
      DecideKeepsInv(m, t, e.paymentID, e, w);
    }
    var found := Find(Table(m.rows), w.order, ByRef, e.transactionID);
    if found.Some? && found.value in m.rows {
      DecideKeepsInv(m, t, found.value, e, w);
    }
  }

  lemma StepKeepsInv(c: Config, m: Machine, t: nat, w: World)
    requires Inv(m) && w.id !in m.used
    ensures Inv(Step(c, m, t, w))
  {
    if t in m.threads {
      match m.threads[t]
      case CheckingKey(req) => CheckKeyKeepsInv(c, m, t, req, w);
      case AtProvider(p) => CallProviderKeepsInv(c, m, t, p, w);
      case SavingNew(p) =>
        SaveKeepsHistories(m, t, p, CREATED, w);
        SaveKeepsRows(m, t, p, CREATED, w);
        SaveKeepsReadable(m, t, p, CREATED, w);
        SaveKeepsThreads(m, t, p, CREATED, w);
      case FindingID(e) => FindKeepsInv(m, t, e, w);
      case FindingRef(e) => FindKeepsInv(m, t, e, w);
      case SavingSettled(p) =>
        SaveKeepsHistories(m, t, p, "payment." + p.status.Text(), w);
        SaveKeepsRows(m, t, p, "payment." + p.status.Text(), w);
        SaveKeepsReadable(m, t, p, "payment." + p.status.Text(), w);
        SaveKeepsThreads(m, t, p, "payment." + p.status.Text(), w);
      case Publishing(p, eventType) => PublishKeepsInv(c, m, t, p, eventType, w);
      case Done(_, _) =>
    }
  }

  lemma DoKeepsInv(c: Config, m: Machine, move: Move)
    requires Inv(m) && Sensible(m, move)
    ensures Inv(Do(c, m, move))
  {
    match move.action
    case BeginCreate(req) => PhaseChangeKeepsInv(m, move.thread, CheckingKey(req));
    case BeginEvent(e) => PhaseChangeKeepsInv(m, move.thread, FindingID(e));
    case Advance(w) => StepKeepsInv(c, m, move.thread, w);
  }

  /** Over every interleaving: at most one row per non-empty key and per provider reference,
      each row pending at first and terminal ever after, never back to pending and never
      processing, each row readable, and nothing announced that is not stored. */
  lemma {:induction false} InterleavingsKeepInv(c: Config, m: Machine, moves: seq<Move>)
    requires Inv(m) && SensibleMoves(c, m, moves)
    ensures Inv(DoAll(c, m, moves))
    decreases |moves|
  {
    if moves == [] {
    } else {
      DoKeepsInv(c, m, moves[0]);
      InterleavingsKeepInv(c, Do(c, m, moves[0]), moves[1..]);
    }
  }

  // ----- Keys: one winner, and losers leave no trace -----

  /** Rows are never removed, and what identifies a payment never changes. */
  ghost predicate RowsPersist(rows: Rows, later: Rows) {
    forall id | id in rows ::
      id in later
      && later[id] == rows[id].(transactionID := later[id].transactionID, status := later[id].status,
                                updatedMicros := later[id].updatedMicros)
  }

  lemma SavePersists(m: Machine, t: nat, p: Snapshot, eventType: string, w: World)
    ensures RowsPersist(m.rows, SaveRow(m, t, p, eventType, w).rows)
  {
  }

  predicate IsSaving(phase: Phase) {
    phase.SavingNew? || phase.SavingSettled?
  }

  /** Nothing but one call has moved. */
  ghost predicate MovesOnly(m: Machine, t: nat, after: Machine) {
    && after.threads.Keys == m.threads.Keys + {t}
    && forall t' | t' in m.threads && t' != t :: after.threads[t'] == m.threads[t']
  }

  lemma CheckKeyMoves(c: Config, m: Machine, t: nat, req: Snapshot, w: World)
    ensures MovesOnly(m, t, CheckKey(c, m, t, req, w)) && CheckKey(c, m, t, req, w).rows == m.rows
  {
  }

  lemma DecideMoves(m: Machine, t: nat, p: Snapshot, e: DomainEvent, w: World)
    ensures MovesOnly(m, t, Decide(m, t, p, e, w)) && Decide(m, t, p, e, w).rows == m.rows
  {
  }

  lemma FindMoves(m: Machine, t: nat, e: DomainEvent, w: World)
    ensures MovesOnly(m, t, FindID(m, t, e, w)) && FindID(m, t, e, w).rows == m.rows
    ensures MovesOnly(m, t, FindRef(m, t, e, w)) && FindRef(m, t, e, w).rows == m.rows
  {
    if e.paymentID in m.rows {
      DecideMoves(m, t, Scan(e.paymentID, m.rows[e.paymentID]), e, w);
    }
    var found := Find(Table(m.rows), w.order, ByRef, e.transactionID);
    if found.Some? && found.value in m.rows {
      DecideMoves(m, t, Scan(found.value, m.rows[found.value]), e, w);
    }
  }

  lemma SaveMoves(m: Machine, t: nat, p: Snapshot, eventType: string, w: World)
    ensures MovesOnly(m, t, SaveRow(m, t, p, eventType, w))
  {
  }

  /** A step moves its own call only, and only a save changes the table. */
  lemma StepMovesOne(c: Config, m: Machine, t: nat, w: World)
    requires t in m.threads
    ensures MovesOnly(m, t, Step(c, m, t, w))
    ensures m.threads[t].Done? ==> Step(c, m, t, w) == m
    ensures !IsSaving(m.threads[t]) ==> Step(c, m, t, w).rows == m.rows
  {
    match m.threads[t]
    case CheckingKey(req) => CheckKeyMoves(c, m, t, req, w);
    case AtProvider(p) =>
    case SavingNew(p) => SaveMoves(m, t, p, CREATED, w);
    case FindingID(e) => FindMoves(m, t, e, w);
    case FindingRef(e) => FindMoves(m, t, e, w);
    case SavingSettled(p) => SaveMoves(m, t, p, "payment." + p.status.Text(), w);
    case Publishing(p, eventType) =>
    case Done(_, _) =>
  }

  lemma StepPersists(c: Config, m: Machine, t: nat, w: World)
    ensures RowsPersist(m.rows, Step(c, m, t, w).rows)
  {
    if t in m.threads {
      StepMovesOne(c, m, t, w);
      match m.threads[t]
      case SavingNew(p) => SavePersists(m, t, p, CREATED, w);
      case SavingSettled(p) => SavePersists(m, t, p, "payment." + p.status.Text(), w);
      case _ =>
    }
  }

  /** Over every interleaving rows persist, calls that have ended stay ended, and what has
      been published or charged stays so. */
  lemma {:induction false} InterleavingsPersist(c: Config, m: Machine, moves: seq<Move>, t: nat)
    ensures RowsPersist(m.rows, DoAll(c, m, moves).rows)
    ensures Appends(m, DoAll(c, m, moves))
    ensures t in m.threads && m.threads[t].Done? ==>
              t in DoAll(c, m, moves).threads && DoAll(c, m, moves).threads[t] == m.threads[t]
    decreases |moves|
  {
    if moves == [] {
    } else {
      var next := Do(c, m, moves[0]);
      StepTouchesOne(c, m, moves[0], t);
      StepAppends(c, m, moves[0]);
      InterleavingsPersist(c, next, moves[1..], t);
    }
  }

  /** What has been published and charged stays so. */
  ghost predicate Appends(m: Machine, after: Machine) {
    m.log <= after.log && m.calls <= after.calls
  }

  lemma DecideAppends(m: Machine, t: nat, p: Snapshot, e: DomainEvent, w: World)
    ensures Decide(m, t, p, e, w).log == m.log && Decide(m, t, p, e, w).calls == m.calls
  {
  }

  lemma FindAppends(m: Machine, t: nat, e: DomainEvent, w: World)
    ensures Appends(m, FindID(m, t, e, w)) && Appends(m, FindRef(m, t, e, w))
  {
    if e.paymentID in m.rows {
      DecideAppends(m, t, Scan(e.paymentID, m.rows[e.paymentID]), e, w);
    }
    var found := Find(Table(m.rows), w.order, ByRef, e.transactionID);
    if found.Some? && found.value in m.rows {
      DecideAppends(m, t, Scan(found.value, m.rows[found.value]), e, w);
    }
  }

  lemma SaveAppends(m: Machine, t: nat, p: Snapshot, eventType: string, w: World)
    ensures Appends(m, SaveRow(m, t, p, eventType, w))
  {
  }

  lemma StepAppends(c: Config, m: Machine, move: Move)
    ensures Appends(m, Do(c, m, move))
  {
    if move.action.Advance? && move.thread in m.threads {
      var t, w := move.thread, move.action.w;
      match m.threads[t]
      case CheckingKey(req) =>
      case AtProvider(p) =>
      case SavingNew(p) => SaveAppends(m, t, p, CREATED, w);
      case FindingID(e) => FindAppends(m, t, e, w);
      case FindingRef(e) => FindAppends(m, t, e, w);
      case SavingSettled(p) => SaveAppends(m, t, p, "payment." + p.status.Text(), w);
      case Publishing(p, eventType) =>
      case Done(_, _) =>
    }
  }

  lemma StepTouchesOne(c: Config, m: Machine, move: Move, t: nat)
    ensures RowsPersist(m.rows, Do(c, m, move).rows)
    ensures t in m.threads && m.threads[t].Done? ==> t in Do(c, m, move).threads && Do(c, m, move).threads[t] == m.threads[t]
  {
    if move.action.Advance? {
      StepPersists(c, m, move.thread, move.action.w);
      if move.thread in m.threads {
        StepMovesOne(c, m, move.thread, move.action.w);
      }
    }
  }

  // ----- New ids -----

  lemma DecideIDs(m: Machine, t: nat, p: Snapshot, e: DomainEvent, w: World)
    ensures NewID(Decide(m, t, p, e, w).threads[t]).None? && Decide(m, t, p, e, w).used == m.used
  {
  }

  lemma FindIDs(m: Machine, t: nat, e: DomainEvent, w: World)
    ensures NewID(FindID(m, t, e, w).threads[t]).None? && FindID(m, t, e, w).used == m.used
    ensures NewID(FindRef(m, t, e, w).threads[t]).None? && FindRef(m, t, e, w).used == m.used
  {
    if e.paymentID in m.rows {
      DecideIDs(m, t, Scan(e.paymentID, m.rows[e.paymentID]), e, w);
    }
    var found := Find(Table(m.rows), w.order, ByRef, e.transactionID);
    if found.Some? && found.value in m.rows {
      DecideIDs(m, t, Scan(found.value, m.rows[found.value]), e, w);
    }
  }

  lemma SaveIDs(m: Machine, t: nat, p: Snapshot, eventType: string, w: World)
    ensures NewID(SaveRow(m, t, p, eventType, w).threads[t]).None? && SaveRow(m, t, p, eventType, w).used == m.used
    ensures forall id | id in SaveRow(m, t, p, eventType, w).rows :: id in m.rows || id == p.id
  {
  }

  lemma CheckKeyIDs(c: Config, m: Machine, t: nat, req: Snapshot, w: World)
    ensures NewID(CheckKey(c, m, t, req, w).threads[t]) in {None, Some(w.id)}
    ensures CheckKey(c, m, t, req, w).rows == m.rows && m.used <= CheckKey(c, m, t, req, w).used
  {
  }

  lemma CallProviderIDs(c: Config, m: Machine, t: nat, p: Snapshot, w: World)
    ensures NewID(CallProvider(c, m, t, p, w).threads[t]) in {None, Some(p.id)}
    ensures CallProvider(c, m, t, p, w).rows == m.rows && m.used == CallProvider(c, m, t, p, w).used
  {
  }

  // ----- From the empty system -----

  lemma StartIsFine(m: Machine)
    requires m == START
    ensures Inv(m)
  {
  }

  /** Over every interleaving from the empty system, each row can be read back: its amount is
      positive and its customer id valid, so neither value object panics. */
  lemma RowsStayReadable(c: Config, start: Machine, moves: seq<Move>, id: string)
    requires start == START && SensibleMoves(c, start, moves) && id in DoAll(c, start, moves).rows
    ensures var row := DoAll(c, start, moves).rows[id]; 0 < row.amount && ValidCustomer(row.customerID)
  {
    StartIsFine(start);
    InterleavingsKeepInv(c, start, moves);
  }

  /** These moves lead from one state to the other. */
  ghost predicate Leads(c: Config, start: Machine, moves: seq<Move>, m: Machine) {
    SensibleMoves(c, start, moves) && DoAll(c, start, moves) == m
  }

  lemma {:induction false} LeadsOn(c: Config, start: Machine, moves: seq<Move>, m: Machine, move: Move)
    requires Leads(c, start, moves, m) && Sensible(m, move)
    ensures Leads(c, start, moves + [move], Do(c, m, move))
    decreases |moves|
  {
    if moves == [] {
      assert moves + [move] == [move] && [move][1..] == [];
    } else {
      assert (moves + [move])[1..] == moves[1..] + [move];
      LeadsOn(c, Do(c, start, moves[0]), moves[1..], m, move);
    }
  }

  /** A world in which nothing fails. */
  function Calm(order: seq<string>, id: string): World {
    World(order, false, id, "", 0, 0, Charged("ref"), "")
  }
}
