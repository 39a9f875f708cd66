/** Interleaved event calls: without a lock on the row a settled status can be overwritten. When
    that happens exactly, and what rules it out.
 */
module InterleavedSettling {
  import opened Options
  import opened Events
  import opened Entity
  import opened Storage
  import opened Service
  import opened Interleaving

  lemma ReadsPending(c: Config, m: Machine, t: nat, e: DomainEvent, w: World)
    requires t in m.threads && m.threads[t] == FindingID(e) && Target(e.eventType).Some?
    requires !w.down && e.paymentID in m.rows && m.rows[e.paymentID].status == Pending
    ensures Step(c, m, t, w)
            == At(m, t, SavingSettled(Settled(Scan(e.paymentID, m.rows[e.paymentID]), e, Target(e.eventType).value, w.later)))
  {
  }

  lemma SavesCopy(c: Config, m: Machine, t: nat, p: Snapshot, w: World)
    requires t in m.threads && m.threads[t] == SavingSettled(p) && !w.down && p.id in m.history
    requires p.id in m.rows && Fits(p) && !RefTaken(m.rows, p.id, NullString(p.transactionID))
    ensures var after := Step(c, m, t, w);
            && after.history == m.history[p.id := m.history[p.id] + [p.status]]
            && after.threads == m.threads[t := Publishing(p, "payment." + p.status.Text())]
            && after.rows.Keys == m.rows.Keys
            && forall id | id in m.rows && id != p.id :: after.rows[id] == m.rows[id]
  {
  }

  lemma SaveSetsStatus(m: Machine, t: nat, p: Snapshot, eventType: string, w: World, id: string)
    requires id in m.rows && p.id in m.rows
    ensures var after, accepted := SaveRow(m, t, p, eventType, w), !w.down && Fits(p) && !RefTaken(m.rows, p.id, NullString(p.transactionID));
            id in after.rows && after.rows[id].status == if p.id == id && accepted then p.status else m.rows[id].status
  {
  }

  lemma NewSaveKeepsStatus(m: Machine, t: nat, p: Snapshot, eventType: string, w: World, id: string)
    requires id in m.rows && p.id !in m.rows
    ensures id in SaveRow(m, t, p, eventType, w).rows && SaveRow(m, t, p, eventType, w).rows[id] == m.rows[id]
  {
  }

  /** A step overwrites a settled status exactly when it saves a copy that was read before
      the row was settled, asks for another status, and the database accepts it. */
  lemma SettledStatusChangesIff(c: Config, m: Machine, t: nat, w: World, id: string)
    requires Inv(m) && t in m.threads && id in m.rows && m.rows[id].status.Terminal()
    ensures id in Step(c, m, t, w).rows
    ensures Step(c, m, t, w).rows[id].status != m.rows[id].status <==>
              && m.threads[t].SavingSettled?
              && m.threads[t].p.id == id && m.threads[t].p.status != m.rows[id].status
              && !w.down && Fits(m.threads[t].p) && !RefTaken(m.rows, id, NullString(m.threads[t].p.transactionID))
  {
    StepMovesOne(c, m, t, w);
    assert PhaseOk(m, m.threads[t]);
    match m.threads[t]
    case SavingNew(p) => NewSaveKeepsStatus(m, t, p, CREATED, w, id);
    case SavingSettled(p) => SaveSetsStatus(m, t, p, "payment." + p.status.Text(), w, id);
    case _ =>
  }

  // ----- When a payment is settled more than once -----

  /** How many statuses a payment has had. */
  function StatusCount(m: Machine, id: string): nat {
    if id in m.history then |m.history[id]| else 0
  }

  /** The step writes row `id`. */
  ghost predicate Writes(m: Machine, t: nat, w: World, id: string) {
    && t in m.threads && IsSaving(m.threads[t])
    && m.threads[t].p.id == id && Accepted(m, m.threads[t].p, w)
  }

  lemma SaveNotes(m: Machine, t: nat, p: Snapshot, eventType: string, w: World, id: string)
    ensures StatusCount(SaveRow(m, t, p, eventType, w), id) == StatusCount(m, id) + (if p.id == id && Accepted(m, p, w) then 1 else 0)
  {
  }

  lemma OtherStepsNote(c: Config, m: Machine, t: nat, w: World)
    requires t !in m.threads || !IsSaving(m.threads[t])
    ensures Step(c, m, t, w).history == m.history
  {
  }

  lemma StepNotes(c: Config, m: Machine, t: nat, w: World, id: string)
    ensures StatusCount(Step(c, m, t, w), id) == StatusCount(m, id) + (if Writes(m, t, w, id) then 1 else 0)
  {
    if t in m.threads && m.threads[t].SavingNew? {
      SaveNotes(m, t, m.threads[t].p, CREATED, w, id);
    } else if t in m.threads && m.threads[t].SavingSettled? {
      SaveNotes(m, t, m.threads[t].p, "payment." + m.threads[t].p.status.Text(), w, id);
    } else {
      OtherStepsNote(c, m, t, w);
    }
  }

  /** A payment is in a terminal status exactly when it has had two statuses or more. */
  lemma SettledIffTwoStatuses(m: Machine, id: string)
    requires Inv(m)
    ensures StatusCount(m, id) > 0 <==> id in m.rows
    ensures StatusCount(m, id) > 1 <==> id in m.rows && m.rows[id].status.Terminal()
  {
  }

  ghost predicate Settling(m: Machine, t: nat, id: string) {
    t in m.threads && m.threads[t].SavingSettled? && m.threads[t].p.id == id
  }

  /** The move saves, successfully, what an event call has made of payment `id`. */
  ghost predicate Saves(m: Machine, move: Move, id: string) {
    move.action.Advance? && Settling(m, move.thread, id) && Accepted(m, m.threads[move.thread].p, move.action.w)
  }

  /** Every call that is about to save this payment has read it as it still is: not settled. */
  ghost predicate UpToDate(m: Machine, id: string) {
    forall t | Settling(m, t, id) :: id in m.rows && !m.rows[id].status.Terminal()
  }

  lemma DecideReads(m: Machine, t: nat, id': string, e: DomainEvent, w: World, id: string)
    requires id' in m.rows && Settling(Decide(m, t, Scan(id', m.rows[id']), e, w), t, id)
    ensures id == id' && !m.rows[id].status.Terminal()
  {
  }

  lemma FindReads(m: Machine, t: nat, e: DomainEvent, w: World, id: string)
    requires Settling(FindID(m, t, e, w), t, id) || Settling(FindRef(m, t, e, w), t, id)
    ensures id in m.rows && !m.rows[id].status.Terminal()
  {
    if Settling(FindID(m, t, e, w), t, id) {
      assert !w.down && e.paymentID in m.rows;
      DecideReads(m, t, e.paymentID, e, w, id);
    } else {
      var found := if w.down then None else Find(Table(m.rows), w.order, ByRef, e.transactionID);
      assert found.Some? && found.value in m.rows;
      DecideReads(m, t, found.value, e, w, id);
    }
  }

  lemma SavesDoNotRead(m: Machine, t: nat, p: Snapshot, eventType: string, w: World, id: string)
    ensures !Settling(SaveRow(m, t, p, eventType, w), t, id)
  {
  }

  lemma CreatesDoNotRead(c: Config, m: Machine, t: nat, req: Snapshot, p: Snapshot, w: World, id: string)
    ensures !Settling(CheckKey(c, m, t, req, w), t, id) && !Settling(CallProvider(c, m, t, p, w), t, id)
  {
  }

  /** A call that has come to the point of saving a payment has just read it. */
  lemma SettlingWasRead(c: Config, m: Machine, t: nat, w: World, id: string)
    requires Inv(m) && t in m.threads && Settling(Step(c, m, t, w), t, id)
    ensures id in m.rows && !m.rows[id].status.Terminal() && !IsSaving(m.threads[t])
  {
    match m.threads[t]
    case CheckingKey(req) => CreatesDoNotRead(c, m, t, req, req, w, id);
    case AtProvider(p) => CreatesDoNotRead(c, m, t, p, p, w, id);
    case SavingNew(p) => SavesDoNotRead(m, t, p, CREATED, w, id);
    case FindingID(e) => FindReads(m, t, e, w, id);
    case FindingRef(e) => FindReads(m, t, e, w, id);
    case SavingSettled(p) => SavesDoNotRead(m, t, p, "payment." + p.status.Text(), w, id);
    case Publishing(p, eventType) =>
    case Done(_, _) =>
  }

  lemma OnlyWritesSettle(c: Config, m: Machine, t: nat, w: World, id: string)
    requires id in m.rows && !Writes(m, t, w, id)
    ensures id in Step(c, m, t, w).rows && Step(c, m, t, w).rows[id] == m.rows[id]
  {
    if t in m.threads {
      StepMovesOne(c, m, t, w);
    }
  }

  lemma MoveNotes(c: Config, m: Machine, move: Move, id: string)
    requires Inv(m)
    ensures StatusCount(m, id) <= StatusCount(Do(c, m, move), id) <= StatusCount(m, id) + 1
    ensures Saves(m, move, id) ==> id in m.rows && StatusCount(Do(c, m, move), id) == StatusCount(m, id) + 1
    ensures id in m.rows && !Saves(m, move, id) ==> StatusCount(Do(c, m, move), id) == StatusCount(m, id)
  {
    if move.action.Advance? {
      StepNotes(c, m, move.thread, move.action.w, id);
      if move.thread in m.threads {
        assert PhaseOk(m, m.threads[move.thread]);
      }
    }
  }

  lemma {:induction false} StatusesGrow(c: Config, m: Machine, moves: seq<Move>, id: string)
    requires Inv(m) && SensibleMoves(c, m, moves)
    ensures StatusCount(m, id) <= StatusCount(DoAll(c, m, moves), id)
    decreases |moves|
  {
    if moves == [] {
    } else {
      MoveNotes(c, m, moves[0], id);
      DoKeepsInv(c, m, moves[0]);
      StatusesGrow(c, Do(c, m, moves[0]), moves[1..], id);
    }
  }

  /** Call t saves what it has made of payment `id`, now or later in the run. */
  ghost predicate SavesLater(c: Config, m: Machine, moves: seq<Move>, t: nat, id: string)
    decreases |moves|
  {
    && moves != []
    && ((moves[0].thread == t && Saves(m, moves[0], id)) || SavesLater(c, Do(c, m, moves[0]), moves[1..], t, id))
  }

  /** At some point of the run one call saves the payment while another holds a copy it has
      read before, and that other call saves its copy later. */
  ghost predicate BothSave(c: Config, m: Machine, moves: seq<Move>, id: string)
    decreases |moves|
  {
    && moves != []
    && ((Saves(m, moves[0], id)
         && exists t | Settling(m, t, id) :: t != moves[0].thread && SavesLater(c, Do(c, m, moves[0]), moves[1..], t, id))
        || BothSave(c, Do(c, m, moves[0]), moves[1..], id))
  }

  lemma {:induction false} SavesLaterCounts(c: Config, m: Machine, moves: seq<Move>, t: nat, id: string)
    requires Inv(m) && SensibleMoves(c, m, moves) && SavesLater(c, m, moves, t, id)
    ensures StatusCount(DoAll(c, m, moves), id) > StatusCount(m, id)
    decreases |moves|
  {
    var next := Do(c, m, moves[0]);
    MoveNotes(c, m, moves[0], id);
    DoKeepsInv(c, m, moves[0]);
    if moves[0].thread == t && Saves(m, moves[0], id) {
      StatusesGrow(c, next, moves[1..], id);
    } else {
      SavesLaterCounts(c, next, moves[1..], t, id);
    }
  }

  lemma {:induction false} BothSaveCounts(c: Config, m: Machine, moves: seq<Move>, id: string)
    requires Inv(m) && SensibleMoves(c, m, moves) && BothSave(c, m, moves, id)
    ensures StatusCount(DoAll(c, m, moves), id) > 2
    decreases |moves|
  {
    var next := Do(c, m, moves[0]);
    DoKeepsInv(c, m, moves[0]);
    if Saves(m, moves[0], id)
       && exists t | Settling(m, t, id) :: t != moves[0].thread && SavesLater(c, next, moves[1..], t, id) {
      var t :| Settling(m, t, id) && t != moves[0].thread && SavesLater(c, next, moves[1..], t, id);
      MoveNotes(c, m, moves[0], id);
      SettledIffTwoStatuses(m, id);
      SavesLaterCounts(c, next, moves[1..], t, id);
    } else {
      BothSaveCounts(c, next, moves[1..], id);
    }
  }

  /** Once a payment is settled no other call comes to hold a copy of it to save. */
  lemma SettlingWasSettling(c: Config, m: Machine, move: Move, t: nat, id: string)
    requires Inv(m) && id in m.rows && m.rows[id].status.Terminal() && Settling(Do(c, m, move), t, id)
    ensures Settling(m, t, id)
  {
    if move.action.Advance? && move.thread in m.threads {
      StepMovesOne(c, m, move.thread, move.action.w);
      if t == move.thread {
        SettlingWasRead(c, m, t, move.action.w, id);
      }
    }
  }

  /** A settled payment that gets another status was saved by a call that already held its copy. */
  lemma {:induction false} SavedAgainBy(c: Config, m: Machine, moves: seq<Move>, id: string) returns (t: nat)
    requires Inv(m) && SensibleMoves(c, m, moves)
    requires StatusCount(m, id) == 2 && StatusCount(DoAll(c, m, moves), id) > 2
    ensures Settling(m, t, id) && SavesLater(c, m, moves, t, id)
    decreases |moves|
  {
    SettledIffTwoStatuses(m, id);
    MoveNotes(c, m, moves[0], id);
    if Saves(m, moves[0], id) {
      t := moves[0].thread;
    } else {
      DoKeepsInv(c, m, moves[0]);
      t := SavedAgainBy(c, Do(c, m, moves[0]), moves[1..], id);
      SettlingWasSettling(c, m, moves[0], t, id);
    }
  }

  lemma ThreadStaysUpToDate(c: Config, m: Machine, t: nat, w: World, u: nat, id: string)
    requires Inv(m) && UpToDate(m, id) && t in m.threads && Settling(Step(c, m, t, w), u, id)
    requires !(Settling(m, t, id) && Accepted(m, m.threads[t].p, w))
    ensures id in Step(c, m, t, w).rows && !Step(c, m, t, w).rows[id].status.Terminal()
  {
    StepMovesOne(c, m, t, w);
    assert PhaseOk(m, m.threads[t]);
    if u == t {
      SettlingWasRead(c, m, t, w, id);
    } else {
      assert Settling(m, u, id);
    }
    OnlyWritesSettle(c, m, t, w, id);
  }

  /** Copies stay up to date until one is saved. */
  lemma MoveKeepsUpToDate(c: Config, m: Machine, move: Move, id: string)
    requires Inv(m) && UpToDate(m, id) && !Saves(m, move, id)
    ensures UpToDate(Do(c, m, move), id)
  {
    var after := Do(c, m, move);
    forall u | Settling(after, u, id)
      ensures id in after.rows && !after.rows[id].status.Terminal()
    {
      if move.action.Advance? && move.thread in m.threads {
        ThreadStaysUpToDate(c, m, move.thread, move.action.w, u, id);
      } else {
        assert Settling(m, u, id);
      }
    }
  }

  /** A call that has saved its copy holds it no more; the others hold theirs as before. */
  lemma SaverIsDone(c: Config, m: Machine, move: Move, t: nat, id: string)
    requires Saves(m, move, id) && Settling(Do(c, m, move), t, id)
    ensures t != move.thread && Settling(m, t, id)
  {
    var u, w := move.thread, move.action.w;
    StepMovesOne(c, m, u, w);
    SavesDoNotRead(m, u, m.threads[u].p, "payment." + m.threads[u].p.status.Text(), w, id);
  }

  /** The first save of an up-to-date copy settles the payment; if it is settled again, both save. */
  lemma SavedTwice(c: Config, m: Machine, moves: seq<Move>, id: string)
    requires Inv(m) && SensibleMoves(c, m, moves) && UpToDate(m, id) && moves != [] && Saves(m, moves[0], id)
    requires StatusCount(DoAll(c, m, moves), id) > 2
    ensures BothSave(c, m, moves, id)
  {
    SettledIffTwoStatuses(m, id);
    MoveNotes(c, m, moves[0], id);
    DoKeepsInv(c, m, moves[0]);
    var t := SavedAgainBy(c, Do(c, m, moves[0]), moves[1..], id);
    SaverIsDone(c, m, moves[0], t, id);
  }

  lemma {:induction false} SettledTwiceOnlyIf(c: Config, m: Machine, moves: seq<Move>, id: string)
    requires Inv(m) && SensibleMoves(c, m, moves) && UpToDate(m, id)
    requires StatusCount(m, id) <= 2 && StatusCount(DoAll(c, m, moves), id) > 2
    ensures BothSave(c, m, moves, id)
    decreases |moves|
  {
    if Saves(m, moves[0], id) {
      SavedTwice(c, m, moves, id);
    } else {
      MoveNotes(c, m, moves[0], id);
      SettledIffTwoStatuses(m, id);
      DoKeepsInv(c, m, moves[0]);
      MoveKeepsUpToDate(c, m, moves[0], id);
      SettledTwiceOnlyIf(c, Do(c, m, moves[0]), moves[1..], id);
    }
  }

  /** Over any interleaving a payment is given more than one terminal status exactly when two
      event calls overlap on it, the second holding a copy read before the first has saved,
      and both saves are accepted. */
  lemma SettledTwiceIff(c: Config, m: Machine, moves: seq<Move>, id: string)
    requires Inv(m) && SensibleMoves(c, m, moves) && UpToDate(m, id) && StatusCount(m, id) <= 2
    ensures StatusCount(DoAll(c, m, moves), id) > 2 <==> BothSave(c, m, moves, id)
  {
    if BothSave(c, m, moves, id) {
      BothSaveCounts(c, m, moves, id);
    } else if StatusCount(DoAll(c, m, moves), id) > 2 {
      SettledTwiceOnlyIf(c, m, moves, id);
    }
  }

  /** At most one call is between reading this payment and saving it, now and at every later
      point of the run: what a lock on the row would give. */
  ghost predicate NeverOverlap(c: Config, m: Machine, moves: seq<Move>, id: string)
    decreases |moves|
  {
    && (forall t, t' | Settling(m, t, id) && Settling(m, t', id) :: t == t')
    && (moves != [] ==> NeverOverlap(c, Do(c, m, moves[0]), moves[1..], id))
  }

  lemma {:induction false} NeverOverlapNeverBothSave(c: Config, m: Machine, moves: seq<Move>, id: string)
    requires NeverOverlap(c, m, moves, id)
    ensures !BothSave(c, m, moves, id)
    decreases |moves|
  {
    if moves == [] {
    } else {
      NeverOverlapNeverBothSave(c, Do(c, m, moves[0]), moves[1..], id);
    }
  }

  /** If no two event calls for a payment overlap between the read and the save, the payment
      is pending and then gets at most one terminal status, whatever else interleaves. */
  lemma NeverOverlapSettlesOnce(c: Config, m: Machine, moves: seq<Move>, id: string)
    requires Inv(m) && SensibleMoves(c, m, moves) && UpToDate(m, id) && NeverOverlap(c, m, moves, id)
    requires StatusCount(m, id) <= 2
    ensures var end := DoAll(c, m, moves);
            StatusCount(end, id) <= 2 && (id in end.history ==> PendingThenTerminal(end.history[id]))
  {
    NeverOverlapNeverBothSave(c, m, moves, id);
    SettledTwiceIff(c, m, moves, id);
    InterleavingsKeepInv(c, m, moves);
  }

  lemma StartIsUpToDate(m: Machine, id: string)
    requires m == START
    ensures Inv(m) && UpToDate(m, id) && StatusCount(m, id) == 0
  {
    StartIsFine(m);
  }

  /** Without a lock a settled status can be overwritten: two calls that both read the row
      while it was pending save their copies one after the other. */
  lemma SettledStatusCanChange(c: Config, m: Machine, id: string, w: World, w': World, e: DomainEvent, e': DomainEvent)
    requires id in m.rows && id in m.history && m.rows[id].status == Pending && Fits(Scan(id, m.rows[id]))
    requires forall other | other in m.rows && other != id :: m.rows[other].transactionID != m.rows[id].transactionID
    requires m.rows[id].transactionID != Some("")
    requires !w.down && !w'.down && e == DomainEvent(COMPLETED, id, "") && e' == DomainEvent(FAILED, id, "")
    requires 1 in m.threads && m.threads[1] == FindingID(e) && 2 in m.threads && m.threads[2] == FindingID(e')
    ensures var bothRead := Step(c, Step(c, m, 1, w), 2, w');
            var bothSaved := Step(c, Step(c, bothRead, 1, w), 2, w');
            id in bothSaved.history && bothSaved.history[id] == m.history[id] + [Completed, Failed]
  {
    var p := Scan(id, m.rows[id]);
    var p1, p2 := Settled(p, e, Completed, w.later), Settled(p, e', Failed, w'.later);
    ReadsPending(c, m, 1, e, w);
    var oneRead := At(m, 1, SavingSettled(p1));
    ReadsPending(c, oneRead, 2, e', w');
    var bothRead := At(oneRead, 2, SavingSettled(p2));
    assert NullString(p.transactionID) == m.rows[id].transactionID;
    SavesCopy(c, bothRead, 1, p1, w);
    SavesCopy(c, Step(c, bothRead, 1, w), 2, p2, w');
  }

  const PAY: string := "pay"

  ghost predicate FitsNew(c: Config, req: Snapshot) {
    var built := BuildNew(c, req, Calm([], PAY));
    built.Built? && Fits(built.payment)
  }

  /** One create, alone, from the empty system: its payment is stored and pending. */
  lemma CreateFromStart(c: Config, start: Machine, req: Snapshot) returns (moves: seq<Move>, m: Machine)
    requires start == START && FitsNew(c, req)
    ensures Leads(c, start, moves, m)
    ensures m.rows.Keys == {PAY} && m.rows[PAY].status == Pending && m.rows[PAY].transactionID == Some("ref")
    ensures Fits(Scan(PAY, m.rows[PAY])) && PAY in m.history && m.history[PAY] == [Pending]
    ensures m.used == {PAY} && m.threads.Keys == {0}
  {
    var p := BuildNew(c, req, Calm([], PAY)).payment;
    var p' := p.(transactionID := "ref");
    moves := [];
    var step := Move(0, BeginCreate(req));
    LeadsOn(c, start, moves, start, step);
    moves := moves + [step];
    var m1 := At(start, 0, CheckingKey(req));
    step := Move(0, Advance(Calm([], PAY)));
    LeadsOn(c, start, moves, m1, step);
    moves := moves + [step];
    var m2 := At(m1, 0, AtProvider(p)).(used := {PAY});
    assert CheckKey(c, m1, 0, req, Calm([], PAY)) == m2;
    step := Move(0, Advance(Calm([], PAY + "x")));
    LeadsOn(c, start, moves, m2, step);
    moves := moves + [step];
    var m3 := CallProvider(c, m2, 0, p, Calm([], PAY + "x"));
    assert m3.threads[0] == SavingNew(p');
    LeadsOn(c, start, moves, m3, step);
    moves := moves + [step];
    m := SaveRow(m3, 0, p', CREATED, Calm([], PAY + "x"));
  }

  /** Two event calls begin. */
  lemma TwoBegin(c: Config, start: Machine, before: seq<Move>, m: Machine, e: DomainEvent, e': DomainEvent)
    returns (moves: seq<Move>, after: Machine)
    requires Leads(c, start, before, m) && 1 !in m.threads && 2 !in m.threads
    ensures after == At(At(m, 1, FindingID(e)), 2, FindingID(e')) && Leads(c, start, moves, after)
  {
    var one, two := Move(1, BeginEvent(e)), Move(2, BeginEvent(e'));
    LeadsOn(c, start, before, m, one);
    LeadsOn(c, start, before + [one], At(m, 1, FindingID(e)), two);
    moves, after := before + [one] + [two], At(At(m, 1, FindingID(e)), 2, FindingID(e'));
  }

  /** From the empty system: a payment is created; two event calls read it while it is
      pending, and then save one after the other. It is completed, and then failed. */
  lemma SettledStatusIsOverwritten(c: Config, start: Machine, req: Snapshot) returns (moves: seq<Move>)
    requires start == START && FitsNew(c, req)
    ensures SensibleMoves(c, start, moves)
    ensures var end := DoAll(c, start, moves); PAY in end.history && end.history[PAY] == [Pending, Completed, Failed]
  {
    var m, m': Machine;
    moves, m := CreateFromStart(c, start, req);
    var e, e' := DomainEvent(COMPLETED, PAY, ""), DomainEvent(FAILED, PAY, "");
    moves, m' := TwoBegin(c, start, moves, m, e, e');
    StartIsFine(start);
    InterleavingsKeepInv(c, start, moves);
    moves := OverwriteFrom(c, start, moves, m', Calm([PAY], PAY + "x"), e, e');
  }

  /** Both calls read, then both save. */
  lemma OverwriteFrom(c: Config, start: Machine, before: seq<Move>, m: Machine, w: World, e: DomainEvent, e': DomainEvent)
    returns (moves: seq<Move>)
    requires Leads(c, start, before, m) && Inv(m) && w.id !in m.used && IsOrder(w.order, Table(m.rows)) && !w.down
    requires m.rows.Keys == {PAY} && m.rows[PAY].status == Pending && m.rows[PAY].transactionID == Some("ref")
    requires Fits(Scan(PAY, m.rows[PAY])) && PAY in m.history && m.history[PAY] == [Pending]
    requires e == DomainEvent(COMPLETED, PAY, "") && e' == DomainEvent(FAILED, PAY, "")
    requires 1 in m.threads && m.threads[1] == FindingID(e) && 2 in m.threads && m.threads[2] == FindingID(e')
    ensures SensibleMoves(c, start, moves)
    ensures var end := DoAll(c, start, moves); PAY in end.history && end.history[PAY] == [Pending, Completed, Failed]
  {
    SettledStatusCanChange(c, m, PAY, w, w, e, e');
    moves := ReadReadSaveSave(c, start, before, m, w);
  }

  predicate IsEvent(phase: Phase) {
    phase.FindingID? || phase.FindingRef? || phase.SavingSettled? || phase.Publishing? || phase.Done?
  }

  lemma FindIsEvent(m: Machine, t: nat, e: DomainEvent, w: World)
    ensures IsEvent(FindID(m, t, e, w).threads[t]) && IsEvent(FindRef(m, t, e, w).threads[t])
  {
  }

  lemma SaveStored(m: Machine, t: nat, p: Snapshot, eventType: string, w: World)
    requires p.id in m.rows
    ensures var after := SaveRow(m, t, p, eventType, w);
            after.used == m.used && after.rows.Keys == m.rows.Keys && IsEvent(after.threads[t])
  {
  }

  /** The steps of an event call take no new id and add no row. */
  lemma EventStepAddsNothing(c: Config, m: Machine, t: nat, w: World)
    requires Inv(m) && t in m.threads && IsEvent(m.threads[t])
    ensures var after := Step(c, m, t, w);
            && after.used == m.used && after.rows.Keys == m.rows.Keys
            && MovesOnly(m, t, after) && IsEvent(after.threads[t])
  {
    StepMovesOne(c, m, t, w);
    assert PhaseOk(m, m.threads[t]);
    match m.threads[t]
    case FindingID(e) => FindIDs(m, t, e, w); FindIsEvent(m, t, e, w); FindMoves(m, t, e, w);
    case FindingRef(e) => FindIDs(m, t, e, w); FindIsEvent(m, t, e, w); FindMoves(m, t, e, w);
    case SavingSettled(p) => SaveStored(m, t, p, "payment." + p.status.Text(), w);
    case Publishing(p, eventType) =>
    case Done(_, _) =>
  }

  lemma EventStepLeadsOn(c: Config, start: Machine, before: seq<Move>, m: Machine, t: nat, w: World)
    returns (moves: seq<Move>, after: Machine)
    requires Leads(c, start, before, m) && Inv(m) && t in m.threads && IsEvent(m.threads[t])
    requires w.id !in m.used && IsOrder(w.order, Table(m.rows))
    ensures after == Step(c, m, t, w) && Leads(c, start, moves, after) && Inv(after)
    ensures w.id !in after.used && IsOrder(w.order, Table(after.rows))
    ensures MovesOnly(m, t, after) && IsEvent(after.threads[t])
  {
    LeadsOn(c, start, before, m, Move(t, Advance(w)));
    moves, after := before + [Move(t, Advance(w))], Step(c, m, t, w);
    StepKeepsInv(c, m, t, w);
    EventStepAddsNothing(c, m, t, w);
  }

  lemma ReadReadSaveSave(c: Config, start: Machine, before: seq<Move>, m: Machine, w: World) returns (moves: seq<Move>)
    requires Leads(c, start, before, m) && Inv(m)
    requires 1 in m.threads && 2 in m.threads && IsEvent(m.threads[1]) && IsEvent(m.threads[2])
    requires w.id !in m.used && IsOrder(w.order, Table(m.rows))
    ensures Leads(c, start, moves, Step(c, Step(c, Step(c, Step(c, m, 1, w), 2, w), 1, w), 2, w))
  {
    var m1, m2, m3, m4;
    moves, m1 := EventStepLeadsOn(c, start, before, m, 1, w);
    moves, m2 := EventStepLeadsOn(c, start, moves, m1, 2, w);
    moves, m3 := EventStepLeadsOn(c, start, moves, m2, 1, w);
    moves, m4 := EventStepLeadsOn(c, start, moves, m3, 2, w);
  }
}
