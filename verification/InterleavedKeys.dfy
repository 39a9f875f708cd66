/** Interleaved creates with one idempotency key: there is one winner, losers leave no trace,
    and retries are given the winner.
 */
module InterleavedKeys {
  import opened Options
  import opened Events
  import opened Entity
  import opened Storage
  import opened Service
  import opened Interleaving

  /** A create that comes second to save its key fails: it changes no row, publishes
      nothing, and has ended. */
  lemma LoserLeavesNoTrace(c: Config, m: Machine, t: nat, p: Snapshot, w: World, winner: string)
    requires Inv(m) && t in m.threads && m.threads[t] == SavingNew(p)
    requires p.idempotencyKey != "" && winner in m.rows && m.rows[winner].idempotencyKey == Some(p.idempotencyKey)
    ensures var after := Step(c, m, t, w);
            after.rows == m.rows && after.log == m.log && after.threads[t] == Done(None, Some(SaveFailed))
  {
    assert p.id !in m.rows;
    assert KeyTaken(m.rows, NullString(p.idempotencyKey));
  }

  /** A later create with a stored key is given the winner, and nothing changes. */
  lemma RetryGetsWinner(c: Config, m: Machine, t: nat, req: Snapshot, w: World, winner: string)
    requires Inv(m) && t in m.threads && m.threads[t] == CheckingKey(req)
    requires req.idempotencyKey != "" && !w.down && IsOrder(w.order, Table(m.rows))
    requires winner in m.rows && m.rows[winner].idempotencyKey == Some(req.idempotencyKey)
    ensures var after := Step(c, m, t, w);
            && after.rows == m.rows && after.log == m.log && after.calls == m.calls
            && after.threads[t] == Done(Some(Scan(winner, m.rows[winner])), None)
  {
    FindFinds(Table(m.rows), w.order, ByKey, req.idempotencyKey);
    assert Carries(Table(m.rows), winner, ByKey, req.idempotencyKey);
  }

  /** A generated id that no row has and that no call will ever save. */
  ghost predicate Unsaved(m: Machine, id: string) {
    id in m.used && id !in m.rows && forall t | t in m.threads :: NewID(m.threads[t]) != Some(id)
  }

  lemma MoveKeepsUnsaved(m: Machine, t: nat, after: Machine, id: string)
    requires Unsaved(m, id) && MovesOnly(m, t, after) && m.used <= after.used
    requires id !in after.rows && NewID(after.threads[t]) != Some(id)
    ensures Unsaved(after, id)
  {
  }

  /** A step saves no other new id than the one its call holds, and takes no used id. */
  lemma StepIDs(c: Config, m: Machine, t: nat, w: World, id: string)
    requires Inv(m) && t in m.threads && w.id !in m.used && id in m.used && id !in m.rows && NewID(m.threads[t]) != Some(id)
    ensures id !in Step(c, m, t, w).rows && m.used <= Step(c, m, t, w).used
    ensures t in Step(c, m, t, w).threads && NewID(Step(c, m, t, w).threads[t]) != Some(id)
  {
    assert PhaseOk(m, m.threads[t]);
    match m.threads[t]
    case CheckingKey(req) => CheckKeyIDs(c, m, t, req, w);
    case AtProvider(p) => CallProviderIDs(c, m, t, p, w);
    case SavingNew(p) => SaveIDs(m, t, p, CREATED, w);
    case FindingID(e) => FindIDs(m, t, e, w); FindMoves(m, t, e, w);
    case FindingRef(e) => FindIDs(m, t, e, w); FindMoves(m, t, e, w);
    case SavingSettled(p) => SaveIDs(m, t, p, "payment." + p.status.Text(), w);
    case Publishing(p, eventType) =>
    case Done(_, _) =>
  }

  lemma StepKeepsUnsaved(c: Config, m: Machine, t: nat, w: World, id: string)
    requires Inv(m) && w.id !in m.used && Unsaved(m, id)
    ensures Unsaved(Step(c, m, t, w), id)
  {
    if t in m.threads {
      StepMovesOne(c, m, t, w);
      StepIDs(c, m, t, w, id);
      MoveKeepsUnsaved(m, t, Step(c, m, t, w), id);
    }
  }

  lemma DoKeepsUnsaved(c: Config, m: Machine, move: Move, id: string)
    requires Inv(m) && Sensible(m, move) && Unsaved(m, id)
    ensures Unsaved(Do(c, m, move), id)
  {
    if move.action.Advance? {
      StepKeepsUnsaved(c, m, move.thread, move.action.w, id);
    }
  }

  lemma {:induction false} UnsavedForGood(c: Config, m: Machine, moves: seq<Move>, id: string)
    requires Inv(m) && SensibleMoves(c, m, moves) && Unsaved(m, id)
    ensures Unsaved(DoAll(c, m, moves), id)
    decreases |moves|
  {
    if moves == [] {
    } else {
      DoKeepsUnsaved(c, m, moves[0], id);
      DoKeepsInv(c, m, moves[0]);
      UnsavedForGood(c, Do(c, m, moves[0]), moves[1..], id);
    }
  }

  /** The loser's id is saved by nobody. */
  lemma LoserIsUnsaved(c: Config, m: Machine, t: nat, p: Snapshot, w: World, winner: string)
    requires Inv(m) && t in m.threads && m.threads[t] == SavingNew(p)
    requires p.idempotencyKey != "" && winner in m.rows && m.rows[winner].idempotencyKey == Some(p.idempotencyKey)
    ensures Unsaved(Step(c, m, t, w), p.id)
  {
    LoserLeavesNoTrace(c, m, t, p, w, winner);
    StepMovesOne(c, m, t, w);
    assert NewID(m.threads[t]) == Some(p.id);
  }

  /** A stored key stays with its row, and a retry is given it. */
  lemma RetryGetsWinnerLater(c: Config, m: Machine, moves: seq<Move>, winner: string, t: nat, req: Snapshot, w: World)
    requires Inv(m) && SensibleMoves(c, m, moves) && req.idempotencyKey != "" && !w.down
    requires winner in m.rows && m.rows[winner].idempotencyKey == Some(req.idempotencyKey)
    requires var end := DoAll(c, m, moves);
             t in end.threads && end.threads[t] == CheckingKey(req) && IsOrder(w.order, Table(end.rows))
    ensures var end := DoAll(c, m, moves);
            winner in end.rows && Step(c, end, t, w).threads[t] == Done(Some(Scan(winner, end.rows[winner])), None)
  {
    InterleavingsKeepInv(c, m, moves);
    InterleavingsPersist(c, m, moves, t);
    RetryGetsWinner(c, DoAll(c, m, moves), t, req, w, winner);
  }

  /** An id that nobody will save is in no row and in no event, for ever. */
  lemma UnsavedLeavesNothing(c: Config, m: Machine, moves: seq<Move>, id: string)
    requires Inv(m) && SensibleMoves(c, m, moves) && Unsaved(m, id)
    ensures var end := DoAll(c, m, moves); id !in end.rows && forall i | 0 <= i < |end.log| :: end.log[i].paymentID != id
  {
    UnsavedForGood(c, m, moves, id);
    InterleavingsKeepInv(c, m, moves);
  }

  /** The loser has ended, and its id is in no row and in no event, for ever. */
  lemma LoserStaysAway(c: Config, m: Machine, t: nat, p: Snapshot, w: World, winner: string, moves: seq<Move>)
    requires Inv(m) && t in m.threads && m.threads[t] == SavingNew(p) && w.id !in m.used
    requires p.idempotencyKey != "" && winner in m.rows && m.rows[winner].idempotencyKey == Some(p.idempotencyKey)
    requires SensibleMoves(c, Step(c, m, t, w), moves)
    ensures var end := DoAll(c, Step(c, m, t, w), moves);
            && t in end.threads && end.threads[t] == Done(None, Some(SaveFailed))
            && p.id !in end.rows && forall i | 0 <= i < |end.log| :: end.log[i].paymentID != p.id
  {
    StepKeepsInv(c, m, t, w);
    LoserLeavesNoTrace(c, m, t, p, w, winner);
    InterleavingsPersist(c, Step(c, m, t, w), moves, t);
    LoserIsUnsaved(c, m, t, p, w, winner);
    UnsavedLeavesNothing(c, Step(c, m, t, w), moves, p.id);
  }

  /** Whichever call saved a key first, it stays the winner for ever: after any further
      interleaving the loser has left no row and no event, and a retry is given the winner. */
  lemma WinnerStaysWinner(c: Config, m: Machine, t: nat, p: Snapshot, w: World, winner: string, moves: seq<Move>,
                          t': nat, req: Snapshot, w': World)
    requires Inv(m) && t in m.threads && m.threads[t] == SavingNew(p) && w.id !in m.used
    requires p.idempotencyKey != "" && winner in m.rows && m.rows[winner].idempotencyKey == Some(p.idempotencyKey)
    requires SensibleMoves(c, Step(c, m, t, w), moves)
    requires var end := DoAll(c, Step(c, m, t, w), moves);
             t' in end.threads && end.threads[t'] == CheckingKey(req) && IsOrder(w'.order, Table(end.rows))
    requires req.idempotencyKey == p.idempotencyKey && !w'.down
    ensures var end := DoAll(c, Step(c, m, t, w), moves);
            && t in end.threads && end.threads[t] == Done(None, Some(SaveFailed))
            && p.id !in end.rows && (forall i | 0 <= i < |end.log| :: end.log[i].paymentID != p.id)
            && winner in end.rows
            && Step(c, end, t', w').threads[t'] == Done(Some(Scan(winner, end.rows[winner])), None)
  {
    LoserLeavesNoTrace(c, m, t, p, w, winner);
    StepKeepsInv(c, m, t, w);
    LoserStaysAway(c, m, t, p, w, winner, moves);
    RetryGetsWinnerLater(c, Step(c, m, t, w), moves, winner, t', req, w');
  }

  /** Calls that have ended with a payment of one key hold the same payment. */
  lemma EndedWithOneKeyAgree(m: Machine, t: nat, t': nat, p: Snapshot, p': Snapshot)
    requires Inv(m) && t in m.threads && m.threads[t] == Done(Some(p), None)
    requires t' in m.threads && m.threads[t'] == Done(Some(p'), None)
    requires p.idempotencyKey == p'.idempotencyKey != ""
    ensures p.id == p'.id
  {
    assert StoredCopy(m, p) && StoredCopy(m, p');
  }

  /** Over every interleaving, all calls that succeed with one key have been given the same
      payment. */
  lemma SuccessfulCreatesAgree(c: Config, start: Machine, moves: seq<Move>, t: nat, t': nat, p: Snapshot, p': Snapshot)
    requires start == START && SensibleMoves(c, start, moves)
    requires var end := DoAll(c, start, moves);
             && t in end.threads && end.threads[t] == Done(Some(p), None)
             && t' in end.threads && end.threads[t'] == Done(Some(p'), None)
    requires p.idempotencyKey == p'.idempotencyKey != ""
    ensures p.id == p'.id
  {
    StartIsFine(start);
    InterleavingsKeepInv(c, start, moves);
    EndedWithOneKeyAgree(DoAll(c, start, moves), t, t', p, p');
  }
}
