/** Interleaved creates and the provider: when one idempotency key is charged twice, exactly,
    and what rules it out.
 */
module InterleavedCharges {
  import opened Options
  import opened Events
  import opened Entity
  import opened Storage
  import opened Service
  import opened Interleaving

  /** How many calls have charged this key. */
  function Charges(calls: seq<ProviderCall>, key: string): nat {
    if calls == [] then 0 else
      var last := calls[|calls| - 1];
      Charges(calls[..|calls| - 1], key) + (if last.charged && last.request.idempotencyKey == key then 1 else 0)
  }

  lemma ChargesSnoc(calls: seq<ProviderCall>, call: ProviderCall, key: string)
    ensures Charges(calls + [call], key) == Charges(calls, key) + (if call.charged && call.request.idempotencyKey == key then 1 else 0)
  {
    assert (calls + [call])[..|calls|] == calls;
  }

  ghost predicate KeyStored(rows: Rows, key: string) {
    exists id | id in rows :: rows[id].idempotencyKey == Some(key)
  }

  /** The call has passed the lookup of the key and is about to call the provider. */
  predicate Charging(m: Machine, t: nat, key: string) {
    t in m.threads && m.threads[t].AtProvider? && m.threads[t].p.idempotencyKey == key
  }

  /** The call has passed the lookup of the key and has not saved yet. */
  predicate Holding(m: Machine, t: nat, key: string) {
    t in m.threads && (m.threads[t].AtProvider? || m.threads[t].SavingNew?) && m.threads[t].p.idempotencyKey == key
  }

  /** The move looks the key up, for a request the domain accepts, and does not find it: it is
      in no row, or the query fails. */
  ghost predicate PassesLookup(c: Config, m: Machine, move: Move, key: string) {
    && move.action.Advance? && move.thread in m.threads
    && match m.threads[move.thread]
       case CheckingKey(req) =>
         && req.idempotencyKey == key && (move.action.w.down || !KeyStored(m.rows, key))
         && BuildNew(c, req, move.action.w).Built?
       case _ => false
  }

  predicate ChargesNow(m: Machine, move: Move, key: string) {
    move.action.Advance? && Charging(m, move.thread, key) && move.action.w.reply.Charged?
  }

  // ----- What one move does -----

  lemma FindCalls(m: Machine, t: nat, e: DomainEvent, w: World)
    ensures FindID(m, t, e, w).calls == m.calls && FindRef(m, t, e, w).calls == m.calls
  {
    if e.paymentID in m.rows {
      DecideAppends(m, t, Scan(e.paymentID, m.rows[e.paymentID]), e, w);
    }
    var found := Find(Table(m.rows), w.order, ByRef, e.transactionID);
    if found.Some? && found.value in m.rows {
      DecideAppends(m, t, Scan(found.value, m.rows[found.value]), e, w);
    }
  }

  /** Only a call at the provider adds to the calls. */
  lemma StepCalls(c: Config, m: Machine, t: nat, w: World)
    requires t in m.threads && !m.threads[t].AtProvider?
    ensures Step(c, m, t, w).calls == m.calls
  {
    match m.threads[t]
    case CheckingKey(req) =>
    case SavingNew(p) =>
    case FindingID(e) => FindCalls(m, t, e, w);
    case FindingRef(e) => FindCalls(m, t, e, w);
    case SavingSettled(p) =>
    case Publishing(p, eventType) =>
    case Done(_, _) =>
  }

  lemma MoveCharges(c: Config, m: Machine, move: Move, key: string)
    ensures Charges(Do(c, m, move).calls, key) == Charges(m.calls, key) + (if ChargesNow(m, move, key) then 1 else 0)
  {
    if move.action.Advance? && move.thread in m.threads {
      var t, w := move.thread, move.action.w;
      if m.threads[t].AtProvider? {
        ChargesSnoc(m.calls, ProviderCall(RequestFor(m.threads[t].p), w.reply.Charged?), key);
      } else {
        StepCalls(c, m, t, w);
      }
    }
  }

  lemma LookupPassesIff(c: Config, m: Machine, t: nat, req: Snapshot, w: World, key: string)
    requires t in m.threads && m.threads[t] == CheckingKey(req) && IsOrder(w.order, Table(m.rows)) && key != ""
    ensures var after := CheckKey(c, m, t, req, w);
            && (Charging(after, t, key) <==> PassesLookup(c, m, Move(t, Advance(w)), key))
            && !after.threads[t].SavingNew?
  {
    if req.idempotencyKey != "" {
      FindFinds(Table(m.rows), w.order, ByKey, req.idempotencyKey);
    }
    var found := if req.idempotencyKey == "" || w.down then None else Find(Table(m.rows), w.order, ByKey, req.idempotencyKey);
    if req.idempotencyKey == key && !w.down {
      if found.Some? {
        assert KeyStored(m.rows, key);
      } else {
        forall id | id in m.rows
          ensures m.rows[id].idempotencyKey != Some(key)
        {
          assert !Carries(Table(m.rows), id, ByKey, key);
        }
      }
    }
  }

  lemma FindIsNoCreate(m: Machine, t: nat, e: DomainEvent, w: World, key: string)
    ensures !Holding(FindID(m, t, e, w), t, key) && !Holding(FindRef(m, t, e, w), t, key)
  {
    FindIDs(m, t, e, w);
  }

  lemma SaveIsNoCreate(m: Machine, t: nat, p: Snapshot, eventType: string, w: World, key: string)
    ensures !Holding(SaveRow(m, t, p, eventType, w), t, key)
  {
  }

  /** The call that moves holds the key afterwards exactly when it has just passed the lookup
      or has just been charged. */
  lemma MoverHolds(c: Config, m: Machine, t: nat, w: World, key: string)
    requires t in m.threads && IsOrder(w.order, Table(m.rows)) && key != ""
    ensures var after, move := Step(c, m, t, w), Move(t, Advance(w));
            && (Charging(after, t, key) <==> PassesLookup(c, m, move, key))
            && (Holding(after, t, key) <==> PassesLookup(c, m, move, key) || ChargesNow(m, move, key))
  {
    match m.threads[t]
    case CheckingKey(req) => LookupPassesIff(c, m, t, req, w, key);
    case AtProvider(p) =>
    case SavingNew(p) => SaveIsNoCreate(m, t, p, CREATED, w, key);
    case FindingID(e) => FindIsNoCreate(m, t, e, w, key);
    case FindingRef(e) => FindIsNoCreate(m, t, e, w, key);
    case SavingSettled(p) => SaveIsNoCreate(m, t, p, "payment." + p.status.Text(), w, key);
    case Publishing(p, eventType) =>
    case Done(_, _) =>
  }

  /** Who is charging, and who holds the key, after a move. */
  lemma MoveHolds(c: Config, m: Machine, move: Move, t: nat, key: string)
    requires Sensible(m, move) && key != ""
    ensures var after := Do(c, m, move);
            var moves := move.action.Advance? && t == move.thread && t in m.threads;
            && (Charging(after, t, key) <==> if moves then PassesLookup(c, m, move, key) else Charging(m, t, key))
            && (Holding(after, t, key) <==> if moves then PassesLookup(c, m, move, key) || ChargesNow(m, move, key) else Holding(m, t, key))
  {
    if move.action.Advance? && move.thread in m.threads {
      var w := move.action.w;
      StepMovesOne(c, m, move.thread, w);
      assert move == Move(move.thread, Advance(w));
      MoverHolds(c, m, move.thread, w, key);
    }
  }

  // ----- When a key is charged twice -----

  /** Call t charges the key, now or later in the run. */
  ghost predicate ChargedLater(c: Config, m: Machine, moves: seq<Move>, t: nat, key: string)
    decreases |moves|
  {
    && moves != []
    && ((moves[0].thread == t && ChargesNow(m, moves[0], key)) || ChargedLater(c, Do(c, m, moves[0]), moves[1..], t, key))
  }

  /** The calls that have passed the lookup and will be charged. */
  ghost function ToBeCharged(c: Config, m: Machine, moves: seq<Move>, key: string): set<nat> {
    set t | t in m.threads && Charging(m, t, key) && ChargedLater(c, m, moves, t, key)
  }

  /** At some point of the run a create passes the lookup of the key, and is later charged,
      although the key has been charged already, or another call that has passed the lookup
      is still to be charged. */
  ghost predicate LookupComesTooSoon(c: Config, m: Machine, moves: seq<Move>, key: string)
    decreases |moves|
  {
    && moves != []
    && ((PassesLookup(c, m, moves[0], key) && ChargedLater(c, Do(c, m, moves[0]), moves[1..], moves[0].thread, key)
         && (Charges(m.calls, key) > 0 || ToBeCharged(c, m, moves, key) != {}))
        || LookupComesTooSoon(c, Do(c, m, moves[0]), moves[1..], key))
  }

  /** A call that has ended is not charged any more. */
  lemma {:induction false} EndedIsNotCharged(c: Config, m: Machine, moves: seq<Move>, t: nat, key: string)
    requires t in m.threads && m.threads[t].Done?
    ensures !ChargedLater(c, m, moves, t, key)
    decreases |moves|
  {
    if moves == [] {
    } else {
      StepTouchesOne(c, m, moves[0], t);
      EndedIsNotCharged(c, Do(c, m, moves[0]), moves[1..], t, key);
    }
  }

  /** The claims on a key: the charges made and the charges to come. */
  ghost function Claims(c: Config, m: Machine, moves: seq<Move>, key: string): nat {
    Charges(m.calls, key) + |ToBeCharged(c, m, moves, key)|
  }

  lemma ToBeChargedSteps(c: Config, m: Machine, moves: seq<Move>, key: string)
    requires moves != [] && SensibleMoves(c, m, moves) && key != ""
    ensures var next, t := Do(c, m, moves[0]), moves[0].thread;
            ToBeCharged(c, next, moves[1..], key) ==
              if ChargesNow(m, moves[0], key) then ToBeCharged(c, m, moves, key) - {t}
              else if PassesLookup(c, m, moves[0], key) && ChargedLater(c, next, moves[1..], t, key)
              then ToBeCharged(c, m, moves, key) + {t}
              else ToBeCharged(c, m, moves, key)
  {
    var next, move := Do(c, m, moves[0]), moves[0];
    var before, after := ToBeCharged(c, m, moves, key), ToBeCharged(c, next, moves[1..], key);
    forall t
      ensures t in after <==>
        if t == move.thread && ChargesNow(m, move, key) then false
        else t in before || (t == move.thread && PassesLookup(c, m, move, key) && ChargedLater(c, next, moves[1..], t, key))
    {
      MoveHolds(c, m, move, t, key);
      if t == move.thread && move.action.Advance? && Charging(m, t, key) && !move.action.w.reply.Charged? {
        EndedIsNotCharged(c, next, moves[1..], t, key);
      }
    }
  }

  lemma ClaimsStep(c: Config, m: Machine, moves: seq<Move>, key: string)
    requires moves != [] && SensibleMoves(c, m, moves) && key != ""
    ensures var next, t := Do(c, m, moves[0]), moves[0].thread;
            Claims(c, next, moves[1..], key) == Claims(c, m, moves, key)
              + (if PassesLookup(c, m, moves[0], key) && ChargedLater(c, next, moves[1..], t, key) then 1 else 0)
  {
    ToBeChargedSteps(c, m, moves, key);
    MoveCharges(c, m, moves[0], key);
    if ChargesNow(m, moves[0], key) {
      assert moves[0].thread in ToBeCharged(c, m, moves, key);
    } else if PassesLookup(c, m, moves[0], key) {
      assert moves[0].thread !in ToBeCharged(c, m, moves, key);
    }
  }

  lemma {:induction false} ChargedTwiceIffClaimed(c: Config, m: Machine, moves: seq<Move>, key: string)
    requires SensibleMoves(c, m, moves) && key != ""
    ensures Charges(DoAll(c, m, moves).calls, key) >= 2 <==>
              Claims(c, m, moves, key) >= 2 || LookupComesTooSoon(c, m, moves, key)
    decreases |moves|
  {
    if moves == [] {
      assert ToBeCharged(c, m, moves, key) == {};
    } else {
      ClaimsStep(c, m, moves, key);
      ChargedTwiceIffClaimed(c, Do(c, m, moves[0]), moves[1..], key);
      assert ToBeCharged(c, m, moves, key) != {} <==> |ToBeCharged(c, m, moves, key)| > 0;
    }
  }

  /** Over any interleaving an idempotency key is charged more than once exactly when some
      create passes the lookup of the key too soon or in vain: it is charged although the key
      has been charged already, or together with another call that has passed the lookup. */
  lemma KeyChargedTwiceIff(c: Config, m: Machine, moves: seq<Move>, key: string)
    requires SensibleMoves(c, m, moves) && key != ""
    requires Charges(m.calls, key) == 0 && forall t :: !Charging(m, t, key)
    ensures Charges(DoAll(c, m, moves).calls, key) >= 2 <==> LookupComesTooSoon(c, m, moves, key)
  {
    ChargedTwiceIffClaimed(c, m, moves, key);
    assert ToBeCharged(c, m, moves, key) == {};
  }

  // ----- What rules it out -----

  /** No create passes the lookup of the key while another call holds it; no lookup of it is
      down; every save of it is accepted. */
  ghost predicate Guarded(c: Config, m: Machine, move: Move, key: string) {
    move.action.Advance? && move.thread in m.threads ==>
      match m.threads[move.thread]
      case CheckingKey(req) => req.idempotencyKey == key ==>
        !move.action.w.down && (PassesLookup(c, m, move, key) ==> forall t :: !Holding(m, t, key))
      case SavingNew(p) => p.idempotencyKey == key ==> Accepted(m, p, move.action.w)
      case _ => true
  }

  ghost predicate GuardedMoves(c: Config, m: Machine, moves: seq<Move>, key: string)
    decreases |moves|
  {
    moves != [] ==> Guarded(c, m, moves[0], key) && GuardedMoves(c, Do(c, m, moves[0]), moves[1..], key)
  }

  ghost predicate Saving(m: Machine, t: nat, key: string) {
    Holding(m, t, key) && m.threads[t].SavingNew?
  }

  /** A key is charged at most once; once charged it is stored, or the call that was charged
      is about to save it; at most one call holds it, and none once it is stored. */
  ghost predicate KeyInv(m: Machine, key: string) {
    && (forall t, t' | Holding(m, t, key) && Holding(m, t', key) :: t == t')
    && Charges(m.calls, key) <= 1
    && (Charges(m.calls, key) == 1 ==> KeyStored(m.rows, key) || exists t :: Saving(m, t, key))
    && (KeyStored(m.rows, key) ==> forall t :: !Holding(m, t, key))
  }

  lemma SaveStores(m: Machine, t: nat, p: Snapshot, eventType: string, w: World)
    requires p.id !in m.rows && p.idempotencyKey != "" && Accepted(m, p, w)
    ensures KeyStored(SaveRow(m, t, p, eventType, w).rows, p.idempotencyKey)
  {
    var rows := SaveRow(m, t, p, eventType, w).rows;
    assert p.id in rows && rows[p.id].idempotencyKey == Some(p.idempotencyKey);
  }

  lemma StoredStays(rows: Rows, later: Rows, key: string)
    requires RowsPersist(rows, later) && KeyStored(rows, key)
    ensures KeyStored(later, key)
  {
    var id :| id in rows && rows[id].idempotencyKey == Some(key);
    assert later[id].idempotencyKey == Some(key);
  }

  lemma SaveStoresOnly(m: Machine, t: nat, p: Snapshot, eventType: string, w: World, key: string)
    requires key != "" && KeyStored(SaveRow(m, t, p, eventType, w).rows, key)
    ensures KeyStored(m.rows, key) || (p.id !in m.rows && p.idempotencyKey == key)
  {
    var rows := SaveRow(m, t, p, eventType, w).rows;
    var id :| id in rows && rows[id].idempotencyKey == Some(key);
    assert id in m.rows ==> m.rows[id].idempotencyKey == Some(key);
  }

  /** A key comes to be stored only by the save of a new payment with it. */
  lemma StepStoresOnly(c: Config, m: Machine, t: nat, w: World, key: string)
    requires Inv(m) && t in m.threads && key != "" && KeyStored(Step(c, m, t, w).rows, key)
    ensures KeyStored(m.rows, key) || Saving(m, t, key)
  {
    StepMovesOne(c, m, t, w);
    assert PhaseOk(m, m.threads[t]);
    if m.threads[t].SavingNew? {
      SaveStoresOnly(m, t, m.threads[t].p, CREATED, w, key);
    } else if m.threads[t].SavingSettled? {
      SaveStoresOnly(m, t, m.threads[t].p, "payment." + m.threads[t].p.status.Text(), w, key);
    }
  }

  lemma StepKeepsSaver(c: Config, m: Machine, t: nat, w: World, u: nat, key: string)
    requires t in m.threads && u != t && Saving(m, u, key)
    ensures Saving(Step(c, m, t, w), u, key)
  {
    StepMovesOne(c, m, t, w);
  }

  /** After a guarded move a charged key is stored or about to be. */
  lemma ChargedIsAccountedFor(c: Config, m: Machine, move: Move, key: string)
    requires Inv(m) && KeyInv(m, key) && Sensible(m, move) && Guarded(c, m, move, key) && key != ""
    requires Charges(Do(c, m, move).calls, key) >= 1
    ensures KeyStored(Do(c, m, move).rows, key) || exists t :: Saving(Do(c, m, move), t, key)
  {
    var after := Do(c, m, move);
    MoveCharges(c, m, move, key);
    StepTouchesOne(c, m, move, 0);
    if ChargesNow(m, move, key) {
      MoveHolds(c, m, move, move.thread, key);
      assert Saving(after, move.thread, key);
    } else if KeyStored(m.rows, key) {
      StoredStays(m.rows, after.rows, key);
    } else {
      var t :| Saving(m, t, key);
      if move.action.Advance? && move.thread in m.threads {
        if t == move.thread {
          assert PhaseOk(m, m.threads[t]);
          SaveStores(m, t, m.threads[t].p, CREATED, move.action.w);
        } else {
          StepKeepsSaver(c, m, move.thread, move.action.w, t, key);
        }
      } else {
        assert Saving(after, t, key);
      }
    }
  }

  /** While a call is at the provider with the key, nobody has been charged for it. */
  lemma ChargingMeansUncharged(m: Machine, t: nat, key: string)
    requires KeyInv(m, key) && Charging(m, t, key)
    ensures Charges(m.calls, key) == 0
  {
    assert Holding(m, t, key);
  }

  lemma OneHolderAfter(c: Config, m: Machine, move: Move, t: nat, t': nat, key: string)
    requires KeyInv(m, key) && Sensible(m, move) && Guarded(c, m, move, key) && key != ""
    requires Holding(Do(c, m, move), t, key) && Holding(Do(c, m, move), t', key)
    ensures t == t'
  {
    MoveHolds(c, m, move, t, key);
    MoveHolds(c, m, move, t', key);
    assert ChargesNow(m, move, key) ==> Holding(m, move.thread, key);
    assert PassesLookup(c, m, move, key) ==> forall u :: !Holding(m, u, key);
  }

  lemma NoHolderOnceStored(c: Config, m: Machine, move: Move, t: nat, key: string)
    requires Inv(m) && KeyInv(m, key) && Sensible(m, move) && Guarded(c, m, move, key) && key != ""
    requires KeyStored(Do(c, m, move).rows, key)
    ensures !Holding(Do(c, m, move), t, key)
  {
    MoveHolds(c, m, move, t, key);
    if move.action.Advance? && move.thread in m.threads {
      StepStoresOnly(c, m, move.thread, move.action.w, key);
      if !KeyStored(m.rows, key) {
        assert Holding(m, move.thread, key);
      } else if ChargesNow(m, move, key) {
        assert Holding(m, move.thread, key);
      }
    }
  }

  lemma MoveKeepsKeyInv(c: Config, m: Machine, move: Move, key: string)
    requires Inv(m) && KeyInv(m, key) && Sensible(m, move) && Guarded(c, m, move, key) && key != ""
    ensures KeyInv(Do(c, m, move), key)
  {
    var after := Do(c, m, move);
    MoveCharges(c, m, move, key);
    if ChargesNow(m, move, key) {
      ChargingMeansUncharged(m, move.thread, key);
    }
    if Charges(after.calls, key) >= 1 {
      ChargedIsAccountedFor(c, m, move, key);
    }
    forall t, t' | Holding(after, t, key) && Holding(after, t', key)
      ensures t == t'
    {
      OneHolderAfter(c, m, move, t, t', key);
    }
    if KeyStored(after.rows, key) {
      forall t
        ensures !Holding(after, t, key)
      {
        NoHolderOnceStored(c, m, move, t, key);
      }
    }
  }

  /** The promise of the documentation, over every interleaving: a non-empty key is charged at
      most once, provided that no create passes its lookup while another call with it is in
      flight, that no lookup of it is down and that every save of it is accepted. */
  lemma {:induction false} GuardedKeyChargedOnce(c: Config, m: Machine, moves: seq<Move>, key: string)
    requires Inv(m) && KeyInv(m, key) && SensibleMoves(c, m, moves) && GuardedMoves(c, m, moves, key) && key != ""
    ensures KeyInv(DoAll(c, m, moves), key) && Charges(DoAll(c, m, moves).calls, key) <= 1
    decreases |moves|
  {
    if moves == [] {
    } else {
      MoveKeepsKeyInv(c, m, moves[0], key);
      DoKeepsInv(c, m, moves[0]);
      GuardedKeyChargedOnce(c, Do(c, m, moves[0]), moves[1..], key);
    }
  }

  lemma StartIsUncharged(m: Machine, key: string)
    requires m == START
    ensures Inv(m) && KeyInv(m, key) && Charges(m.calls, key) == 0 && forall t :: !Charging(m, t, key)
  {
    StartIsFine(m);
  }

  // ----- Two creates at the same time -----

  lemma PairLooksUp(c: Config, start: Machine, req: Snapshot) returns (moves: seq<Move>, m: Machine)
    requires start == START && req.idempotencyKey != "" && BuildNew(c, req, Calm([], "")).Built?
    ensures Leads(c, start, moves, m) && m.rows == map[] && m.calls == [] && m.used == {"a", "b"}
    ensures Charging(m, 0, req.idempotencyKey) && Charging(m, 1, req.idempotencyKey)
  {
    var key := req.idempotencyKey;
    moves := [];
    LeadsOn(c, start, moves, start, Move(0, BeginCreate(req)));
    moves := moves + [Move(0, BeginCreate(req))];
    var m1 := At(start, 0, CheckingKey(req));
    LeadsOn(c, start, moves, m1, Move(1, BeginCreate(req)));
    moves := moves + [Move(1, BeginCreate(req))];
    var m2 := At(m1, 1, CheckingKey(req));
    LeadsOn(c, start, moves, m2, Move(0, Advance(Calm([], "a"))));
    moves := moves + [Move(0, Advance(Calm([], "a")))];
    var m3 := CheckKey(c, m2, 0, req, Calm([], "a"));
    assert m3.used == {"a"} && m3.threads[1] == CheckingKey(req);
    LeadsOn(c, start, moves, m3, Move(1, Advance(Calm([], "b"))));
    moves := moves + [Move(1, Advance(Calm([], "b")))];
    m := CheckKey(c, m3, 1, req, Calm([], "b"));
  }

  lemma PairIsCharged(c: Config, start: Machine, before: seq<Move>, m: Machine, key: string) returns (moves: seq<Move>)
    requires Leads(c, start, before, m) && m.rows == map[] && m.calls == [] && m.used == {"a", "b"} && key != ""
    requires Charging(m, 0, key) && Charging(m, 1, key)
    ensures SensibleMoves(c, start, moves) && Charges(DoAll(c, start, moves).calls, key) == 2
  {
    var w := Calm([], "c");
    var one, two := Move(0, Advance(w)), Move(1, Advance(w));
    var m1 := Do(c, m, one);
    LeadsOn(c, start, before, m, one);
    MoveHolds(c, m, one, 1, key);
    MoveCharges(c, m, one, key);
    assert m1.rows == map[] && m1.used == m.used;
    LeadsOn(c, start, before + [one], m1, two);
    MoveCharges(c, m1, two, key);
    moves := before + [one] + [two];
  }

  /** From the empty system, with no outage and no refused save: two creates with one key both
      look it up before either has saved, and the provider charges both. */
  lemma ConcurrentCreatesChargeTwice(c: Config, start: Machine, req: Snapshot) returns (moves: seq<Move>)
    requires start == START && req.idempotencyKey != "" && BuildNew(c, req, Calm([], "")).Built?
    ensures SensibleMoves(c, start, moves) && Charges(DoAll(c, start, moves).calls, req.idempotencyKey) == 2
  {
    var m;
    moves, m := PairLooksUp(c, start, req);
    moves := PairIsCharged(c, start, moves, m, req.idempotencyKey);
  }
}
