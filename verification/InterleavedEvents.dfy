/** Interleaved calls and the published events: every status a row has had is announced once,
    by an event in the log or by a call that is about to publish it.
 */
module InterleavedEvents {
  import opened Options
  import opened Events
  import opened Entity
  import opened Storage
  import opened Service
  import opened Interleaving

  /** The event type under which a status is announced. */
  function TypeOf(status: Status): string {
    if status == Pending then CREATED else "payment." + status.Text()
  }

  predicate Tells(event: PaymentEvent, id: string, status: Status) {
    event.paymentID == id && event.status == status.Text() && event.eventType == TypeOf(status)
  }

  /** How often the log announces that payment `id` has this status. */
  function Told(log: seq<PaymentEvent>, id: string, status: Status): nat {
    if log == [] then 0 else
      var last := log[|log| - 1];
      Told(log[..|log| - 1], id, status) + (if Tells(last, id, status) then 1 else 0)
  }

  lemma ToldSnoc(log: seq<PaymentEvent>, event: PaymentEvent, id: string, status: Status)
    ensures Told(log + [event], id, status) == Told(log, id, status) + (if Tells(event, id, status) then 1 else 0)
  {
    assert (log + [event])[..|log|] == log;
  }

  /** The call is about to announce that payment `id` has this status. */
  predicate Telling(phase: Phase, id: string, status: Status) {
    phase.Publishing? && phase.p.id == id && phase.p.status == status
  }

  function Tellers(threads: map<nat, Phase>, id: string, status: Status): set<nat> {
    set t | t in threads && Telling(threads[t], id, status)
  }

  function TellingCount(phase: Option<Phase>, id: string, status: Status): nat {
    if phase.Some? && Telling(phase.value, id, status) then 1 else 0
  }

  function PhaseOf(threads: map<nat, Phase>, t: nat): Option<Phase> {
    if t in threads then Some(threads[t]) else None
  }

  lemma CountWithout(s: set<nat>, t: nat)
    ensures |s| == |s - {t}| + (if t in s then 1 else 0)
  {
    if t in s {
      assert s == (s - {t}) + {t};
    } else {
      assert s - {t} == s;
    }
  }

  lemma OtherTellersStay(threads: map<nat, Phase>, after: map<nat, Phase>, t: nat, id: string, status: Status)
    requires after.Keys == threads.Keys + {t}
    requires forall u | u in threads && u != t :: after[u] == threads[u]
    ensures Tellers(after, id, status) - {t} == Tellers(threads, id, status) - {t}
  {
  }

  lemma TellersChange(threads: map<nat, Phase>, after: map<nat, Phase>, t: nat, id: string, status: Status)
    requires after.Keys == threads.Keys + {t}
    requires forall u | u in threads && u != t :: after[u] == threads[u]
    ensures |Tellers(after, id, status)| + TellingCount(PhaseOf(threads, t), id, status)
            == |Tellers(threads, id, status)| + TellingCount(Some(after[t]), id, status)
  {
    OtherTellersStay(threads, after, t, id, status);
    CountWithout(Tellers(after, id, status), t);
    CountWithout(Tellers(threads, id, status), t);
  }

  /** How often a row has been given this status. */
  function Given(m: Machine, id: string, status: Status): nat {
    if id in m.history then multiset(m.history[id])[status] else 0
  }

  /** Calls announce statuses under their own event type. */
  ghost predicate TypesOk(m: Machine) {
    forall t | t in m.threads && m.threads[t].Publishing? :: m.threads[t].eventType == TypeOf(m.threads[t].p.status)
  }

  ghost predicate AllTold(m: Machine) {
    forall id: string, status: Status ::
      Told(m.log, id, status) + |Tellers(m.threads, id, status)| == Given(m, id, status)
  }

  lemma TextIsInjective(a: Status, b: Status)
    ensures a.Text() == b.Text() <==> a == b
  {
    assert |a.Text()| == |b.Text()| && a != b ==> a.Text()[0] != b.Text()[0] || a.Text()[1] != b.Text()[1];
  }

  lemma EventTells(c: Config, p: Snapshot, eventType: string, eventID: string, published: int, id: string, status: Status)
    requires eventType == TypeOf(p.status)
    ensures Tells(EventFor(c, p, eventType, eventID, published), id, status) <==> p.id == id && p.status == status
  {
    TextIsInjective(p.status, status);
  }

  /** A step that neither saves nor publishes. */
  ghost predicate Quiet(m: Machine, t: nat, after: Machine) {
    && MovesOnly(m, t, after) && after.log == m.log && after.history == m.history
    && !after.threads[t].Publishing? && (t in m.threads ==> !m.threads[t].Publishing?)
  }

  lemma QuietKeepsTold(m: Machine, t: nat, after: Machine)
    requires AllTold(m) && TypesOk(m) && Quiet(m, t, after)
    ensures AllTold(after) && TypesOk(after)
  {
    forall id: string, status: Status
      ensures Told(after.log, id, status) + |Tellers(after.threads, id, status)| == Given(after, id, status)
    {
      TellersChange(m.threads, after.threads, t, id, status);
    }
    assert forall u | u in after.threads && u != t :: u in m.threads;
  }

  lemma GivenAfterSave(m: Machine, p: Snapshot, id: string, status: Status)
    ensures Given(m.(history := Noted(m.history, p)), id, status)
            == Given(m, id, status) + (if p.id == id && p.status == status then 1 else 0)
  {
    var before := if p.id in m.history then m.history[p.id] else [];
    assert multiset(before + [p.status]) == multiset(before) + multiset{p.status};
  }

  lemma WriteKeepsTold(m: Machine, t: nat, p: Snapshot, eventType: string, rows: Rows)
    requires AllTold(m) && TypesOk(m) && t in m.threads && !m.threads[t].Publishing? && eventType == TypeOf(p.status)
    ensures var after := At(m, t, Publishing(p, eventType)).(rows := rows, history := Noted(m.history, p));
            AllTold(after) && TypesOk(after)
  {
    var after := At(m, t, Publishing(p, eventType)).(rows := rows, history := Noted(m.history, p));
    forall id: string, status: Status
      ensures Told(after.log, id, status) + |Tellers(after.threads, id, status)| == Given(after, id, status)
    {
      TellersChange(m.threads, after.threads, t, id, status);
      GivenAfterSave(m, p, id, status);
    }
  }

  lemma SaveKeepsTold(m: Machine, t: nat, p: Snapshot, eventType: string, w: World)
    requires AllTold(m) && TypesOk(m) && t in m.threads && !m.threads[t].Publishing? && eventType == TypeOf(p.status)
    ensures AllTold(SaveRow(m, t, p, eventType, w)) && TypesOk(SaveRow(m, t, p, eventType, w))
  {
    if Accepted(m, p, w) {
      WriteKeepsTold(m, t, p, eventType, Upsert(m.rows, p).value);
    } else {
      QuietKeepsTold(m, t, SaveRow(m, t, p, eventType, w));
    }
  }

  lemma PublishKeepsTold(c: Config, m: Machine, t: nat, w: World)
    requires AllTold(m) && TypesOk(m) && t in m.threads && m.threads[t].Publishing?
    ensures var after := Publish(c, m, t, m.threads[t].p, m.threads[t].eventType, w); AllTold(after) && TypesOk(after)
  {
    var p, eventType := m.threads[t].p, m.threads[t].eventType;
    var after := Publish(c, m, t, p, eventType, w);
    var event := EventFor(c, p, eventType, w.eventID, w.now);
    forall id: string, status: Status
      ensures Told(after.log, id, status) + |Tellers(after.threads, id, status)| == Given(after, id, status)
    {
      TellersChange(m.threads, after.threads, t, id, status);
      ToldSnoc(m.log, event, id, status);
      EventTells(c, p, eventType, w.eventID, w.now, id, status);
    }
  }

  lemma DecideIsQuiet(m: Machine, t: nat, p: Snapshot, e: DomainEvent, w: World)
    requires t in m.threads && !m.threads[t].Publishing?
    ensures Quiet(m, t, Decide(m, t, p, e, w))
  {
  }

  lemma FindIsQuiet(m: Machine, t: nat, e: DomainEvent, w: World)
    requires t in m.threads && !m.threads[t].Publishing?
    ensures Quiet(m, t, FindID(m, t, e, w)) && Quiet(m, t, FindRef(m, t, e, w))
  {
    if e.paymentID in m.rows {
      DecideIsQuiet(m, t, Scan(e.paymentID, m.rows[e.paymentID]), e, w);
    }
    var found := Find(Table(m.rows), w.order, ByRef, e.transactionID);
    if found.Some? && found.value in m.rows {
      DecideIsQuiet(m, t, Scan(found.value, m.rows[found.value]), e, w);
    }
  }

  lemma CreateIsQuiet(c: Config, m: Machine, t: nat, req: Snapshot, p: Snapshot, w: World)
    requires t in m.threads && !m.threads[t].Publishing?
    ensures Quiet(m, t, CheckKey(c, m, t, req, w)) && Quiet(m, t, CallProvider(c, m, t, p, w))
  {
  }

  lemma StepKeepsTold(c: Config, m: Machine, t: nat, w: World)
    requires Inv(m) && AllTold(m) && TypesOk(m)
    ensures AllTold(Step(c, m, t, w)) && TypesOk(Step(c, m, t, w))
  {
    if t in m.threads {
      assert PhaseOk(m, m.threads[t]);
      match m.threads[t]
      case CheckingKey(req) =>
        CreateIsQuiet(c, m, t, req, req, w);
        QuietKeepsTold(m, t, CheckKey(c, m, t, req, w));
      case AtProvider(p) =>
        CreateIsQuiet(c, m, t, p, p, w);
        QuietKeepsTold(m, t, CallProvider(c, m, t, p, w));
      case SavingNew(p) => SaveKeepsTold(m, t, p, CREATED, w);
      case FindingID(e) =>
        FindIsQuiet(m, t, e, w);
        QuietKeepsTold(m, t, FindID(m, t, e, w));
      case FindingRef(e) =>
        FindIsQuiet(m, t, e, w);
        QuietKeepsTold(m, t, FindRef(m, t, e, w));
      case SavingSettled(p) => SaveKeepsTold(m, t, p, "payment." + p.status.Text(), w);
      case Publishing(p, eventType) => PublishKeepsTold(c, m, t, w);
      case Done(_, _) =>
    }
  }

  lemma MoveKeepsTold(c: Config, m: Machine, move: Move)
    requires Inv(m) && AllTold(m) && TypesOk(m)
    ensures AllTold(Do(c, m, move)) && TypesOk(Do(c, m, move))
  {
    if move.action.Advance? {
      StepKeepsTold(c, m, move.thread, move.action.w);
    } else if move.thread !in m.threads {
      QuietKeepsTold(m, move.thread, Do(c, m, move));
    }
  }

  /** Over every interleaving: for each payment and status, the events in the log and the
      calls about to publish one are together as many as the times the row was given it. */
  lemma {:induction false} EveryStatusIsTold(c: Config, m: Machine, moves: seq<Move>)
    requires Inv(m) && SensibleMoves(c, m, moves) && AllTold(m) && TypesOk(m)
    ensures AllTold(DoAll(c, m, moves)) && TypesOk(DoAll(c, m, moves))
    decreases |moves|
  {
    if moves == [] {
    } else {
      MoveKeepsTold(c, m, moves[0]);
      DoKeepsInv(c, m, moves[0]);
      EveryStatusIsTold(c, Do(c, m, moves[0]), moves[1..]);
    }
  }

  /** No call is about to publish. */
  ghost predicate NobodyTells(m: Machine) {
    forall t | t in m.threads :: !m.threads[t].Publishing?
  }

  /** When no call is about to publish, the log of a system that started empty has announced
      exactly the histories of the rows: each stored payment was announced as created once,
      and each status it was given as often as it was given. */
  lemma QuietSystemHasToldAll(c: Config, start: Machine, moves: seq<Move>, id: string, status: Status)
    requires start == START && SensibleMoves(c, start, moves) && NobodyTells(DoAll(c, start, moves))
    ensures var end := DoAll(c, start, moves);
            && Told(end.log, id, status) == Given(end, id, status)
            && (id in end.rows ==> Told(end.log, id, Pending) == 1)
            && (id !in end.rows ==> Told(end.log, id, status) == 0)
  {
    var end := DoAll(c, start, moves);
    StartIsTold(start);
    InterleavingsKeepInv(c, start, moves);
    EveryStatusIsTold(c, start, moves);
    assert Tellers(end.threads, id, status) == {} == Tellers(end.threads, id, Pending);
    if id in end.rows {
      CreatedOnce(end.history[id]);
    }
  }

  lemma CreatedOnce(h: seq<Status>)
    requires PendingThenTerminal(h)
    ensures multiset(h)[Pending] == 1
  {
    assert h == [h[0]] + h[1..];
    assert Pending !in h[1..];
  }

  lemma StartIsTold(m: Machine)
    requires m == START
    ensures Inv(m) && AllTold(m) && TypesOk(m)
  {
    StartIsFine(m);
    forall id: string, status: Status
      ensures Told(m.log, id, status) + |Tellers(m.threads, id, status)| == Given(m, id, status)
    {
      assert Tellers(m.threads, id, status) == {};
    }
  }
}
