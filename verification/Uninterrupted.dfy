/** A call whose steps are not interleaved with others is the serial call.
 */
module Uninterrupted {
  import opened Options
  import opened Events
  import opened Entity
  import opened Storage
  import opened Service
  import opened Interleaving

  /** What the service sees of the machine. */
  function Seen(m: Machine): State {
    State(Table(m.rows), m.log, m.calls)
  }

  function CreateWorld(env: CreateEnv, phase: Phase): World {
    World(env.order, if phase.CheckingKey? then env.queryDown else env.saveDown, env.id, env.placeholder,
          if phase.Publishing? then env.published else env.created, env.updated, env.reply, env.eventID)
  }

  function EventWorld(env: EventEnv, phase: Phase): World {
    World(env.order,
          if phase.FindingID? then env.idQueryDown else if phase.FindingRef? then env.refQueryDown else env.saveDown,
          "", "", if phase.Publishing? then env.published else env.bridged, env.settled, Declined(""), env.eventID)
  }

  /** Let one call take n steps with nothing in between. */
  function CreateAlone(c: Config, m: Machine, t: nat, env: CreateEnv, n: nat): Machine
    requires t in m.threads
    decreases n
  {
    if n == 0 then m else
      var after := Step(c, m, t, CreateWorld(env, m.threads[t]));
      if t in after.threads then CreateAlone(c, after, t, env, n - 1) else after
  }

  function EventAlone(c: Config, m: Machine, t: nat, env: EventEnv, n: nat): Machine
    requires t in m.threads
    decreases n
  {
    if n == 0 then m else
      var after := Step(c, m, t, EventWorld(env, m.threads[t]));
      if t in after.threads then EventAlone(c, after, t, env, n - 1) else after
  }

  /** The call has ended with this error, or none, and the service sees this state. */
  ghost predicate Ended(m: Machine, t: nat, s: State, err: Option<Error>) {
    t in m.threads && m.threads[t].Done? && m.threads[t].err == err && Seen(m) == s
  }

  /** The call has ended, has answered with this payment unless it failed, and the service
      sees this state. */
  ghost predicate Answered(m: Machine, t: nat, s: State, p: Snapshot, err: Option<Error>) {
    t in m.threads && m.threads[t] == Done(if err.None? then Some(p) else None, err) && Seen(m) == s
  }

  lemma {:induction false} EndedCreateStays(c: Config, m: Machine, t: nat, env: CreateEnv, n: nat)
    requires t in m.threads && m.threads[t].Done?
    ensures CreateAlone(c, m, t, env, n) == m
  {
    if n == 0 {
    } else {
      EndedCreateStays(c, m, t, env, n - 1);
    }
  }

  lemma {:induction false} EndedEventStays(c: Config, m: Machine, t: nat, env: EventEnv, n: nat)
    requires t in m.threads && m.threads[t].Done?
    ensures EventAlone(c, m, t, env, n) == m
  {
    if n == 0 {
    } else {
      EndedEventStays(c, m, t, env, n - 1);
    }
  }

  lemma StoreAlone(c: Config, m: Machine, t: nat, p: Snapshot, env: CreateEnv)
    requires t in m.threads && m.threads[t] == SavingNew(p)
    ensures Answered(CreateAlone(c, m, t, env, 2), t, Store(c, Seen(m), p, env).0,
                     Store(c, Seen(m), p, env).1, Store(c, Seen(m), p, env).2)
  {
    var saved := Step(c, m, t, CreateWorld(env, m.threads[t]));
    assert CreateAlone(c, m, t, env, 2) == CreateAlone(c, saved, t, env, 1);
    if saved.threads[t].Done? {
      EndedCreateStays(c, saved, t, env, 1);
    } else {
      var published := Step(c, saved, t, CreateWorld(env, saved.threads[t]));
      assert CreateAlone(c, saved, t, env, 1) == CreateAlone(c, published, t, env, 0) == published;
    }
  }

  lemma ChargeAlone(c: Config, m: Machine, t: nat, p: Snapshot, env: CreateEnv)
    requires t in m.threads && m.threads[t] == AtProvider(p)
    ensures Answered(CreateAlone(c, m, t, env, 3), t, Charge(c, Seen(m), p, env).0,
                     Charge(c, Seen(m), p, env).1, Charge(c, Seen(m), p, env).2)
  {
    var called := Step(c, m, t, CreateWorld(env, m.threads[t]));
    assert CreateAlone(c, m, t, env, 3) == CreateAlone(c, called, t, env, 2);
    match env.reply
    case Declined(_) => EndedCreateStays(c, called, t, env, 2);
    case Charged(ref) => StoreAlone(c, called, t, p.(transactionID := ref), env);
  }

  /** The steps of a create, taken without interruption, are the serial CreatePayment. */
  lemma CreateAloneIsSerial(c: Config, m: Machine, t: nat, req: Snapshot, env: CreateEnv)
    requires t in m.threads && m.threads[t] == CheckingKey(req) && IsOrder(env.order, Table(m.rows))
    ensures Answered(CreateAlone(c, m, t, env, 4), t, Create(c, Seen(m), req, env).0,
                     Create(c, Seen(m), req, env).1, Create(c, Seen(m), req, env).2)
  {
    var w := CreateWorld(env, m.threads[t]);
    var checked := Step(c, m, t, w);
    assert CreateAlone(c, m, t, env, 4) == CreateAlone(c, checked, t, env, 3);
    if req.idempotencyKey != "" {
      FindFinds(Table(m.rows), env.order, ByKey, req.idempotencyKey);
    }
    assert BuildNew(c, req, w) == Build(c, req, env);
    if checked.threads[t].Done? {
      EndedCreateStays(c, checked, t, env, 3);
    } else {
      assert Seen(checked) == Seen(m);
      ChargeAlone(c, checked, t, checked.threads[t].p, env);
    }
  }

  lemma SettleAlone(c: Config, m: Machine, t: nat, id: string, e: DomainEvent, to: Status, env: EventEnv)
    requires t in m.threads && id in m.rows && !m.rows[id].status.Terminal() && Target(e.eventType) == Some(to)
    requires m.threads[t] == SavingSettled(Settled(Scan(id, m.rows[id]), e, to, env.settled))
    ensures Ended(EventAlone(c, m, t, env, 2), t, Settle(c, Seen(m), id, e, to, env).0, Settle(c, Seen(m), id, e, to, env).1)
  {
    var saved := Step(c, m, t, EventWorld(env, m.threads[t]));
    assert EventAlone(c, m, t, env, 2) == EventAlone(c, saved, t, env, 1);
    if saved.threads[t].Done? {
      EndedEventStays(c, saved, t, env, 1);
    } else {
      var published := Step(c, saved, t, EventWorld(env, saved.threads[t]));
      assert EventAlone(c, saved, t, env, 1) == EventAlone(c, published, t, env, 0) == published;
    }
  }

  /** After a row has been read, the rest of an event call alone is the serial Apply. */
  lemma ApplyAlone(c: Config, m: Machine, t: nat, id: string, e: DomainEvent, env: EventEnv, w: World, decided: Machine)
    requires id in m.rows && w.later == env.settled && decided == Decide(m, t, Scan(id, m.rows[id]), e, w)
    ensures t in decided.threads
    ensures Ended(EventAlone(c, decided, t, env, 2), t, Apply(c, Seen(m), id, e, env).0, Apply(c, Seen(m), id, e, env).1)
  {
    if decided.threads[t].Done? {
      EndedEventStays(c, decided, t, env, 2);
    } else {
      SettleAlone(c, decided, t, id, e, Target(e.eventType).value, env);
    }
  }

  lemma EventTakesStep(c: Config, m: Machine, t: nat, env: EventEnv, i: nat)
    requires t in m.threads && i > 0
    ensures var next := Step(c, m, t, EventWorld(env, m.threads[t]));
            t in next.threads && EventAlone(c, m, t, env, i) == EventAlone(c, next, t, env, i - 1)
  {
    StepMovesOne(c, m, t, EventWorld(env, m.threads[t]));
  }

  /** Once the call has ended, one step more changes nothing. */
  lemma {:induction false} OneStepMore(c: Config, m: Machine, t: nat, env: EventEnv, n: nat)
    requires t in m.threads && t in EventAlone(c, m, t, env, n).threads && EventAlone(c, m, t, env, n).threads[t].Done?
    ensures EventAlone(c, m, t, env, n + 1) == EventAlone(c, m, t, env, n)
    decreases n
  {
    if n == 0 {
      EndedEventStays(c, m, t, env, 1);
    } else {
      EventTakesStep(c, m, t, env, n);
      EventTakesStep(c, m, t, env, n + 1);
      OneStepMore(c, Step(c, m, t, EventWorld(env, m.threads[t])), t, env, n - 1);
    }
  }

  lemma FindRefAlone(c: Config, m: Machine, t: nat, e: DomainEvent, env: EventEnv)
    requires t in m.threads && m.threads[t] == FindingRef(e) && IsOrder(env.order, Table(m.rows))
    requires e.transactionID != "" && ByID(Table(m.rows), e, env).Unresolved?
    ensures Ended(EventAlone(c, m, t, env, 3), t, Process(c, Seen(m), e, env).0, Process(c, Seen(m), e, env).1)
  {
    var w := EventWorld(env, m.threads[t]);
    var found := Step(c, m, t, w);
    assert EventAlone(c, m, t, env, 3) == EventAlone(c, found, t, env, 2);
    FindFinds(Table(m.rows), env.order, ByRef, e.transactionID);
    var id := Find(Table(m.rows), env.order, ByRef, e.transactionID);
    if !env.refQueryDown && id.Some? {
      ApplyAlone(c, m, t, id.value, e, env, w, found);
    } else {
      EndedEventStays(c, found, t, env, 2);
    }
  }

  /** The steps of an event call, taken without interruption, are the serial ProcessEvent. */
  lemma EventAloneIsSerial(c: Config, m: Machine, t: nat, e: DomainEvent, env: EventEnv)
    requires t in m.threads && m.threads[t] == FindingID(e) && IsOrder(env.order, Table(m.rows))
    ensures Ended(EventAlone(c, m, t, env, 4), t, Process(c, Seen(m), e, env).0, Process(c, Seen(m), e, env).1)
  {
    var w := EventWorld(env, m.threads[t]);
    var found := Step(c, m, t, w);
    assert EventAlone(c, m, t, env, 4) == EventAlone(c, found, t, env, 3);
    if !env.idQueryDown && e.paymentID in m.rows {
      ApplyAlone(c, m, t, e.paymentID, e, env, w, found);
      OneStepMore(c, found, t, env, 2);
    } else if e.transactionID != "" {
      FindRefAlone(c, found, t, e, env);
    } else {
      EndedEventStays(c, found, t, env, 3);
    }
  }
}
