/** Conservation of money over serial runs: what the provider charged, what is stored and
    what was announced are the same amounts, currency by currency.
 */
module Money {
  import opened Options
  import opened Events
  import opened Entity
  import opened Storage
  import opened Service
  import opened SerialRuns

  /** The amount of a payment if it is in this currency (and this status, if one is given). */
  function Share(currency: string, status: Option<Status>, p: Snapshot): int {
    if p.currency == currency && (status.None? || status.value == p.status) then p.amount else 0
  }

  /** The sum over the stored payments. */
  ghost function Stored(m: Payments, currency: string, status: Option<Status>): int {
    if m == map[] then 0 else
      var id :| id in m;
      Share(currency, status, m[id]) + Stored(m - {id}, currency, status)
  }

  /** The sum over the `payment.created` events. */
  function Announced(log: seq<PaymentEvent>, currency: string): int {
    if log == [] then 0 else
      var last := log[|log| - 1];
      Announced(log[..|log| - 1], currency)
      + (if last.eventType == CREATED && last.currency == currency then last.amount else 0)
  }

  /** The sum over the provider calls that charged. */
  function ChargedIn(calls: seq<ProviderCall>, currency: string): int {
    if calls == [] then 0 else
      var last := calls[|calls| - 1];
      ChargedIn(calls[..|calls| - 1], currency)
      + (if last.charged && last.request.currency == currency then last.request.amount else 0)
  }

  /** Any payment can be taken out of the sum first. */
  lemma {:induction false} StoredSplits(m: Payments, id: string, currency: string, status: Option<Status>)
    requires id in m
    ensures Stored(m, currency, status) == Share(currency, status, m[id]) + Stored(m - {id}, currency, status)
    decreases |m|
  {
    var first :| first in m && Stored(m, currency, status) == Share(currency, status, m[first]) + Stored(m - {first}, currency, status);
    if first != id {
      StoredSplits(m - {first}, id, currency, status);
      StoredSplits(m - {id}, first, currency, status);
      assert m - {first} - {id} == m - {id} - {first};
    }
  }

  lemma StoredUpdate(m: Payments, p: Snapshot, currency: string, status: Option<Status>)
    ensures Stored(m[p.id := p], currency, status)
            == Stored(m, currency, status) + Share(currency, status, p)
               - (if p.id in m then Share(currency, status, m[p.id]) else 0)
  {
    var after := m[p.id := p];
    StoredSplits(after, p.id, currency, status);
    if p.id in m {
      StoredSplits(m, p.id, currency, status);
      assert after - {p.id} == m - {p.id};
    } else {
      assert after - {p.id} == m;
    }
  }

  /** The sum splits over the five statuses. */
  lemma {:induction false} StoredByStatus(m: Payments, currency: string)
    ensures Stored(m, currency, None)
            == Stored(m, currency, Some(Pending)) + Stored(m, currency, Some(Processing)) + Stored(m, currency, Some(Completed))
               + Stored(m, currency, Some(Failed)) + Stored(m, currency, Some(Cancelled))
    decreases |m|
  {
    if m == map[] {
    } else {
      var id :| id in m;
      StoredByStatus(m - {id}, currency);
      StoredSplits(m, id, currency, None);
      StoredSplits(m, id, currency, Some(Pending));
      StoredSplits(m, id, currency, Some(Processing));
      StoredSplits(m, id, currency, Some(Completed));
      StoredSplits(m, id, currency, Some(Failed));
      StoredSplits(m, id, currency, Some(Cancelled));
    }
  }

  ghost predicate Balanced(s: State, currency: string) {
    s.store.Memory? && Stored(s.store.payments, currency, None) == Announced(s.log, currency) == ChargedIn(s.calls, currency)
  }

  lemma AnnouncedSnoc(log: seq<PaymentEvent>, event: PaymentEvent, currency: string)
    ensures Announced(log + [event], currency)
            == Announced(log, currency) + (if event.eventType == CREATED && event.currency == currency then event.amount else 0)
  {
    assert (log + [event])[..|log|] == log;
  }

  lemma ChargedSnoc(calls: seq<ProviderCall>, call: ProviderCall, currency: string)
    ensures ChargedIn(calls + [call], currency)
            == ChargedIn(calls, currency) + (if call.charged && call.request.currency == currency then call.request.amount else 0)
  {
    assert (calls + [call])[..|calls|] == calls;
  }

  /** No terminal event is mistaken for a creation. */
  lemma TerminalEventIsNotCreation(status: Status)
    requires status.Terminal()
    ensures "payment." + status.Text() != CREATED
  {
    assert |CREATED| == 15 && |"payment." + status.Text()| == 8 + |status.Text()|;
  }

  lemma ChangeKeepsBalance(c: Config, s: State, call: Call, ch: Change, currency: string)
    requires s.store.Memory? && Balanced(s, currency) && IsChange(c, s, call, ch)
    requires call.CreateCall? ==> call.env.id !in s.store.payments
    ensures Balanced(Changed(s, ch), currency)
  {
    match ch
    case Nothing =>
    case Refused(called) => ChargedSnoc(s.calls, called, currency);
    case Added(p, called, event) =>
      ChargedSnoc(s.calls, called, currency);
      AnnouncedSnoc(s.log, event, currency);
      StoredUpdate(s.store.payments, p, currency, None);
    case Moved(p, event) =>
      AnnouncedSnoc(s.log, event, currency);
      TerminalEventIsNotCreation(p.status);
      StoredUpdate(s.store.payments, p, currency, None);
  }

  /** After every serial run, in every currency, the stored amounts add up to what the
      provider charged and to what `payment.created` announced; and the five statuses
      partition that sum. */
  lemma {:induction false} MoneyIsConserved(c: Config, s: State, clock: int, calls: seq<Call>, currency: string)
    requires Good(s, clock) && Balanced(s, currency) && SensibleRun(c, s, clock, calls)
    ensures Balanced(Run(c, s, calls), currency)
    decreases |calls|
  {
    if calls == [] {
    } else {
      var ch := CallChanges(c, s, clock, calls[0]);
      ChangeKeepsBalance(c, s, calls[0], ch, currency);
      CallKeepsGood(c, s, clock, calls[0]);
      MoneyIsConserved(c, Next(c, s, calls[0]), ClockAfter(calls[0]), calls[1..], currency);
    }
  }

  lemma EmptyIsBalanced(currency: string)
    ensures Balanced(EMPTY, currency) && Good(EMPTY, 0)
  {
    assert Statuses(map[]) == map[];
  }
}
