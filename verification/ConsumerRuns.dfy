/** What the consumer guarantees: the exact outcome of one event, and the ledger,
    conservation and replay laws of whole runs.
 */
module ConsumerRuns {
  import opened Options
  import opened Events
  import opened Consumer

  // ----- One event -----

  /** Attempt i would fail transiently, and the wait after it would not be cut short. */
  ghost predicate RetriedAt(w: World, s: State, event: PaymentEvent, i: nat) {
    w.handler(s.calls + i, event).Transient? && !w.cancelled(s.waits + i)
  }

  /** The first k attempts failed transiently and none of the k waits was cut short. */
  ghost predicate Retried(w: World, s: State, event: PaymentEvent, k: nat) {
    forall i: nat | i < k :: RetriedAt(w, s, event, i)
  }

  /** The total wait after k transient failures, in milliseconds. */
  function TotalBackoff(k: nat): nat {
    if k == 0 then 0 else TotalBackoff(k - 1) + Backoff(k - 1)
  }

  function AfterRetries(s: State, k: nat): State {
    s.(calls := s.calls + k, waits := s.waits + k, retries := s.retries + k, backoff := s.backoff + TotalBackoff(k))
  }

  /** The outcome of one event, told without a loop: after k transient failures the
      next attempt, or the wait after it, decides. */
  ghost predicate DecidedAt(w: World, n: nat, s: State, event: PaymentEvent, k: nat, after: State, d: Disposition) {
    var tried := AfterRetries(s, k);
    && k <= n
    && Retried(w, s, event, k)
    && (k == n || !RetriedAt(w, s, event, k))
    && match w.handler(s.calls + k, event)
       case Success => d == Handled && after == Called(tried).(handled := s.handled + [event])
       case Permanent(reason) => (after, d) == Route(w, Called(tried), event, 0, reason)
       case Transient(reason) =>
         if k == n then (after, d) == Route(w, Called(tried), event, n, reason)
         else d == Abandoned(reason) && after == Waited(Called(tried), k)
  }

  lemma {:induction false} RetryDecidesFrom(w: World, n: nat, s: State, event: PaymentEvent, attempt: nat) returns (k: nat)
    requires attempt <= n && Retried(w, s, event, attempt)
    ensures attempt <= k
    ensures var (after, d) := Retry(w, n, AfterRetries(s, attempt), event, attempt);
            DecidedAt(w, n, s, event, k, after, d)
    decreases n - attempt
  {
    var here := AfterRetries(s, attempt);
    if attempt < n && RetriedAt(w, s, event, attempt) {
      assert Waited(Called(here), attempt) == AfterRetries(s, attempt + 1);
      k := RetryDecidesFrom(w, n, s, event, attempt + 1);
    } else {
      k := attempt;
    }
  }

  /** The retry loop ends at exactly one attempt, and does what that attempt says. */
  lemma RetryDecides(w: World, n: nat, s: State, event: PaymentEvent) returns (k: nat)
    ensures var (after, d) := Retry(w, n, s, event, 0); DecidedAt(w, n, s, event, k, after, d)
    ensures forall j: nat, after: State, d: Disposition :: DecidedAt(w, n, s, event, j, after, d) ==>
              j == k && (after, d) == Retry(w, n, s, event, 0)
  {
    assert AfterRetries(s, 0) == s;
    k := RetryDecidesFrom(w, n, s, event, 0);
  }

  /** The sum of squares behind the backoff. */
  lemma {:induction false} TotalBackoffClosedForm(k: nat)
    ensures 6 * TotalBackoff(k) == 500 * ((k - 1) * k * (2 * k - 1))
  {
    if k == 0 {
    } else {
      var a := k - 1;
      TotalBackoffClosedForm(a);
      assert 6 * TotalBackoff(k) == 6 * TotalBackoff(a) + 3000 * (a * a);
      assert (k - 1) * k * (2 * k - 1) == a * (a + 1) * (2 * a + 1);
      NextSquare(a);
    }
  }

  /** (a-1)a(2a-1) + 6a^2 = a(a+1)(2a+1) */
  lemma NextSquare(a: nat)
    ensures (a - 1) * a * (2 * a - 1) + 6 * (a * a) == a * (a + 1) * (2 * a + 1)
  {
    var square := a * a;
    var cube := square * a;
    assert (a - 1) * a == square - a;
    assert (square - a) * (2 * a - 1) == 2 * cube - 3 * square + a;
    assert a * (a + 1) == square + a;
    assert (square + a) * (2 * a + 1) == 2 * cube + 3 * square + a;
  }

  lemma {:induction false} TotalBackoffGrows(j: nat, k: nat)
    requires j <= k
    ensures TotalBackoff(j) <= TotalBackoff(k)
    decreases k
  {
    if j < k {
      TotalBackoffGrows(j, k - 1);
    }
  }

  /** The number of transient failures among the first n + 1 attempts decides the retry count. */
  ghost predicate AllAttemptsTransient(w: World, n: nat, s: State, event: PaymentEvent) {
    Retried(w, s, event, n) && w.handler(s.calls + n, event).Transient?
  }

  /** Bounds on one event: at most n + 1 handler calls and the sum-of-squares backoff; one
      retry is counted per handler call but the last, or per call when it was abandoned. */
  lemma RetryCosts(w: World, n: nat, s: State, event: PaymentEvent)
    ensures var (after, d) := Retry(w, n, s, event, 0);
            && s.calls < after.calls <= s.calls + n + 1
            && 6 * (after.backoff - s.backoff) <= 500 * ((n - 1) * n * (2 * n - 1))
            && after.retries - s.retries == after.calls - s.calls - (if d.Abandoned? then 0 else 1)
            && after.waits - s.waits == after.retries - s.retries
            && after.commits == s.commits && after.journal == s.journal
  {
    var k := RetryDecides(w, n, s, event);
    TotalBackoffGrows(if k < n then k + 1 else k, n);
    TotalBackoffClosedForm(n);
  }

  /** A dead-letter envelope carries the event itself, where it came from and the reason of
      its last attempt; its retry count is n when every one of the n + 1 attempts failed
      transiently, and 0 otherwise. */
  lemma RetryCountIsHonest(w: World, n: nat, s: State, event: PaymentEvent)
    ensures var (after, d) := Retry(w, n, s, event, 0);
            && (d.DeadLettered? ==>
                  && d.envelope.originalEvent == event
                  && d.envelope.originalTopic == w.topic && d.envelope.consumerGroup == w.group
                  && s.calls < after.calls
                  && w.handler(after.calls - 1, event) in {Permanent(d.envelope.errorReason), Transient(d.envelope.errorReason)}
                  && d.envelope.retryCount == (if AllAttemptsTransient(w, n, s, event) then n else 0)
                  && d.envelope.failedAt == w.clock(s.writes) && after.writes == s.writes + 1
                  && after.dlq == s.dlq + [d.envelope])
            && (!d.DeadLettered? ==> after.dlq == s.dlq)
            && s.calls < after.calls
            && (d.DlqFailed? ==> w.handler(after.calls - 1, event) in {Permanent(d.reason), Transient(d.reason)})
            && (d.Abandoned? ==> w.handler(after.calls - 1, event) == Transient(d.reason))
            && (d.Handled? ==> after.handled == s.handled + [event])
            && (!d.Handled? ==> after.handled == s.handled)
            && (AllAttemptsTransient(w, n, s, event) ==> d.DeadLettered? || d.DlqFailed?)
  {
    var k := RetryDecides(w, n, s, event);
  }

  /** With the budget of the source: at most four calls and 2.5 seconds of waiting. */
  lemma SourceBudget(w: World, s: State, event: PaymentEvent)
    ensures var after := Retry(w, MAX_RETRIES, s, event, 0).0;
            after.calls <= s.calls + 4 && after.backoff <= s.backoff + 2500
  {
    RetryCosts(w, MAX_RETRIES, s, event);
  }

  /** Three transient failures, and the fourth attempt decides. */
  lemma FourthDecides(w: World, n: nat, s: State, event: PaymentEvent)
    requires n == 3 && RetriedAt(w, s, event, 0) && RetriedAt(w, s, event, 1) && RetriedAt(w, s, event, 2)
    ensures var (after, d) := Retry(w, n, s, event, 0); DecidedAt(w, n, s, event, n, after, d)
  {
    var k := RetryDecides(w, n, s, event);
    assert k == n;
  }

  /** After three transient failures the source's budget still makes the fourth call, having
      waited 0, 500 and 2000 ms. */
  lemma FourthCallIsMade(w: World, s: State, event: PaymentEvent)
    requires w.handler(s.calls, event).Transient? && !w.cancelled(s.waits)
    requires w.handler(s.calls + 1, event).Transient? && !w.cancelled(s.waits + 1)
    requires w.handler(s.calls + 2, event).Transient? && !w.cancelled(s.waits + 2)
    ensures var (after, d) := Retry(w, MAX_RETRIES, s, event, 0);
            && after.calls == s.calls + 4 && after.retries == s.retries + 3 && after.backoff == s.backoff + 2500
            && (w.handler(s.calls + 3, event).Success? ==> d == Handled && after.handled == s.handled + [event])
            && (!w.handler(s.calls + 3, event).Success? ==> d.DeadLettered? || d.DlqFailed?)
  {
    var n := MAX_RETRIES;
    FourthDecides(w, n, s, event);
    FirstWaits();
  }

  lemma FirstWaits()
    ensures TotalBackoff(1) == 0 && TotalBackoff(2) == 500 && TotalBackoff(3) == 2500
  {
  }

  /** A message that does not decode is dead-lettered at once, with retry count 0, whatever of
      the event could be read, and the decoder's complaint; it is lost if that cannot be. */
  lemma MalformedIsDeadLettered(w: World, n: nat, s: State, msg: Message)
    requires msg.body.Malformed?
    ensures var (after, d) := Dispose(w, n, s, msg);
            var reason := "unmarshal error: " + msg.body.why;
            var envelope := DLQEnvelope(originalEvent := msg.body.partial, originalTopic := w.topic, consumerGroup := w.group,
                                        errorReason := reason, retryCount := 0, failedAt := w.clock(s.writes));
            && after.calls == s.calls && after.waits == s.waits && after.writes == s.writes + (if w.hasDlq then 1 else 0)
            && (w.hasDlq && w.dlqAccepts(s.writes) ==> d == DeadLettered(envelope) && after.dlq == s.dlq + [envelope])
            && (!w.hasDlq || !w.dlqAccepts(s.writes) ==> d == DlqFailed(reason) && after.dlq == s.dlq)
  {
  }

  // ----- Whole runs: the ledger -----

  /** The messages a run fetches: those before the first shutdown. */
  function Messages(fetches: seq<Fetch>): seq<Message> {
    if fetches == [] then [] else
      match fetches[0]
      case Shutdown => []
      case FetchFailed => Messages(fetches[1..])
      case Fetched(msg) => [msg] + Messages(fetches[1..])
  }

  /** Handle the messages in order. */
  function HandleAll(w: World, n: nat, s: State, msgs: seq<Message>): State
    decreases |msgs|
  {
    if msgs == [] then s else HandleAll(w, n, Handle(w, n, s, msgs[0]), msgs[1..])
  }

  lemma {:induction false} RunHandlesMessages(w: World, n: nat, s: State, fetches: seq<Fetch>)
    ensures Run(w, n, s, fetches) == HandleAll(w, n, s, Messages(fetches))
    decreases |fetches|
  {
    if fetches == [] {
    } else {
      match fetches[0]
      case Shutdown =>
      case FetchFailed => RunHandlesMessages(w, n, s, fetches[1..]);
      case Fetched(msg) =>
        RunHandlesMessages(w, n, Handle(w, n, s, msg), fetches[1..]);
        assert Messages(fetches)[1..] == Messages(fetches[1..]);
    }
  }

  /** A message and what became of it. */
  datatype Fate = Fate(msg: Message, disposition: Disposition)

  /** The fates of the messages of a run, in order. */
  function Fates(w: World, n: nat, s: State, msgs: seq<Message>): seq<Fate>
    decreases |msgs|
  {
    if msgs == [] then [] else
      [Fate(msgs[0], Dispose(w, n, s, msgs[0]).1)] + Fates(w, n, Handle(w, n, s, msgs[0]), msgs[1..])
  }

  /** The two entries for one message: its disposition, then one attempt to commit. */
  function EntriesOf(w: World, commits: nat, fate: Fate): seq<Entry> {
    [Disposed(fate.msg, fate.disposition), CommitTried(fate.msg.partition, fate.msg.offset, w.commitAccepts(commits))]
  }

  /** The journal that records each disposition and, after it, one attempt to commit. */
  function JournalOf(w: World, commits: nat, fates: seq<Fate>): seq<Entry>
    decreases |fates|
  {
    if fates == [] then [] else
      EntriesOf(w, commits, fates[0]) + JournalOf(w, commits + 1, fates[1..])
  }

  function EventOf(msg: Message): PaymentEvent {
    if msg.body.Decoded? then msg.body.event else msg.body.partial
  }

  /** Where an event can end up. */
  datatype Place = AtHandler | InDlq | Nowhere

  function PlaceOf(d: Disposition): Place {
    match d
    case Handled => AtHandler
    case DeadLettered(_) => InDlq
    case DlqFailed(_) => Nowhere
    case Abandoned(_) => Nowhere
  }

  /** The events that ended up in the given place, in order. */
  function EventsIn(place: Place, fates: seq<Fate>): seq<PaymentEvent> {
    if fates == [] then [] else
      (if PlaceOf(fates[0].disposition) == place then [EventOf(fates[0].msg)] else []) + EventsIn(place, fates[1..])
  }

  function AllEvents(msgs: seq<Message>): seq<PaymentEvent> {
    if msgs == [] then [] else [EventOf(msgs[0])] + AllEvents(msgs[1..])
  }

  function Originals(dlq: seq<DLQEnvelope>): seq<PaymentEvent> {
    seq(|dlq|, i requires 0 <= i < |dlq| => dlq[i].originalEvent)
  }

  function DecodedCount(msgs: seq<Message>): nat {
    if msgs == [] then 0 else (if msgs[0].body.Decoded? then 1 else 0) + DecodedCount(msgs[1..])
  }

  function AbandonedCount(fates: seq<Fate>): nat {
    if fates == [] then 0 else (if fates[0].disposition.Abandoned? then 1 else 0) + AbandonedCount(fates[1..])
  }

  /** A disposition agrees with what it did to the dead-letter topic, the handled events
      and the counters. */
  lemma DisposeAccounts(w: World, n: nat, s: State, msg: Message)
    ensures var (after, d) := Dispose(w, n, s, msg);
            && after.journal == s.journal && after.commits == s.commits
            && after.handled == s.handled + EventsIn(AtHandler, [Fate(msg, d)])
            && Originals(after.dlq) == Originals(s.dlq) + EventsIn(InDlq, [Fate(msg, d)])
            && after.calls - s.calls + AbandonedCount([Fate(msg, d)]) == after.retries - s.retries + DecodedCount([msg])
            && (d.Handled? || d.Abandoned? ==> msg.body.Decoded?)
            && s.waits <= after.waits && s.writes <= after.writes
            && (d.Abandoned? ==> s.waits < after.waits && w.cancelled(after.waits - 1))
            && (d.DlqFailed? && w.hasDlq ==> s.writes < after.writes && !w.dlqAccepts(after.writes - 1))
  {
    match msg.body
    case Malformed(partial, why) =>
    case Decoded(event) =>
      RetryCosts(w, n, s, event);
      RetryCountIsHonest(w, n, s, event);
      var k := RetryDecides(w, n, s, event);
  }

  /** Every fetched message gets exactly one disposition, in order. */
  lemma {:induction false} OneFateEach(w: World, n: nat, s: State, msgs: seq<Message>)
    ensures var fates := Fates(w, n, s, msgs);
            |fates| == |msgs| && forall i | 0 <= i < |msgs| :: fates[i].msg == msgs[i]
    decreases |msgs|
  {
    if msgs == [] {
    } else {
      OneFateEach(w, n, Handle(w, n, s, msgs[0]), msgs[1..]);
    }
  }

  lemma HandleJournals(w: World, n: nat, s: State, msg: Message)
    ensures var next, d := Handle(w, n, s, msg), Dispose(w, n, s, msg).1;
            next.journal == s.journal + EntriesOf(w, s.commits, Fate(msg, d)) && next.commits == s.commits + 1
  {
    DisposeAccounts(w, n, s, msg);
  }

  /** The journal is the fates in order, each followed by the one attempt to commit its
      offset, and nothing else. */
  lemma {:induction false} JournalTellsFates(w: World, n: nat, s: State, msgs: seq<Message>)
    ensures HandleAll(w, n, s, msgs).journal == s.journal + JournalOf(w, s.commits, Fates(w, n, s, msgs))
    decreases |msgs|
  {
    if msgs == [] {
    } else {
      var next, fates := Handle(w, n, s, msgs[0]), Fates(w, n, s, msgs);
      HandleJournals(w, n, s, msgs[0]);
      JournalTellsFates(w, n, next, msgs[1..]);
      assert fates[1..] == Fates(w, n, next, msgs[1..]);
      assert JournalOf(w, s.commits, fates) == EntriesOf(w, s.commits, fates[0]) + JournalOf(w, next.commits, fates[1..]);
    }
  }

  lemma {:induction false} JournalPairs(w: World, commits: nat, fates: seq<Fate>, i: nat)
    requires i < |fates|
    ensures var journal := JournalOf(w, commits, fates);
            && |journal| == 2 * |fates|
            && journal[2 * i] == Disposed(fates[i].msg, fates[i].disposition)
            && journal[2 * i + 1] == CommitTried(fates[i].msg.partition, fates[i].msg.offset, w.commitAccepts(commits + i))
    decreases |fates|
  {
    if |fates| <= 1 {
    } else {
      JournalPairs(w, commits + 1, fates[1..], if i > 0 then i - 1 else 0);
    }
  }

  /** The ledger of a run: for every message fetched, in order, one disposition and then one
      attempt to commit its offset, and no other entry. */
  lemma RunLedger(w: World, n: nat, s: State, fetches: seq<Fetch>, i: nat)
    requires s.journal == [] && s.commits == 0 && i < |Messages(fetches)|
    ensures var journal, msgs := Run(w, n, s, fetches).journal, Messages(fetches);
            && |journal| == 2 * |msgs|
            && journal[2 * i].Disposed? && journal[2 * i].msg == msgs[i]
            && journal[2 * i + 1] == CommitTried(msgs[i].partition, msgs[i].offset, w.commitAccepts(i))
  {
    var msgs := Messages(fetches);
    RunHandlesMessages(w, n, s, fetches);
    OneFateEach(w, n, s, msgs);
    JournalTellsFates(w, n, s, msgs);
    JournalPairs(w, 0, Fates(w, n, s, msgs), i);
    assert Run(w, n, s, fetches).journal == JournalOf(w, 0, Fates(w, n, s, msgs));
  }

  /** The handled events agree with the fates ... */
  lemma {:induction false} HandledTellsFates(w: World, n: nat, s: State, msgs: seq<Message>)
    ensures HandleAll(w, n, s, msgs).handled == s.handled + EventsIn(AtHandler, Fates(w, n, s, msgs))
    decreases |msgs|
  {
    if msgs == [] {
    } else {
      var next, fates := Handle(w, n, s, msgs[0]), Fates(w, n, s, msgs);
      DisposeAccounts(w, n, s, msgs[0]);
      HandledTellsFates(w, n, next, msgs[1..]);
      assert fates[1..] == Fates(w, n, next, msgs[1..]);
      assert EventsIn(AtHandler, fates) == EventsIn(AtHandler, [fates[0]]) + EventsIn(AtHandler, fates[1..]);
    }
  }

  /** ... and so does the dead-letter topic. */
  lemma {:induction false} DlqTellsFates(w: World, n: nat, s: State, msgs: seq<Message>)
    ensures Originals(HandleAll(w, n, s, msgs).dlq) == Originals(s.dlq) + EventsIn(InDlq, Fates(w, n, s, msgs))
    decreases |msgs|
  {
    if msgs == [] {
    } else {
      var next, fates := Handle(w, n, s, msgs[0]), Fates(w, n, s, msgs);
      DisposeAccounts(w, n, s, msgs[0]);
      DlqTellsFates(w, n, next, msgs[1..]);
      assert fates[1..] == Fates(w, n, next, msgs[1..]);
      assert EventsIn(InDlq, fates) == EventsIn(InDlq, [fates[0]]) + EventsIn(InDlq, fates[1..]);
    }
  }

  /** The retry counter: one retry per handler call that was not an event's last, plus one
      per abandoned event. */
  lemma {:induction false} RetriesAreCounted(w: World, n: nat, s: State, msgs: seq<Message>)
    ensures var after := HandleAll(w, n, s, msgs);
            after.calls - s.calls + AbandonedCount(Fates(w, n, s, msgs)) == after.retries - s.retries + DecodedCount(msgs)
    decreases |msgs|
  {
    if msgs == [] {
    } else {
      DisposeAccounts(w, n, s, msgs[0]);
      RetriesAreCounted(w, n, Handle(w, n, s, msgs[0]), msgs[1..]);
    }
  }

  /** No event vanishes and none is invented: each fetched event is handled, in the
      dead-letter topic, or lost, exactly once. */
  lemma {:induction false} EventsAreConserved(fates: seq<Fate>, msgs: seq<Message>)
    requires |fates| == |msgs| && forall i | 0 <= i < |msgs| :: fates[i].msg == msgs[i]
    ensures multiset(AllEvents(msgs)) ==
            multiset(EventsIn(AtHandler, fates)) + multiset(EventsIn(InDlq, fates)) + multiset(EventsIn(Nowhere, fates))
    decreases |msgs|
  {
    if msgs == [] {
    } else {
      EventsAreConserved(fates[1..], msgs[1..]);
    }
  }

  /** Conservation over any run, whatever fails: the events of the fetched messages are those
      handled, those in the dead-letter topic, and those of the messages that ended nowhere. */
  lemma RunConservesEvents(w: World, n: nat, s: State, fetches: seq<Fetch>)
    requires s.handled == [] && s.dlq == []
    ensures var after, msgs := Run(w, n, s, fetches), Messages(fetches);
            multiset(AllEvents(msgs)) ==
              multiset(after.handled) + multiset(Originals(after.dlq)) + multiset(EventsIn(Nowhere, Fates(w, n, s, msgs)))
  {
    var msgs := Messages(fetches);
    RunHandlesMessages(w, n, s, fetches);
    OneFateEach(w, n, s, msgs);
    HandledTellsFates(w, n, s, msgs);
    DlqTellsFates(w, n, s, msgs);
    EventsAreConserved(Fates(w, n, s, msgs), msgs);
    assert Run(w, n, s, fetches).handled == EventsIn(AtHandler, Fates(w, n, s, msgs));
    assert Originals(Run(w, n, s, fetches).dlq) == EventsIn(InDlq, Fates(w, n, s, msgs));
  }

  // ----- Whole runs: nothing lost, and replay -----

  /** Between these two states every dead-letter write succeeded and no wait was cut short. */
  ghost predicate Reliable(w: World, s: State, after: State) {
    && w.hasDlq
    && (forall i: nat | s.writes <= i < after.writes :: w.dlqAccepts(i))
    && (forall i: nat | s.waits <= i < after.waits :: !w.cancelled(i))
  }

  lemma {:induction false} OraclesAreUsedUp(w: World, n: nat, s: State, msgs: seq<Message>)
    ensures s.writes <= HandleAll(w, n, s, msgs).writes && s.waits <= HandleAll(w, n, s, msgs).waits
    decreases |msgs|
  {
    if msgs == [] {
    } else {
      DisposeAccounts(w, n, s, msgs[0]);
      OraclesAreUsedUp(w, n, Handle(w, n, s, msgs[0]), msgs[1..]);
    }
  }

  lemma {:induction false} ReliableLosesNothing(w: World, n: nat, s: State, msgs: seq<Message>)
    requires Reliable(w, s, HandleAll(w, n, s, msgs))
    ensures EventsIn(Nowhere, Fates(w, n, s, msgs)) == []
    ensures AbandonedCount(Fates(w, n, s, msgs)) == 0
    decreases |msgs|
  {
    if msgs == [] {
    } else {
      var next := Handle(w, n, s, msgs[0]);
      DisposeAccounts(w, n, s, msgs[0]);
      OraclesAreUsedUp(w, n, next, msgs[1..]);
      assert !w.cancelled(s.waits) || next.waits == s.waits;
      ReliableLosesNothing(w, n, next, msgs[1..]);
      assert Fates(w, n, s, msgs)[1..] == Fates(w, n, next, msgs[1..]);
    }
  }

  lemma {:induction false} UncancelledAbandonsNothing(w: World, n: nat, s: State, msgs: seq<Message>)
    requires forall i: nat | s.waits <= i < HandleAll(w, n, s, msgs).waits :: !w.cancelled(i)
    ensures AbandonedCount(Fates(w, n, s, msgs)) == 0
    decreases |msgs|
  {
    if msgs == [] {
    } else {
      var next := Handle(w, n, s, msgs[0]);
      DisposeAccounts(w, n, s, msgs[0]);
      OraclesAreUsedUp(w, n, next, msgs[1..]);
      UncancelledAbandonsNothing(w, n, next, msgs[1..]);
      assert Fates(w, n, s, msgs)[1..] == Fates(w, n, next, msgs[1..]);
    }
  }

  /** If no wait of a run was cut short, the retries counted in it are the handler calls minus
      the decoded events, whatever becomes of the dead-letter writes. */
  lemma UncancelledRetriesAreCounted(w: World, n: nat, s: State, fetches: seq<Fetch>)
    requires forall i: nat | s.waits <= i < Run(w, n, s, fetches).waits :: !w.cancelled(i)
    ensures var after := Run(w, n, s, fetches);
            after.retries - s.retries == after.calls - s.calls - DecodedCount(Messages(fetches))
  {
    RunHandlesMessages(w, n, s, fetches);
    UncancelledAbandonsNothing(w, n, s, Messages(fetches));
    RetriesAreCounted(w, n, s, Messages(fetches));
  }

  /** If every dead-letter write and every wait of a run succeeded, every event of the run is
      handled or dead-lettered, exactly once, and the retry counter is the number of handler
      calls minus the number of decoded events. */
  lemma ReliableRunAccountsForAll(w: World, n: nat, s: State, fetches: seq<Fetch>)
    requires s.handled == [] && s.dlq == [] && s.calls == s.retries
    requires Reliable(w, s, Run(w, n, s, fetches))
    ensures var after, msgs := Run(w, n, s, fetches), Messages(fetches);
            && multiset(AllEvents(msgs)) == multiset(after.handled) + multiset(Originals(after.dlq))
            && after.calls == after.retries + DecodedCount(msgs)
  {
    var msgs := Messages(fetches);
    RunHandlesMessages(w, n, s, fetches);
    RunConservesEvents(w, n, s, fetches);
    RetriesAreCounted(w, n, s, msgs);
    ReliableLosesNothing(w, n, s, msgs);
  }

  /** The messages that a replay of the dead-letter topic publishes. */
  function ReplayOf(events: seq<PaymentEvent>): seq<Message> {
    if events == [] then [] else [Message(0, 0, Decoded(events[0]))] + ReplayOf(events[1..])
  }

  lemma {:induction false} SuccessfulReplayHandlesAll(w: World, n: nat, s: State, events: seq<PaymentEvent>)
    requires forall i: nat, e: PaymentEvent :: w.handler(i, e).Success?
    ensures HandleAll(w, n, s, ReplayOf(events)).handled == s.handled + events
    decreases |events|
  {
    if events == [] {
    } else {
      var msgs := ReplayOf(events);
      assert msgs[1..] == ReplayOf(events[1..]);
      var next := Handle(w, n, s, msgs[0]);
      assert next.handled == s.handled + [events[0]];
      SuccessfulReplayHandlesAll(w, n, next, events[1..]);
      assert [events[0]] + events[1..] == events;
    }
  }

  /** Replay completeness: a reliable run, followed by a replay of its dead-letter topic to
      a handler that succeeds, handles every event of the main log exactly once. */
  lemma ReplayCompletes(w: World, n: nat, fetches: seq<Fetch>, fixed: World, n': nat)
    requires Reliable(w, START, Run(w, n, START, fetches))
    requires forall i: nat, e: PaymentEvent :: fixed.handler(i, e).Success?
    ensures var first := Run(w, n, START, fetches);
            var second := HandleAll(fixed, n', START, ReplayOf(Originals(first.dlq)));
            multiset(AllEvents(Messages(fetches))) == multiset(first.handled) + multiset(second.handled)
  {
    ReliableRunAccountsForAll(w, n, START, fetches);
    SuccessfulReplayHandlesAll(fixed, n', START, Originals(Run(w, n, START, fetches).dlq));
  }

  // ----- When an event is lost -----

  /** Some backoff wait is cut short by cancellation. */
  ghost predicate CutShort(w: World, n: nat, s: State, event: PaymentEvent) {
    exists k: nat | k < n ::
      Retried(w, s, event, k) && w.handler(s.calls + k, event).Transient? && w.cancelled(s.waits + k)
  }

  /** The attempts end in a permanent error or exhaust the retry budget. */
  ghost predicate NeedsDlq(w: World, n: nat, s: State, event: PaymentEvent) {
    exists k: nat | k <= n :: Retried(w, s, event, k) && GivesUpAt(w, n, s, event, k)
  }

  ghost predicate GivesUpAt(w: World, n: nat, s: State, event: PaymentEvent, k: nat) {
    w.handler(s.calls + k, event).Permanent? || (k == n && w.handler(s.calls + k, event).Transient?)
  }

  ghost predicate DlqRefuses(w: World, s: State) {
    !w.hasDlq || !w.dlqAccepts(s.writes)
  }

  /** What a message meets when it is neither handled nor dead-lettered: a wait that is cut
      short, or a dead-letter write that it needs and that fails. */
  ghost predicate Fails(w: World, n: nat, s: State, msg: Message) {
    match msg.body
    case Decoded(event) => CutShort(w, n, s, event) || (NeedsDlq(w, n, s, event) && DlqRefuses(w, s))
    case Malformed(_, _) => DlqRefuses(w, s)
  }

  lemma EventGoesNowhereIff(w: World, n: nat, s: State, event: PaymentEvent)
    ensures PlaceOf(Retry(w, n, s, event, 0).1) == Nowhere <==>
            CutShort(w, n, s, event) || (NeedsDlq(w, n, s, event) && DlqRefuses(w, s))
  {
    var k := RetryDecides(w, n, s, event);
    var outcome := w.handler(s.calls + k, event);
    forall j: nat | j <= n && j != k && Retried(w, s, event, j)
      ensures j < k && RetriedAt(w, s, event, j)
    {
      ghost var retried := RetriedAt(w, s, event, k);
    }
  }

  lemma MessageGoesNowhereIff(w: World, n: nat, s: State, msg: Message)
    ensures PlaceOf(Dispose(w, n, s, msg).1) == Nowhere <==> Fails(w, n, s, msg)
  {
    if msg.body.Decoded? {
      EventGoesNowhereIff(w, n, s, msg.body.event);
    }
  }

  /** The state in which the i-th message is disposed of. */
  function Before(w: World, n: nat, s: State, msgs: seq<Message>, i: nat): State
    requires i < |msgs|
    decreases i
  {
    if i == 0 then s else Before(w, n, Handle(w, n, s, msgs[0]), msgs[1..], i - 1)
  }

  lemma {:induction false} FateIsDecidedBefore(w: World, n: nat, s: State, msgs: seq<Message>, i: nat)
    requires i < |msgs|
    ensures |Fates(w, n, s, msgs)| == |msgs|
    ensures Fates(w, n, s, msgs)[i] == Fate(msgs[i], Dispose(w, n, Before(w, n, s, msgs, i), msgs[i]).1)
    decreases i
  {
    OneFateEach(w, n, s, msgs);
    if i == 0 {
    } else {
      FateIsDecidedBefore(w, n, Handle(w, n, s, msgs[0]), msgs[1..], i - 1);
    }
  }

  /** The offset that the broker holds for a partition: that of the last commit it recorded.
      A consumer that takes the partition over starts after it. */
  function CommittedOffset(journal: seq<Entry>, partition: int): Option<int> {
    if journal == [] then None else
      var later := CommittedOffset(journal[1..], partition);
      if later.Some? then later
      else if journal[0].CommitTried? && journal[0].ok && journal[0].partition == partition then Some(journal[0].offset)
      else None
  }

  /** The messages of each partition come in the order of their offsets. */
  ghost predicate InOffsetOrder(msgs: seq<Message>) {
    forall i, j | 0 <= i < j < |msgs| && msgs[i].partition == msgs[j].partition :: msgs[i].offset < msgs[j].offset
  }

  /** The commit tried after the k-th message is recorded, and is one for this partition. */
  ghost predicate Recorded(w: World, commits: nat, msgs: seq<Message>, partition: int, k: nat) {
    k < |msgs| && msgs[k].partition == partition && w.commitAccepts(commits + k)
  }

  ghost predicate LastRecorded(w: World, commits: nat, msgs: seq<Message>, partition: int, k: nat) {
    Recorded(w, commits, msgs, partition, k) && forall j: nat | j > k :: !Recorded(w, commits, msgs, partition, j)
  }

  lemma CommittedOffsetSteps(w: World, commits: nat, fate: Fate, rest: seq<Entry>, partition: int)
    ensures CommittedOffset(EntriesOf(w, commits, fate) + rest, partition) ==
              var later := CommittedOffset(rest, partition);
              if later.Some? then later
              else if w.commitAccepts(commits) && fate.msg.partition == partition then Some(fate.msg.offset) else None
  {
    var entries := EntriesOf(w, commits, fate);
    assert (entries + rest)[1..] == [entries[1]] + rest;
    assert ([entries[1]] + rest)[1..] == rest;
  }

  lemma RecordedLater(w: World, commits: nat, msgs: seq<Message>, partition: int)
    requires msgs != []
    ensures forall k: nat | k > 0 ::
              Recorded(w, commits, msgs, partition, k) <==> Recorded(w, commits + 1, msgs[1..], partition, k - 1)
  {
  }

  /** The committed offset is that of the last message whose commit was recorded. */
  lemma {:induction false} CommittedIsLastRecorded(w: World, commits: nat, fates: seq<Fate>, msgs: seq<Message>, partition: int)
    returns (k: nat)
    requires |fates| == |msgs| && forall i | 0 <= i < |msgs| :: fates[i].msg == msgs[i]
    ensures match CommittedOffset(JournalOf(w, commits, fates), partition)
            case None => forall j: nat :: !Recorded(w, commits, msgs, partition, j)
            case Some(offset) => LastRecorded(w, commits, msgs, partition, k) && offset == msgs[k].offset
    decreases |fates|
  {
    k := 0;
    if msgs == [] {
    } else {
      var later := CommittedIsLastRecorded(w, commits + 1, fates[1..], msgs[1..], partition);
      CommittedOffsetSteps(w, commits, fates[0], JournalOf(w, commits + 1, fates[1..]), partition);
      RecordedLater(w, commits, msgs, partition);
      if CommittedOffset(JournalOf(w, commits + 1, fates[1..]), partition).Some? {
        k := later + 1;
      }
    }
  }

  /** A message is lost when it has ended nowhere and the broker's offset is past it, so that
      no consumer will ever be given it again. */
  ghost predicate Lost(w: World, n: nat, s: State, fetches: seq<Fetch>, i: nat)
    requires i < |Messages(fetches)|
  {
    var msg := Messages(fetches)[i];
    var committed := CommittedOffset(Run(w, n, s, fetches).journal, msg.partition);
    && |Fates(w, n, s, Messages(fetches))| > i
    && PlaceOf(Fates(w, n, s, Messages(fetches))[i].disposition) == Nowhere
    && committed.Some? && msg.offset <= committed.value
  }

  lemma PassedIff(w: World, n: nat, s: State, fetches: seq<Fetch>, i: nat)
    requires s.journal == [] && i < |Messages(fetches)|
    ensures var msgs := Messages(fetches);
            var committed := CommittedOffset(Run(w, n, s, fetches).journal, msgs[i].partition);
            committed.Some? && msgs[i].offset <= committed.value <==>
              exists k: nat | LastRecorded(w, s.commits, msgs, msgs[i].partition, k) :: msgs[i].offset <= msgs[k].offset
  {
    var msgs := Messages(fetches);
    var fates := Fates(w, n, s, msgs);
    RunHandlesMessages(w, n, s, fetches);
    OneFateEach(w, n, s, msgs);
    JournalTellsFates(w, n, s, msgs);
    assert Run(w, n, s, fetches).journal == JournalOf(w, s.commits, fates);
    var k := CommittedIsLastRecorded(w, s.commits, fates, msgs, msgs[i].partition);
    forall k': nat | LastRecorded(w, s.commits, msgs, msgs[i].partition, k')
      ensures k' == k
    {
      ghost var other := Recorded(w, s.commits, msgs, msgs[i].partition, k);
    }
  }

  /** Whatever order messages come in: a message is lost exactly when it fails and the last
      commit that the broker records for its partition is at its offset or beyond. */
  lemma MessageLostIff(w: World, n: nat, s: State, fetches: seq<Fetch>, i: nat)
    requires s.journal == [] && i < |Messages(fetches)|
    ensures var msgs := Messages(fetches);
            Lost(w, n, s, fetches, i) <==>
              && Fails(w, n, Before(w, n, s, msgs, i), msgs[i])
              && exists k: nat | LastRecorded(w, s.commits, msgs, msgs[i].partition, k) :: msgs[i].offset <= msgs[k].offset
  {
    var msgs := Messages(fetches);
    FateIsDecidedBefore(w, n, s, msgs, i);
    MessageGoesNowhereIff(w, n, Before(w, n, s, msgs, i), msgs[i]);
    PassedIff(w, n, s, fetches, i);
  }

  lemma {:induction false} SomeRecordedIsLast(w: World, commits: nat, msgs: seq<Message>, partition: int, j: nat) returns (k: nat)
    requires Recorded(w, commits, msgs, partition, j)
    ensures k >= j && LastRecorded(w, commits, msgs, partition, k)
    decreases |msgs| - j
  {
    if j' : nat :| j' > j && Recorded(w, commits, msgs, partition, j') {
      k := SomeRecordedIsLast(w, commits, msgs, partition, j');
    } else {
      k := j;
    }
  }

  /** In offset order the last recorded commit is at a message or past it exactly when the
      commit of that message or of a later one is recorded. */
  lemma LastIsPastIffSomeIs(w: World, commits: nat, msgs: seq<Message>, i: nat)
    requires InOffsetOrder(msgs) && i < |msgs|
    ensures (exists k: nat | LastRecorded(w, commits, msgs, msgs[i].partition, k) :: msgs[i].offset <= msgs[k].offset)
            <==> exists j: nat | j >= i :: Recorded(w, commits, msgs, msgs[i].partition, j)
  {
    var p := msgs[i].partition;
    if j: nat :| j >= i && Recorded(w, commits, msgs, p, j) {
      var k := SomeRecordedIsLast(w, commits, msgs, p, j);
      assert msgs[i].offset <= msgs[k].offset;
    }
    if k: nat :| LastRecorded(w, commits, msgs, p, k) && msgs[i].offset <= msgs[k].offset {
      assert k >= i;
    }
  }

  /** The documentation says that events are never lost. In any run, of any fetch results, a
      message is lost exactly when it fails, by a wait cut short or a dead-letter write it
      needs, and the broker records its commit or a later one of its partition. */
  lemma EventLostIff(w: World, n: nat, s: State, fetches: seq<Fetch>, i: nat)
    requires s.journal == [] && InOffsetOrder(Messages(fetches)) && i < |Messages(fetches)|
    ensures var msgs := Messages(fetches);
            Lost(w, n, s, fetches, i) <==>
              && Fails(w, n, Before(w, n, s, msgs, i), msgs[i])
              && exists j: nat | j >= i :: Recorded(w, s.commits, msgs, msgs[i].partition, j)
  {
    var msgs := Messages(fetches);
    MessageLostIff(w, n, s, fetches, i);
    LastIsPastIffSomeIs(w, s.commits, msgs, i);
  }

  ghost predicate LosesNothing(w: World, n: nat, s: State, fetches: seq<Fetch>) {
    forall i: nat | i < |Messages(fetches)| :: !Lost(w, n, s, fetches, i)
  }

  /** A run loses nothing exactly when no commit is recorded for a message that fails, nor for
      a later one of its partition. */
  lemma RunLosesNothingIff(w: World, n: nat, s: State, fetches: seq<Fetch>)
    requires s.journal == [] && InOffsetOrder(Messages(fetches))
    ensures var msgs := Messages(fetches);
            LosesNothing(w, n, s, fetches) <==>
              forall i: nat, j: nat | i <= j < |msgs| && Fails(w, n, Before(w, n, s, msgs, i), msgs[i]) ::
                !Recorded(w, s.commits, msgs, msgs[i].partition, j)
  {
    forall i: nat | i < |Messages(fetches)|
      ensures Lost(w, n, s, fetches, i) <==>
                && Fails(w, n, Before(w, n, s, Messages(fetches), i), Messages(fetches)[i])
                && exists j: nat | j >= i :: Recorded(w, s.commits, Messages(fetches), Messages(fetches)[i].partition, j)
    {
      EventLostIff(w, n, s, fetches, i);
    }
  }

  /** A transient failure whose wait is cut short, and a commit that the broker still records:
      the event is neither handled nor dead-lettered, and the offset is past it. */
  lemma CancellationLosesAnEvent(w: World, n: nat, s: State, msg: Message, why: string)
    requires 0 < n && msg.body.Decoded? && s.journal == []
    requires w.handler(s.calls, msg.body.event) == Transient(why) && w.cancelled(s.waits)
    requires w.commitAccepts(s.commits)
    ensures var fetches := [Fetched(msg), Shutdown];
            var after := Run(w, n, s, fetches);
            && after.handled == s.handled && after.dlq == s.dlq
            && after.journal == [Disposed(msg, Abandoned(why)), CommitTried(msg.partition, msg.offset, true)]
            && CommittedOffset(after.journal, msg.partition) == Some(msg.offset)
            && |Messages(fetches)| == 1 && Lost(w, n, s, fetches, 0)
  {
    assert Retry(w, n, s, msg.body.event, 0) == (Waited(Called(s), 0), Abandoned(why));
    var fetches := [Fetched(msg), Shutdown];
    assert fetches[1..] == [Shutdown];
    assert Messages(fetches) == [msg];
    assert Run(w, n, s, fetches) == Handle(w, n, s, msg);
    CommittedOffsetSteps(w, s.commits, Fate(msg, Abandoned(why)), [], msg.partition);
    HandleJournals(w, n, s, msg);
    assert s.journal + EntriesOf(w, s.commits, Fate(msg, Abandoned(why))) == EntriesOf(w, s.commits, Fate(msg, Abandoned(why))) + [];
  }
}
