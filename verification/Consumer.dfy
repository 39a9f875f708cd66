/** The Kafka consumer: fetch a message, run the handler with retries and backoff, route
    failures to the dead-letter topic, commit the offset.

    The handler, the dead-letter writer, the committer, the context and the clock are
    outside the model: each is an oracle indexed by the number of the call, so that any
    behaviour, including a stateful one, is covered.
 */
module Consumer {
  import opened Events

  /** The source's retry budget; the model is stated for every budget. */
  const MAX_RETRIES: nat := 3

  datatype Outcome = Success | Permanent(reason: string) | Transient(reason: string)

  datatype World = World(
    handler: (nat, PaymentEvent) -> Outcome,
    cancelled: nat -> bool,      // does the n-th backoff wait end by cancellation?
    dlqAccepts: nat -> bool,     // does the n-th dead-letter write succeed?
    commitAccepts: nat -> bool,  // does the broker record the n-th commit?
    clock: nat -> int,
    hasDlq: bool,
    topic: string,
    group: string)

  /** The value of a message: an event, or bytes that do not decode. A failed decode may
      leave some fields of the event filled in. */
  datatype Body = Decoded(event: PaymentEvent) | Malformed(partial: PaymentEvent, why: string)

  /** A message of the topic, at its offset in one of the topic's partitions. */
  datatype Message = Message(partition: int, offset: int, body: Body)

  datatype Fetch = Fetched(msg: Message) | FetchFailed | Shutdown

  datatype DLQEnvelope = DLQEnvelope(
    originalEvent: PaymentEvent,
    originalTopic: string,
    consumerGroup: string,
    errorReason: string,
    retryCount: nat,
    failedAt: int)

  /** What became of a fetched message. */
  datatype Disposition =
    | Handled
    | DeadLettered(envelope: DLQEnvelope)
    | DlqFailed(reason: string)
    | Abandoned(reason: string)

  datatype Entry = Disposed(msg: Message, disposition: Disposition) | CommitTried(partition: int, offset: int, ok: bool)

  /** How many times each oracle was used, the metrics, the dead-letter topic, the events
      that were handled, and the journal of dispositions and commit attempts. */
  datatype State = State(
    calls: nat,
    waits: nat,
    writes: nat,
    commits: nat,
    retries: nat,
    backoff: nat,
    dlq: seq<DLQEnvelope>,
    handled: seq<PaymentEvent>,
    journal: seq<Entry>)

  const START: State := State(0, 0, 0, 0, 0, 0, [], [], [])

  // ----- What one call does -----

  function Route(w: World, s: State, event: PaymentEvent, retryCount: nat, reason: string): (State, Disposition) {
    if !w.hasDlq then (s, DlqFailed(reason))
    else
      var envelope := DLQEnvelope(event, w.topic, w.group, reason, retryCount, w.clock(s.writes));
      var tried := s.(writes := s.writes + 1);
      if w.dlqAccepts(s.writes)
      then (tried.(dlq := s.dlq + [envelope]), DeadLettered(envelope))
      else (tried, DlqFailed(reason))
  }

  /** The wait before the next attempt, in milliseconds. */
  function Backoff(attempt: nat): nat {
    500 * (attempt * attempt)
  }

  function Called(s: State): State {
    s.(calls := s.calls + 1)
  }

  function Waited(s: State, attempt: nat): State {
    s.(retries := s.retries + 1, backoff := s.backoff + Backoff(attempt), waits := s.waits + 1)
  }

  /** Process an event from the given attempt on, with a budget of n retries. */
  function Retry(w: World, n: nat, s: State, event: PaymentEvent, attempt: nat): (State, Disposition)
    requires attempt <= n
    decreases n - attempt
  {
    var called := Called(s);
    match w.handler(s.calls, event)
    case Success => (called.(handled := s.handled + [event]), Handled)
    case Permanent(reason) => Route(w, called, event, 0, reason)
    case Transient(reason) =>
      if attempt == n then Route(w, called, event, n, reason)
      else if w.cancelled(s.waits) then (Waited(called, attempt), Abandoned(reason))
      else Retry(w, n, Waited(called, attempt), event, attempt + 1)
  }

  function Commit(w: World, s: State, msg: Message): State {
    s.(commits := s.commits + 1, journal := s.journal + [CommitTried(msg.partition, msg.offset, w.commitAccepts(s.commits))])
  }

  /** Dispose of one message. */
  function Dispose(w: World, n: nat, s: State, msg: Message): (State, Disposition) {
    match msg.body
    case Malformed(partial, why) => Route(w, s, partial, 0, "unmarshal error: " + why)
    case Decoded(event) => Retry(w, n, s, event, 0)
  }

  /** Dispose of one message, note it, then try to commit its offset. */
  function Handle(w: World, n: nat, s: State, msg: Message): State {
    var (done, d) := Dispose(w, n, s, msg);
    Commit(w, done.(journal := done.journal + [Disposed(msg, d)]), msg)
  }

  /** A run of the fetch loop over the results of its fetches; a shutdown ends it. */
  function Run(w: World, n: nat, s: State, fetches: seq<Fetch>): State
    decreases |fetches|
  {
    if fetches == [] then s else
      match fetches[0]
      case Shutdown => s
      case FetchFailed => Run(w, n, s, fetches[1..])
      case Fetched(msg) => Run(w, n, Handle(w, n, s, msg), fetches[1..])
  }

  // ----- The consumer object -----

  class DLQPublisher {
    const world: World
    var writes: nat
    var topic: seq<DLQEnvelope>

    constructor (world: World)
      ensures this.world == world && writes == 0 && topic == []
    {
      this.world, writes, topic := world, 0, [];
    }

    method Send(event: PaymentEvent, retryCount: nat, reason: string) returns (ok: bool, envelope: DLQEnvelope)
      modifies this
      ensures envelope == DLQEnvelope(event, world.topic, world.group, reason, retryCount, world.clock(old(writes)))
      ensures ok == world.dlqAccepts(old(writes))
      ensures writes == old(writes) + 1
      ensures topic == if ok then old(topic) + [envelope] else old(topic)
    {
      envelope := DLQEnvelope(event, world.topic, world.group, reason, retryCount, world.clock(writes));
      ok := world.dlqAccepts(writes);
      writes := writes + 1;
      if ok {
        topic := topic + [envelope];
      }
    }
  }

  class KafkaConsumer {
    const world: World
    const maxRetries: nat
    const dlq: DLQPublisher?
    var calls: nat
    var waits: nat
    var commits: nat
    var retries: nat
    var backoff: nat
    var handled: seq<PaymentEvent>
    var journal: seq<Entry>

    ghost predicate Valid() {
      && (dlq != null <==> world.hasDlq)
      && (dlq != null ==> dlq.world == world)
    }

    /** Everything the consumer and its dead-letter publisher have done so far. */
    ghost function Snapshot(): State
      reads this, dlq
    {
      State(calls, waits, if dlq == null then 0 else dlq.writes, commits, retries, backoff,
            if dlq == null then [] else dlq.topic, handled, journal)
    }

    constructor (world: World, maxRetries: nat)
      ensures Valid() && this.world == world && this.maxRetries == maxRetries
      ensures Snapshot() == START
      ensures dlq != null ==> fresh(dlq)
    {
      this.world, this.maxRetries := world, maxRetries;
      calls, waits, commits, retries, backoff := 0, 0, 0, 0, 0;
      handled, journal := [], [];
      if world.hasDlq {
        var publisher := new DLQPublisher(world);
        dlq := publisher;
      } else {
        dlq := null;
      }
    }

    method RouteToDLQ(event: PaymentEvent, retryCount: nat, reason: string) returns (d: Disposition)
      requires Valid()
      modifies dlq
      ensures (Snapshot(), d) == Route(world, old(Snapshot()), event, retryCount, reason)
    {
      if dlq == null {
        return DlqFailed(reason);
      }
      var ok, envelope := dlq.Send(event, retryCount, reason);
      d := if ok then DeadLettered(envelope) else DlqFailed(reason);
    }

    /** Count a retry and wait; does the wait end by cancellation? */
    method Wait(attempt: nat) returns (cancelled: bool)
      modifies this`retries, this`backoff, this`waits
      ensures Snapshot() == Waited(old(Snapshot()), attempt)
      ensures cancelled == world.cancelled(old(waits))
    {
      retries := retries + 1;
      backoff := backoff + Backoff(attempt);
      waits := waits + 1;
      cancelled := world.cancelled(waits - 1);
    }

    method ProcessWithRetry(event: PaymentEvent) returns (d: Disposition)
      requires Valid()
      modifies this, dlq
      ensures (Snapshot(), d) == Retry(world, maxRetries, old(Snapshot()), event, 0)
    {
      ghost var goal := Retry(world, maxRetries, Snapshot(), event, 0);
      var attempt := 0;
      var lastErr := "";
      while attempt <= maxRetries
        invariant attempt <= maxRetries + 1
        invariant attempt <= maxRetries ==> goal == Retry(world, maxRetries, Snapshot(), event, attempt)
        invariant attempt > maxRetries ==> goal == Route(world, Snapshot(), event, maxRetries, lastErr)
      {
        var outcome := world.handler(calls, event);
        calls := calls + 1;
        if outcome.Success? {
          handled := handled + [event];
          return Handled;
        }
        if outcome.Permanent? {
          d := RouteToDLQ(event, 0, outcome.reason);
          return;
        }
        lastErr := outcome.reason;
        if attempt < maxRetries {
          var cancelled := Wait(attempt);
          if cancelled {
            return Abandoned(lastErr);
          }
        }
        attempt := attempt + 1;
      }
      d := RouteToDLQ(event, maxRetries, lastErr);
    }

    method CommitMessages(msg: Message)
      modifies this`commits, this`journal
      ensures Snapshot() == Commit(world, old(Snapshot()), msg)
    {
      journal := journal + [CommitTried(msg.partition, msg.offset, world.commitAccepts(commits))];
      commits := commits + 1;
    }

    /** The fetch loop, over the results the reader gives it. */
    method Consume(fetches: seq<Fetch>)
      requires Valid()
      modifies this, dlq
      ensures Snapshot() == Run(world, maxRetries, old(Snapshot()), fetches)
    {
      var i := 0;
      while i < |fetches|
        invariant i <= |fetches|
        invariant Run(world, maxRetries, old(Snapshot()), fetches) == Run(world, maxRetries, Snapshot(), fetches[i..])
      {
        var fetch := fetches[i];
        assert fetches[i..][0] == fetch && fetches[i..][1..] == fetches[i + 1..];
        i := i + 1;
        if fetch.Shutdown? {
          return;
        }
        if fetch.FetchFailed? {
          continue;
        }
        var msg := fetch.msg;
        var d: Disposition;
        if msg.body.Malformed? {
          d := RouteToDLQ(msg.body.partial, 0, "unmarshal error: " + msg.body.why);
        } else {
          d := ProcessWithRetry(msg.body.event);
        }
        journal := journal + [Disposed(msg, d)];
        CommitMessages(msg);
      }
    }
  }
}
