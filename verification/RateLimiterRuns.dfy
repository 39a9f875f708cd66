/** Whole runs of the per-IP rate limiter: arbitrary interleavings of requests and
    clean-up sweeps, compared with a limiter that never forgets anyone.
 */
module RateLimiterRuns {
  import opened RateLimiter

  datatype Op = Request(ip: string, at: real) | Cleanup(at: real)

  /** A limiter that keeps every bucket for ever; sweeps mean nothing to it. */
  type Buckets = map<string, Bucket>

  function ServeForever(c: Config, buckets: Buckets, ip: string, now: real): (Buckets, bool) {
    var before := if ip in buckets then buckets[ip] else NewBucket(c);
    var (after, ok) := Take(c, before, now);
    (buckets[ip := after], ok)
  }

  /** One step of the limiter. */
  function Next(c: Config, clients: map<string, Client>, op: Op): map<string, Client> {
    match op
    case Request(ip, at) => Serve(c, clients, ip, at).0
    case Cleanup(at) => Sweep(c, clients, at)
  }

  function Admits(c: Config, clients: map<string, Client>, op: Op, ip: string): bool {
    op.Request? && op.ip == ip && Serve(c, clients, ip, op.at).1
  }

  /** The limiter's memory after a run. */
  function After(c: Config, clients: map<string, Client>, ops: seq<Op>): map<string, Client>
    decreases |ops|
  {
    if ops == [] then clients else After(c, Next(c, clients, ops[0]), ops[1..])
  }

  function AfterForever(c: Config, buckets: Buckets, ops: seq<Op>): Buckets
    decreases |ops|
  {
    if ops == [] then buckets else
      match ops[0]
      case Request(ip, at) => AfterForever(c, ServeForever(c, buckets, ip, at).0, ops[1..])
      case Cleanup(_) => AfterForever(c, buckets, ops[1..])
  }

  /** The answers to the requests of a run, in order. */
  function Decisions(c: Config, clients: map<string, Client>, ops: seq<Op>): seq<bool>
    decreases |ops|
  {
    if ops == [] then [] else
      match ops[0]
      case Request(ip, at) =>
        var (next, ok) := Serve(c, clients, ip, at);
        [ok] + Decisions(c, next, ops[1..])
      case Cleanup(at) => Decisions(c, Sweep(c, clients, at), ops[1..])
  }

  function DecisionsForever(c: Config, buckets: Buckets, ops: seq<Op>): seq<bool>
    decreases |ops|
  {
    if ops == [] then [] else
      match ops[0]
      case Request(ip, at) =>
        var (next, ok) := ServeForever(c, buckets, ip, at);
        [ok] + DecisionsForever(c, next, ops[1..])
      case Cleanup(_) => DecisionsForever(c, buckets, ops[1..])
  }

  /** The clock never goes back: times are non-decreasing and not before `since`. */
  ghost predicate InOrder(since: real, ops: seq<Op>)
    decreases |ops|
  {
    ops != [] ==> since <= ops[0].at && InOrder(ops[0].at, ops[1..])
  }

  // ----- The simulation: an evicted bucket would have refilled -----

  lemma Product(r: real, x: real, y: real)
    requires 0.0 <= r && 0.0 <= y
    ensures r * (x + y) == r * x + r * y && 0.0 <= r * y
  {
  }

  ghost predicate Sane(c: Config, k: Bucket, now: real) {
    && 0.0 <= k.tokens <= c.b as real
    && 0.0 <= k.last <= now
    && (c.b == 0 ==> k == NewBucket(c))
  }

  /** `clients` and `buckets` agree on every remembered client, and every forgotten
      client has a full bucket by `now`. */
  ghost predicate Simulates(c: Config, clients: map<string, Client>, buckets: Buckets, now: real) {
    && (forall ip | ip in buckets :: Sane(c, buckets[ip], now))
    && (forall ip | ip in clients ::
          && ip in buckets && clients[ip].bucket == buckets[ip]
          && buckets[ip].last <= clients[ip].lastSeen <= now)
    && (forall ip | ip in buckets && ip !in clients :: Level(c, buckets[ip], now) == c.b as real)
  }

  /** Waiting never lowers a bucket's level. */
  lemma LevelGrows(c: Config, k: Bucket, t: real, t': real)
    requires c.WellFormed() && Sane(c, k, t) && t <= t'
    ensures 0.0 <= Level(c, k, t) <= Level(c, k, t') <= c.b as real
    ensures Sane(c, k, t')
    ensures Level(c, k, t') <= Level(c, k, t) + c.r * (t' - t)
  {
    Product(c.r, 0.0, t - k.last);
    Product(c.r, t - k.last, t' - t);
    assert t' - k.last == (t - k.last) + (t' - t);
  }

  lemma TakeSane(c: Config, k: Bucket, now: real)
    requires c.WellFormed() && Sane(c, k, now)
    ensures Sane(c, Take(c, k, now).0, now)
    ensures Level(c, Take(c, k, now).0, now) == Level(c, k, now) - (if Take(c, k, now).1 then 1.0 else 0.0)
  {
    LevelGrows(c, k, now, now);
  }

  /** Idle for longer than the TTL, a bucket has refilled completely when r * TTL covers the burst. */
  lemma IdleMeansFull(c: Config, k: Bucket, lastSeen: real, now: real)
    requires c.WellFormed() && c.r * c.ttl >= c.b as real
    requires Sane(c, k, lastSeen) && now - lastSeen > c.ttl
    ensures Level(c, k, now) == c.b as real
  {
    Product(c.r, c.ttl, (now - k.last) - c.ttl);
    assert now - k.last == c.ttl + ((now - k.last) - c.ttl);
  }

  lemma SimulationWaits(c: Config, clients: map<string, Client>, buckets: Buckets, t: real, t': real)
    requires c.WellFormed() && Simulates(c, clients, buckets, t) && t <= t'
    ensures Simulates(c, clients, buckets, t')
  {
    forall ip | ip in buckets
      ensures Sane(c, buckets[ip], t')
      ensures ip !in clients ==> Level(c, buckets[ip], t') == c.b as real
    {
      LevelGrows(c, buckets[ip], t, t');
    }
  }

  lemma SimulationSweeps(c: Config, clients: map<string, Client>, buckets: Buckets, now: real)
    requires c.WellFormed() && c.r * c.ttl >= c.b as real
    requires Simulates(c, clients, buckets, now)
    ensures Simulates(c, Sweep(c, clients, now), buckets, now)
  {
    forall ip | ip in clients && now - clients[ip].lastSeen > c.ttl
      ensures Level(c, buckets[ip], now) == c.b as real
    {
      IdleMeansFull(c, buckets[ip], clients[ip].lastSeen, now);
    }
  }

  lemma SimulationServes(c: Config, clients: map<string, Client>, buckets: Buckets, ip: string, now: real)
    requires c.WellFormed() && 0.0 <= now
    requires Simulates(c, clients, buckets, now)
    ensures Serve(c, clients, ip, now).1 == ServeForever(c, buckets, ip, now).1
    ensures Simulates(c, Serve(c, clients, ip, now).0, ServeForever(c, buckets, ip, now).0, now)
  {
    var remembered := if ip in clients then clients[ip].bucket else NewBucket(c);
    var kept := if ip in buckets then buckets[ip] else NewBucket(c);
    assert Sane(c, NewBucket(c), now);
    TakeSane(c, kept, now);
    LevelGrows(c, NewBucket(c), now, now);
    assert Take(c, remembered, now) == Take(c, kept, now);
  }

  /** While r * TTL covers the burst, forgetting idle clients changes no answer. */
  lemma {:induction false} EvictionChangesNoAnswer(c: Config, clients: map<string, Client>, buckets: Buckets, now: real, ops: seq<Op>)
    requires c.WellFormed() && c.r * c.ttl >= c.b as real
    requires 0.0 <= now && Simulates(c, clients, buckets, now) && InOrder(now, ops)
    ensures Decisions(c, clients, ops) == DecisionsForever(c, buckets, ops)
    decreases |ops|
  {
    if ops == [] {
    } else {
      var at := ops[0].at;
      SimulationWaits(c, clients, buckets, now, at);
      match ops[0]
      case Request(ip, _) =>
        SimulationServes(c, clients, buckets, ip, at);
        EvictionChangesNoAnswer(c, Serve(c, clients, ip, at).0, ServeForever(c, buckets, ip, at).0, at, ops[1..]);
      case Cleanup(_) =>
        SimulationSweeps(c, clients, buckets, at);
        EvictionChangesNoAnswer(c, Sweep(c, clients, at), buckets, at, ops[1..]);
    }
  }

  // ----- The converse: with a smaller r * TTL a drained bucket is refilled early -----

  function Burst(ip: string, at: real, n: nat): seq<Op>
    ensures |Burst(ip, at, n)| == n
  {
    if n == 0 then [] else [Request(ip, at)] + Burst(ip, at, n - 1)
  }

  /** Spend a burst, let the sweep forget the client at `late`, and ask for another burst. */
  function DrainAndReturn(c: Config, ip: string, late: real): seq<Op> {
    Burst(ip, 0.0, c.b) + [Cleanup(late)] + Burst(ip, late, c.b)
  }

  lemma {:induction false} BurstInOrder(ip: string, since: real, at: real, n: nat, rest: seq<Op>)
    requires since <= at && InOrder(at, rest)
    ensures InOrder(since, Burst(ip, at, n) + rest)
    decreases n
  {
    if n == 0 {
      assert Burst(ip, at, n) + rest == rest;
    } else {
      BurstInOrder(ip, at, at, n - 1, rest);
      assert (Burst(ip, at, n) + rest)[1..] == Burst(ip, at, n - 1) + rest;
    }
  }

  lemma DrainAndReturnInOrder(c: Config, ip: string, late: real)
    requires 0.0 <= late
    ensures InOrder(0.0, DrainAndReturn(c, ip, late))
  {
    BurstInOrder(ip, late, late, c.b, []);
    assert Burst(ip, late, c.b) + [] == Burst(ip, late, c.b);
    var tail := [Cleanup(late)] + Burst(ip, late, c.b);
    assert tail[1..] == Burst(ip, late, c.b);
    BurstInOrder(ip, 0.0, 0.0, c.b, tail);
    assert DrainAndReturn(c, ip, late) == Burst(ip, 0.0, c.b) + tail;
  }

  function Ones(n: nat): seq<bool> {
    seq(n, _ => true)
  }

  lemma FirstGranted(c: Config, clients: map<string, Client>, ip: string, at: real, n: nat, rest: seq<Op>)
    requires 0 < n && ip in clients && 1.0 <= Level(c, clients[ip].bucket, at)
    ensures var next := clients[ip := Client(Bucket(Level(c, clients[ip].bucket, at) - 1.0, at), at)];
            Decisions(c, clients, Burst(ip, at, n) + rest) == [true] + Decisions(c, next, Burst(ip, at, n - 1) + rest)
  {
    assert (Burst(ip, at, n) + rest)[1..] == Burst(ip, at, n - 1) + rest;
    var next := clients[ip := Client(Bucket(Level(c, clients[ip].bucket, at) - 1.0, at), at)];
    assert Serve(c, clients, ip, at).0 == next;
  }

  /** A bucket just emptied to `tokens` at this very time holds exactly those. */
  lemma JustTaken(c: Config, tokens: real, at: real)
    requires tokens <= c.b as real
    ensures Level(c, Bucket(tokens, at), at) == tokens
  {
  }

  /** A bucket holding at least n tokens grants n simultaneous requests and loses n tokens. */
  lemma {:induction false} BurstGranted(c: Config, clients: map<string, Client>, ip: string, at: real, n: nat, rest: seq<Op>, left: real)
    requires 0 < n && ip in clients && 0.0 <= left && Level(c, clients[ip].bucket, at) == left + n as real
    ensures Decisions(c, clients, Burst(ip, at, n) + rest)
            == Ones(n) + Decisions(c, clients[ip := Client(Bucket(left, at), at)], rest)
    decreases n
  {
    var k := Bucket(left + (n - 1) as real, at);
    var next := clients[ip := Client(k, at)];
    FirstGranted(c, clients, ip, at, n, rest);
    assert Ones(n) == [true] + Ones(n - 1);
    if n == 1 {
      assert Burst(ip, at, 0) + rest == rest;
    } else {
      JustTaken(c, k.tokens, at);
      BurstGranted(c, next, ip, at, n - 1, rest, left);
      assert next[ip := Client(Bucket(left, at), at)] == clients[ip := Client(Bucket(left, at), at)];
    }
  }

  lemma FirstGrantedForever(c: Config, buckets: Buckets, ip: string, at: real, n: nat, rest: seq<Op>)
    requires 0 < n && ip in buckets && 1.0 <= Level(c, buckets[ip], at)
    ensures var next := buckets[ip := Bucket(Level(c, buckets[ip], at) - 1.0, at)];
            DecisionsForever(c, buckets, Burst(ip, at, n) + rest) == [true] + DecisionsForever(c, next, Burst(ip, at, n - 1) + rest)
  {
    assert (Burst(ip, at, n) + rest)[1..] == Burst(ip, at, n - 1) + rest;
  }

  lemma {:induction false} BurstGrantedForever(c: Config, buckets: Buckets, ip: string, at: real, n: nat, rest: seq<Op>, left: real)
    requires 0 < n && ip in buckets && 0.0 <= left && Level(c, buckets[ip], at) == left + n as real
    ensures DecisionsForever(c, buckets, Burst(ip, at, n) + rest)
            == Ones(n) + DecisionsForever(c, buckets[ip := Bucket(left, at)], rest)
    decreases n
  {
    var k := Bucket(left + (n - 1) as real, at);
    var next := buckets[ip := k];
    FirstGrantedForever(c, buckets, ip, at, n, rest);
    assert Ones(n) == [true] + Ones(n - 1);
    if n == 1 {
      assert Burst(ip, at, 0) + rest == rest;
    } else {
      JustTaken(c, k.tokens, at);
      BurstGrantedForever(c, next, ip, at, n - 1, rest, left);
      assert next[ip := Bucket(left, at)] == buckets[ip := Bucket(left, at)];
    }
  }

  /** A bucket holding fewer than n tokens refuses some of n simultaneous requests. */
  lemma {:induction false} BurstRefused(c: Config, buckets: Buckets, ip: string, at: real, n: nat)
    requires ip in buckets && Level(c, buckets[ip], at) < n as real
    requires buckets[ip].last <= at && buckets[ip].tokens <= c.b as real && 0 < n
    ensures DecisionsForever(c, buckets, Burst(ip, at, n)) != Ones(n)
    decreases n
  {
    var (next, ok) := ServeForever(c, buckets, ip, at);
    assert Burst(ip, at, n)[1..] == Burst(ip, at, n - 1);
    assert DecisionsForever(c, buckets, Burst(ip, at, n))[0] == ok;
    if ok {
      BurstRefused(c, next, ip, at, n - 1);
      assert Ones(n)[1..] == Ones(n - 1);
      assert DecisionsForever(c, buckets, Burst(ip, at, n))[1..] == DecisionsForever(c, next, Burst(ip, at, n - 1));
    }
  }

  /** A moment after the TTL at which a drained bucket is still not full. */
  function LateMoment(c: Config): (late: real)
    requires c.WellFormed() && c.r * c.ttl < c.b as real
    ensures c.ttl < late && c.r * late < c.b as real
  {
    if c.r == 0.0 then c.ttl + 1.0 else
      var gap := (c.b as real - c.r * c.ttl) / (2.0 * c.r);
      assert c.r * gap == (c.b as real - c.r * c.ttl) / 2.0;
      assert c.r * (c.ttl + gap) == c.r * c.ttl + c.r * gap;
      c.ttl + gap
  }

  lemma NewBucketIsFull(c: Config, at: real)
    requires c.WellFormed() && 0.0 <= at
    ensures Level(c, NewBucket(c), at) == c.b as real
  {
    Product(c.r, 0.0, at);
  }

  /** The evicting limiter grants both bursts ... */
  lemma BothBurstsGranted(c: Config, ip: string, late: real)
    requires c.WellFormed() && 0 < c.b && c.ttl < late
    ensures Decisions(c, map[], DrainAndReturn(c, ip, late)) == Ones(c.b) + Ones(c.b)
  {
    var n, back := c.b, Burst(ip, late, c.b);
    var ops := Burst(ip, 0.0, n) + ([Cleanup(late)] + back);
    assert DrainAndReturn(c, ip, late) == ops;
    var drained := Client(Bucket(0.0, 0.0), 0.0);
    var known := Client(NewBucket(c), 0.0);
    StartsFull(c, ip, 0.0, ops);
    BurstGranted(c, map[ip := known], ip, 0.0, n, [Cleanup(late)] + back, 0.0);
    assert map[ip := known][ip := drained] == map[ip := drained];
    assert ([Cleanup(late)] + back)[1..] == back;
    assert Sweep(c, map[ip := drained], late) == map[];
    var again := Client(NewBucket(c), late);
    StartsFull(c, ip, late, back);
    NewBucketIsFull(c, late);
    BurstGranted(c, map[ip := again], ip, late, n, [], 0.0);
    assert back + [] == back;
  }

  /** ... the limiter that remembers refuses part of the second one. */
  lemma SecondBurstRefused(c: Config, ip: string, late: real)
    requires 0 < c.b && 0.0 <= late && c.r * late < c.b as real
    ensures DecisionsForever(c, map[], DrainAndReturn(c, ip, late)) != Ones(c.b) + Ones(c.b)
  {
    var n, back := c.b, Burst(ip, late, c.b);
    var ops := Burst(ip, 0.0, n) + ([Cleanup(late)] + back);
    assert DrainAndReturn(c, ip, late) == ops;
    var drained := Bucket(0.0, 0.0);
    StartsFullForever(c, ip, 0.0, ops);
    BurstGrantedForever(c, map[ip := NewBucket(c)], ip, 0.0, n, [Cleanup(late)] + back, 0.0);
    assert map[ip := NewBucket(c)][ip := drained] == map[ip := drained];
    assert ([Cleanup(late)] + back)[1..] == back;
    BurstRefused(c, map[ip := drained], ip, late, n);
    assert DecisionsForever(c, map[], ops)[n..] == DecisionsForever(c, map[ip := drained], back);
    assert (Ones(n) + Ones(n))[n..] == Ones(n);
  }

  lemma EvictionRefillsEarly(c: Config, ip: string)
    requires c.WellFormed() && c.r * c.ttl < c.b as real
    ensures var ops := DrainAndReturn(c, ip, LateMoment(c));
            InOrder(0.0, ops) && Decisions(c, map[], ops) != DecisionsForever(c, map[], ops)
  {
    Product(c.r, 0.0, c.ttl);
    DrainAndReturnInOrder(c, ip, LateMoment(c));
    BothBurstsGranted(c, ip, LateMoment(c));
    SecondBurstRefused(c, ip, LateMoment(c));
  }

  /** For a first request it makes no difference whether the full bucket already exists. */
  lemma StartsFull(c: Config, ip: string, at: real, ops: seq<Op>)
    requires ops != [] && ops[0] == Request(ip, at)
    ensures Decisions(c, map[], ops) == Decisions(c, map[ip := Client(NewBucket(c), at)], ops)
  {
    assert Serve(c, map[], ip, at).0 == Serve(c, map[ip := Client(NewBucket(c), at)], ip, at).0;
  }

  lemma StartsFullForever(c: Config, ip: string, at: real, ops: seq<Op>)
    requires ops != [] && ops[0] == Request(ip, at)
    ensures DecisionsForever(c, map[], ops) == DecisionsForever(c, map[ip := NewBucket(c)], ops)
  {
    assert ServeForever(c, map[], ip, at).0 == ServeForever(c, map[ip := NewBucket(c)], ip, at).0;
  }

  ghost predicate EvictionIsInvisible(c: Config) {
    forall ops: seq<Op> | InOrder(0.0, ops) :: Decisions(c, map[], ops) == DecisionsForever(c, map[], ops)
  }

  /** Forgetting idle clients is invisible on every run exactly when a bucket refills
      completely within the TTL. */
  lemma EvictionInvisibleIffRefilled(c: Config)
    requires c.WellFormed()
    ensures EvictionIsInvisible(c) <==> c.r * c.ttl >= c.b as real
  {
    if c.r * c.ttl >= c.b as real {
      forall ops: seq<Op> | InOrder(0.0, ops)
        ensures Decisions(c, map[], ops) == DecisionsForever(c, map[], ops)
      {
        EvictionChangesNoAnswer(c, map[], map[], 0.0, ops);
      }
    } else {
      EvictionRefillsEarly(c, "ip");
    }
  }

  // ----- The rate bound over a time window -----

  /** How many of the requests of `ip` are admitted in a run. */
  function Admitted(c: Config, clients: map<string, Client>, ops: seq<Op>, ip: string): nat
    decreases |ops|
  {
    if ops == [] then 0 else
      (if Admits(c, clients, ops[0], ip) then 1 else 0) + Admitted(c, Next(c, clients, ops[0]), ops[1..], ip)
  }

  ghost predicate Orderly(c: Config, clients: map<string, Client>, now: real) {
    forall ip | ip in clients ::
      Sane(c, clients[ip].bucket, clients[ip].lastSeen) && clients[ip].lastSeen <= now
  }

  /** What `ip` could spend now: the level of its bucket, or a full one if it is not remembered. */
  function Budget(c: Config, clients: map<string, Client>, ip: string, now: real): real {
    if ip in clients then Level(c, clients[ip].bucket, now) else c.b as real
  }

  lemma BudgetGrows(c: Config, clients: map<string, Client>, ip: string, t: real, t': real)
    requires c.WellFormed() && Orderly(c, clients, t) && t <= t'
    ensures Orderly(c, clients, t')
    ensures 0.0 <= Budget(c, clients, ip, t') <= c.b as real
    ensures Budget(c, clients, ip, t') <= Budget(c, clients, ip, t) + c.r * (t' - t)
  {
    Product(c.r, 0.0, t' - t);
    if ip in clients {
      LevelGrows(c, clients[ip].bucket, clients[ip].lastSeen, t);
      LevelGrows(c, clients[ip].bucket, t, t');
    }
  }

  lemma ServeSpendsBudget(c: Config, clients: map<string, Client>, from: string, ip: string, now: real)
    requires c.WellFormed() && 0.0 <= now && Orderly(c, clients, now)
    ensures var (next, ok) := Serve(c, clients, from, now);
            && Orderly(c, next, now)
            && Budget(c, next, ip, now) == Budget(c, clients, ip, now) - (if ok && from == ip then 1.0 else 0.0)
  {
    var k := if from in clients then clients[from].bucket else NewBucket(c);
    assert Sane(c, k, now) by {
      if from in clients { LevelGrows(c, k, clients[from].lastSeen, now); }
    }
    TakeSane(c, k, now);
    LevelGrows(c, NewBucket(c), 0.0, now);
  }

  lemma SweepKeepsBudget(c: Config, clients: map<string, Client>, ip: string, now: real)
    requires c.WellFormed() && c.r * c.ttl >= c.b as real && Orderly(c, clients, now)
    ensures Orderly(c, Sweep(c, clients, now), now)
    ensures Budget(c, Sweep(c, clients, now), ip, now) == Budget(c, clients, ip, now)
  {
    if ip in clients && now - clients[ip].lastSeen > c.ttl {
      IdleMeansFull(c, clients[ip].bucket, clients[ip].lastSeen, now);
    }
  }

  /** The tokens that flow into a bucket from `start` to the end of a run, step by step. */
  function Refill(c: Config, start: real, ops: seq<Op>): real
    decreases |ops|
  {
    if ops == [] then 0.0 else c.r * (ops[0].at - start) + Refill(c, ops[0].at, ops[1..])
  }

  lemma {:induction false} RefillIsRateTimesLength(c: Config, start: real, ops: seq<Op>)
    requires c.WellFormed() && InOrder(start, ops) && ops != []
    ensures Refill(c, start, ops) == c.r * (ops[|ops| - 1].at - start)
    decreases |ops|
  {
    if |ops| <= 1 {
    } else {
      RefillIsRateTimesLength(c, ops[0].at, ops[1..]);
    }
  }

  lemma StepIsPaidFor(c: Config, clients: map<string, Client>, op: Op, ip: string, start: real)
    requires c.WellFormed() && c.r * c.ttl >= c.b as real && 0.0 <= start <= op.at
    requires Orderly(c, clients, start)
    ensures Orderly(c, Next(c, clients, op), op.at)
    ensures (if Admits(c, clients, op, ip) then 1.0 else 0.0) + Budget(c, Next(c, clients, op), ip, op.at)
            <= Budget(c, clients, ip, start) + c.r * (op.at - start)
  {
    BudgetGrows(c, clients, ip, start, op.at);
    match op
    case Request(from, at) => ServeSpendsBudget(c, clients, from, ip, at);
    case Cleanup(at) => SweepKeepsBudget(c, clients, ip, at);
  }

  /** Admissions are paid for out of the budget and what refills meanwhile. */
  lemma {:induction false} AdmissionsArePaidFor(c: Config, clients: map<string, Client>, ops: seq<Op>, ip: string, start: real)
    requires c.WellFormed() && c.r * c.ttl >= c.b as real && 0.0 <= start
    requires Orderly(c, clients, start) && InOrder(start, ops)
    ensures Admitted(c, clients, ops, ip) as real <= Budget(c, clients, ip, start) + Refill(c, start, ops)
    decreases |ops|
  {
    if ops == [] {
      BudgetGrows(c, clients, ip, start, start);
    } else {
      var op, rest := ops[0], ops[1..];
      var next := Next(c, clients, op);
      var gained := c.r * (op.at - start);
      var spent := if Admits(c, clients, op, ip) then 1 else 0;
      assert Refill(c, start, ops) == gained + Refill(c, op.at, rest);
      assert Admitted(c, clients, ops, ip) == spent + Admitted(c, next, rest, ip);
      StepIsPaidFor(c, clients, op, ip, start);
      AdmissionsArePaidFor(c, next, rest, ip, op.at);
    }
  }

  lemma AdmissionsAreBounded(c: Config, clients: map<string, Client>, ops: seq<Op>, ip: string, now: real)
    requires c.WellFormed() && c.r * c.ttl >= c.b as real && 0.0 <= now
    requires Orderly(c, clients, now) && InOrder(now, ops) && ops != []
    ensures Admitted(c, clients, ops, ip) as real <= c.b as real + Refill(c, ops[0].at, ops)
  {
    BudgetGrows(c, clients, ip, now, ops[0].at);
    AdmissionsArePaidFor(c, clients, ops, ip, ops[0].at);
  }

  lemma WindowBoundFrom(c: Config, clients: map<string, Client>, ops: seq<Op>, ip: string, now: real, gained: real)
    requires c.WellFormed() && c.r * c.ttl >= c.b as real && 0.0 <= now
    requires Orderly(c, clients, now) && InOrder(now, ops) && ops != []
    requires gained == Refill(c, ops[0].at, ops)
    ensures Admitted(c, clients, ops, ip) as real <= c.b as real + gained
  {
    AdmissionsAreBounded(c, clients, ops, ip, now);
  }

  /** The limiter's memory stays orderly over any run. */
  lemma {:induction false} RunStaysOrderly(c: Config, clients: map<string, Client>, ops: seq<Op>, more: seq<Op>, start: real) returns (end: real)
    requires c.WellFormed() && 0.0 <= start && Orderly(c, clients, start) && InOrder(start, ops + more)
    ensures start <= end && Orderly(c, After(c, clients, ops), end) && InOrder(end, more)
    decreases |ops|
  {
    if ops == [] {
      assert ops + more == more;
      end := start;
    } else {
      var at := ops[0].at;
      assert (ops + more)[1..] == ops[1..] + more;
      BudgetGrows(c, clients, "", start, at);
      if ops[0].Request? {
        ServeSpendsBudget(c, clients, ops[0].ip, ops[0].ip, at);
      }
      end := RunStaysOrderly(c, Next(c, clients, ops[0]), ops[1..], more, at);
    }
  }

  lemma {:induction false} WindowInOrder(before: seq<Op>, window: seq<Op>, start: real)
    requires InOrder(start, before + window) && window != []
    ensures InOrder(window[0].at, window)
    decreases |before|
  {
    if before == [] {
      assert before + window == window;
    } else {
      assert (before + window)[1..] == before[1..] + window;
      WindowInOrder(before[1..], window, before[0].at);
    }
  }

  lemma RefillOverWindow(c: Config, before: seq<Op>, window: seq<Op>)
    requires c.WellFormed() && InOrder(0.0, before + window) && window != []
    ensures Refill(c, window[0].at, window) == c.r * (window[|window| - 1].at - window[0].at)
  {
    WindowInOrder(before, window, 0.0);
    RefillIsRateTimesLength(c, window[0].at, window);
  }

  /** In any stretch of any run, from its first step to its last, one IP is admitted at
      most b + r * T times for a stretch of length T, even if it is forgotten and comes
      back inside. */
  lemma WindowBound(c: Config, before: seq<Op>, window: seq<Op>, ip: string)
    requires c.WellFormed() && c.r * c.ttl >= c.b as real
    requires InOrder(0.0, before + window) && window != []
    ensures Admitted(c, After(c, map[], before), window, ip) as real
            <= c.b as real + c.r * (window[|window| - 1].at - window[0].at)
  {
    var now := RunStaysOrderly(c, map[], before, window, 0.0);
    RefillOverWindow(c, before, window);
    WindowBoundFrom(c, After(c, map[], before), window, ip, now, c.r * (window[|window| - 1].at - window[0].at));
  }

  // ----- The bound fails when a forgotten bucket comes back too full -----

  function Granted(decisions: seq<bool>): nat {
    if decisions == [] then 0 else (if decisions[0] then 1 else 0) + Granted(decisions[1..])
  }

  lemma {:induction false} OnesGranted(n: nat)
    ensures Granted(Ones(n)) == n
    decreases n
  {
    if n == 0 {
    } else {
      assert Ones(n)[1..] == Ones(n - 1);
      OnesGranted(n - 1);
    }
  }

  ghost predicate OnlyFrom(ip: string, ops: seq<Op>) {
    forall i | 0 <= i < |ops| && ops[i].Request? :: ops[i].ip == ip
  }

  /** If one IP makes all the requests, it gets all the grants. */
  lemma {:induction false} GrantsAreAdmissions(c: Config, clients: map<string, Client>, ops: seq<Op>, ip: string)
    requires OnlyFrom(ip, ops)
    ensures Admitted(c, clients, ops, ip) == Granted(Decisions(c, clients, ops))
    decreases |ops|
  {
    if ops == [] {
    } else {
      GrantsAreAdmissions(c, Next(c, clients, ops[0]), ops[1..], ip);
      if ops[0].Request? {
        assert Decisions(c, clients, ops)[1..] == Decisions(c, Next(c, clients, ops[0]), ops[1..]);
      }
    }
  }

  lemma {:induction false} BurstIsFrom(ip: string, at: real, n: nat)
    ensures forall i | 0 <= i < n :: Burst(ip, at, n)[i] == Request(ip, at)
    decreases n
  {
    if n == 0 {
    } else {
      BurstIsFrom(ip, at, n - 1);
    }
  }

  /** A drained client that is forgotten too early is admitted 2 * b times. */
  lemma DrainAndReturnAdmitted(c: Config, ip: string, late: real)
    requires c.WellFormed() && 0 < c.b && c.ttl < late
    ensures Admitted(c, map[], DrainAndReturn(c, ip, late), ip) == 2 * c.b
  {
    BurstIsFrom(ip, 0.0, c.b);
    BurstIsFrom(ip, late, c.b);
    GrantsAreAdmissions(c, map[], DrainAndReturn(c, ip, late), ip);
    BothBurstsGranted(c, ip, late);
    assert Ones(c.b) + Ones(c.b) == Ones(2 * c.b);
    OnesGranted(2 * c.b);
  }

  /** At most b + r * T admissions in a stretch of length T. */
  predicate WithinBound(c: Config, admitted: nat, span: real) {
    admitted as real <= c.b as real + c.r * span
  }

  ghost predicate WindowIsBounded(c: Config, before: seq<Op>, window: seq<Op>, ip: string)
    requires window != []
  {
    WithinBound(c, Admitted(c, After(c, map[], before), window, ip), window[|window| - 1].at - window[0].at)
  }

  ghost predicate EveryWindowIsBounded(c: Config) {
    forall before: seq<Op>, window: seq<Op>, ip: string | InOrder(0.0, before + window) && window != [] ::
      WindowIsBounded(c, before, window, ip)
  }

  lemma DrainAndReturnSpan(c: Config, ip: string, late: real)
    requires 0 < c.b
    ensures var ops := DrainAndReturn(c, ip, late);
            |ops| == 2 * c.b + 1 && ops[0].at == 0.0 && ops[|ops| - 1].at == late
  {
    BurstIsFrom(ip, 0.0, c.b);
    BurstIsFrom(ip, late, c.b);
    var ops := DrainAndReturn(c, ip, late);
    assert ops[0] == Burst(ip, 0.0, c.b)[0];
    assert ops[|ops| - 1] == Burst(ip, late, c.b)[c.b - 1];
  }

  lemma TwoBurstsExceedBound(c: Config, span: real)
    requires c.r * span < c.b as real
    ensures !WithinBound(c, 2 * c.b, span)
  {
  }

  lemma DrainAndReturnExceedsBound(c: Config, ip: string, before: seq<Op>, ops: seq<Op>, late: real)
    requires c.WellFormed() && 0 < c.b && c.r * late < c.b as real && c.ttl < late
    requires before == [] && ops == DrainAndReturn(c, ip, late)
    ensures ops != [] && InOrder(0.0, before + ops) && !WindowIsBounded(c, before, ops, ip)
  {
    DrainAndReturnInOrder(c, ip, late);
    assert before + ops == ops;
    DrainAndReturnSpan(c, ip, late);
    DrainAndReturnAdmitted(c, ip, late);
    TwoBurstsExceedBound(c, late);
  }

  /** Every stretch of every run is bounded by b + r * T exactly when a bucket refills
      completely within the TTL. */
  lemma WindowsBoundedIffRefilled(c: Config)
    requires c.WellFormed()
    ensures EveryWindowIsBounded(c) <==> c.r * c.ttl >= c.b as real
  {
    if c.r * c.ttl >= c.b as real {
      forall before: seq<Op>, window: seq<Op>, ip: string | InOrder(0.0, before + window) && window != []
        ensures WindowIsBounded(c, before, window, ip)
      {
        WindowBound(c, before, window, ip);
      }
    } else {
      Product(c.r, 0.0, c.ttl);
      var late, before := LateMoment(c), [];
      DrainAndReturnExceedsBound(c, "ip", before, DrainAndReturn(c, "ip", late), late);
    }
  }

  // ----- Recently seen clients are remembered -----

  lemma {:induction false} StillRemembered(c: Config, clients: map<string, Client>, later: seq<Op>, ip: string, seen: real)
    requires ip in clients && seen <= clients[ip].lastSeen && InOrder(seen, later)
    requires forall i | 0 <= i < |later| :: later[i].at <= seen + c.ttl
    ensures ip in After(c, clients, later)
    decreases |later|
  {
    if later == [] {
    } else {
      assert later[0].at <= seen + c.ttl;
      assert InOrder(seen, later[1..]);
      StillRemembered(c, Next(c, clients, later[0]), later[1..], ip, seen);
    }
  }

  /** An IP that made a request within the last TTL is never missing from the map. */
  lemma RecentClientsRemembered(c: Config, before: seq<Op>, ip: string, at: real, later: seq<Op>)
    requires c.WellFormed() && InOrder(at, later)
    requires forall i | 0 <= i < |later| :: later[i].at <= at + c.ttl
    ensures ip in After(c, map[], before + [Request(ip, at)] + later)
  {
    AfterAppends(c, map[], before, [Request(ip, at)] + later);
    assert before + [Request(ip, at)] + later == before + ([Request(ip, at)] + later);
    assert ([Request(ip, at)] + later)[1..] == later;
    StillRemembered(c, Serve(c, After(c, map[], before), ip, at).0, later, ip, at);
  }

  // ----- Idle clients are forgotten -----

  /** The IP made a request at this time in the run. */
  ghost predicate Requested(ops: seq<Op>, ip: string, at: real) {
    Request(ip, at) in ops
  }

  /** Each remembered client was last seen at one of its requests. */
  lemma {:induction false} LastSeenIsRequest(c: Config, ops: seq<Op>, ip: string)
    requires ip in After(c, map[], ops)
    ensures Requested(ops, ip, After(c, map[], ops)[ip].lastSeen)
    decreases |ops|
  {
    if ops == [] {
    } else {
      var last := |ops| - 1;
      assert ops == ops[..last] + [ops[last]];
      AfterAppends(c, map[], ops[..last], [ops[last]]);
      assert [ops[last]][1..] == [];
      if ops[last] != Request(ip, After(c, map[], ops)[ip].lastSeen) {
        LastSeenIsRequest(c, ops[..last], ip);
      }
    }
  }

  lemma {:induction false} InOrderUpTo(since: real, ops: seq<Op>, i: nat)
    requires InOrder(since, ops) && i < |ops|
    ensures since <= ops[i].at && InOrder(ops[i].at, ops[i + 1..])
    ensures forall j | i < j < |ops| :: ops[i].at <= ops[j].at
    decreases |ops|
  {
    if i == 0 {
      forall j | 0 < j < |ops|
        ensures ops[0].at <= ops[j].at
      {
        InOrderFrom(ops[0].at, ops[1..], j - 1);
      }
    } else {
      InOrderUpTo(ops[0].at, ops[1..], i - 1);
      assert ops[1..][i..] == ops[i + 1..];
      forall j | i < j < |ops|
        ensures ops[i].at <= ops[j].at
      {
        assert ops[1..][i - 1].at <= ops[1..][j - 1].at;
      }
    }
  }

  lemma {:induction false} InOrderFrom(since: real, ops: seq<Op>, j: nat)
    requires InOrder(since, ops) && j < |ops|
    ensures since <= ops[j].at
    decreases |ops|
  {
    if j == 0 {
    } else {
      InOrderFrom(ops[0].at, ops[1..], j - 1);
    }
  }

  /** After a sweep the map holds exactly the clients that made a request within the last TTL. */
  lemma SweepKeepsExactlyRecent(c: Config, before: seq<Op>, now: real, ip: string)
    requires c.WellFormed() && InOrder(0.0, before + [Cleanup(now)])
    ensures ip in After(c, map[], before + [Cleanup(now)]) <==> exists at: real | Requested(before, ip, at) :: now - at <= c.ttl
  {
    AfterAppends(c, map[], before, [Cleanup(now)]);
    assert [Cleanup(now)][1..] == [];
    if ip in After(c, map[], before + [Cleanup(now)]) {
      LastSeenIsRequest(c, before, ip);
    }
    if at: real :| Requested(before, ip, at) && now - at <= c.ttl {
      var i :| 0 <= i < |before| && before[i] == Request(ip, at);
      RequestIsRemembered(c, before, now, ip, i);
    }
  }

  /** In a run up to `now`, no step after the i-th comes later than `now`. */
  lemma LaterIsNotAfter(before: seq<Op>, now: real, i: nat)
    requires InOrder(0.0, before + [Cleanup(now)]) && i < |before|
    ensures var later := before[i + 1..] + [Cleanup(now)];
            InOrder(before[i].at, later) && forall j | 0 <= j < |later| :: later[j].at <= now
  {
    var ops, later := before + [Cleanup(now)], before[i + 1..] + [Cleanup(now)];
    InOrderUpTo(0.0, ops, i);
    assert ops[i + 1..] == later;
    forall j | 0 <= j < |later|
      ensures later[j].at <= now
    {
      InOrderUpTo(0.0, ops, i + 1 + j);
      assert later[j] == ops[i + 1 + j] && ops[|ops| - 1] == Cleanup(now);
    }
  }

  lemma RequestIsRemembered(c: Config, before: seq<Op>, now: real, ip: string, i: nat)
    requires c.WellFormed() && InOrder(0.0, before + [Cleanup(now)])
    requires i < |before| && before[i].Request? && before[i].ip == ip && now - before[i].at <= c.ttl
    ensures ip in After(c, map[], before + [Cleanup(now)])
  {
    var at, later := before[i].at, before[i + 1..] + [Cleanup(now)];
    LaterIsNotAfter(before, now, i);
    RecentClientsRemembered(c, before[..i], ip, at, later);
    assert before[i] == Request(ip, at);
    assert before + [Cleanup(now)] == before[..i] + [Request(ip, at)] + later;
  }

  lemma {:induction false} AfterAppends(c: Config, clients: map<string, Client>, ops: seq<Op>, more: seq<Op>)
    ensures After(c, clients, ops + more) == After(c, After(c, clients, ops), more)
    decreases |ops|
  {
    if ops == [] {
      assert ops + more == more;
    } else {
      assert (ops + more)[1..] == ops[1..] + more;
      AfterAppends(c, Next(c, clients, ops[0]), ops[1..], more);
    }
  }
}
