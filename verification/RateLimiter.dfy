/** The per-IP rate limiter of the HTTP middleware: a map from IP to a token bucket,
    with a background sweep that forgets clients that have been idle for too long.

    Time is in seconds since an arbitrary origin; getting an IP's bucket and taking
    a token from it is one atomic step.
 */
module RateLimiter {

  /** Refill rate per second, burst size and the idle time after which a client is forgotten. */
  datatype Config = Config(r: real, b: nat, ttl: real)
  {
    ghost predicate WellFormed() {
      0.0 <= r && 0.0 <= ttl
    }
  }

  /** The state of one token bucket: the tokens it held when a token was last taken. */
  datatype Bucket = Bucket(tokens: real, last: real)

  /** A new bucket is full. */
  function NewBucket(c: Config): Bucket {
    Bucket(c.b as real, 0.0)
  }

  /** The tokens available at time `now`: refilled at rate r, never above the burst size. */
  function Level(c: Config, k: Bucket, now: real): real {
    var elapsed := if now < k.last then 0.0 else now - k.last;
    var tokens := k.tokens + c.r * elapsed;
    if tokens > c.b as real then c.b as real else tokens
  }

  /** Take one token if a whole one is available; a refused request leaves the bucket as it was. */
  function Take(c: Config, k: Bucket, now: real): (Bucket, bool) {
    if Level(c, k, now) >= 1.0 then (Bucket(Level(c, k, now) - 1.0, now), true) else (k, false)
  }

  /** What the limiter remembers about one IP. */
  datatype Client = Client(bucket: Bucket, lastSeen: real)

  /** Find or create the bucket of `ip`, and mark the client as seen now. */
  function Touch(c: Config, clients: map<string, Client>, ip: string, now: real): map<string, Client> {
    clients[ip := Client(if ip in clients then clients[ip].bucket else NewBucket(c), now)]
  }

  /** Serve a request from `ip`: touch the client, then take a token from its bucket. */
  function Serve(c: Config, clients: map<string, Client>, ip: string, now: real): (map<string, Client>, bool) {
    var touched := Touch(c, clients, ip, now);
    var (after, ok) := Take(c, touched[ip].bucket, now);
    (touched[ip := Client(after, now)], ok)
  }

  /** Forget every client that has been idle for strictly longer than the TTL. */
  function Sweep(c: Config, clients: map<string, Client>, now: real): map<string, Client> {
    map ip | ip in clients && now - clients[ip].lastSeen <= c.ttl :: clients[ip]
  }

  /** The token bucket of golang.org/x/time/rate, as a shared mutable object. */
  class Limiter {
    const config: Config
    var tokens: real
    var last: real

    function Value(): Bucket
      reads this
    {
      Bucket(tokens, last)
    }

    constructor (config: Config)
      ensures this.config == config && Value() == NewBucket(config)
    {
      this.config := config;
      tokens, last := config.b as real, 0.0;
    }

    method Allow(now: real) returns (ok: bool)
      modifies this
      ensures (Value(), ok) == Take(config, old(Value()), now)
    {
      var elapsed := if now < last then 0.0 else now - last;
      var available := tokens + config.r * elapsed;
      if available > config.b as real {
        available := config.b as real;
      }
      ok := available >= 1.0;
      if ok {
        last, tokens := now, available - 1.0;
      }
    }
  }

  class ClientRecord {
    const limiter: Limiter
    var lastSeen: real

    constructor (limiter: Limiter, now: real)
      ensures this.limiter == limiter && lastSeen == now
    {
      this.limiter, lastSeen := limiter, now;
    }
  }

  class IPRateLimiter {
    const config: Config
    var ips: map<string, ClientRecord>

    /** No two IPs share a client record or a bucket. */
    ghost predicate Valid()
      reads this
    {
      && (forall ip | ip in ips :: ips[ip].limiter.config == config)
      && (forall ip, ip' | ip in ips && ip' in ips && ip != ip' ::
            ips[ip] != ips[ip'] && ips[ip].limiter != ips[ip'].limiter)
    }

    ghost function Records(): set<ClientRecord>
      reads this
    {
      set ip | ip in ips :: ips[ip]
    }

    ghost function Limiters(): set<Limiter>
      reads this
    {
      set ip | ip in ips :: ips[ip].limiter
    }

    /** What the limiter remembers, as a value. */
    ghost function Clients(): map<string, Client>
      reads this, Records(), Limiters()
    {
      map ip | ip in ips :: Client(ips[ip].limiter.Value(), ips[ip].lastSeen)
    }

    constructor (config: Config)
      ensures Valid() && this.config == config && Clients() == map[]
    {
      this.config, ips := config, map[];
    }

    method AddClient(ip: string, now: real)
      requires Valid() && ip !in ips
      modifies this`ips
      ensures Valid() && ip in ips && fresh(ips[ip]) && fresh(ips[ip].limiter)
      ensures ips == old(ips)[ip := ips[ip]]
      ensures Clients() == old(Clients())[ip := Client(NewBucket(config), now)]
    {
      var limiter := new Limiter(config);
      var client := new ClientRecord(limiter, now);
      ips := ips[ip := client];
    }

    method MarkSeen(ip: string, now: real)
      requires Valid() && ip in ips
      modifies ips[ip]
      ensures ips[ip].lastSeen == now
      ensures Clients() == old(Clients())[ip := Client(old(Clients())[ip].bucket, now)]
    {
      ips[ip].lastSeen := now;
    }

    /** The bucket of `ip`, created on first sight; marks the client as seen now. */
    method GetLimiter(ip: string, now: real) returns (limiter: Limiter)
      requires Valid()
      modifies this, Records()
      ensures Valid() && ip in ips && limiter == ips[ip].limiter && ips[ip].lastSeen == now
      ensures ips.Keys == old(ips.Keys) + {ip}
      ensures forall other | other in old(ips) :: ips[other] == old(ips[other])
      ensures ip !in old(ips) ==> fresh(ips[ip]) && fresh(limiter)
      ensures Clients() == Touch(config, old(Clients()), ip, now)
    {
      if ip !in ips {
        AddClient(ip, now);
      }
      MarkSeen(ip, now);
      limiter := ips[ip].limiter;
    }

    /** Take a token from the bucket of a known client; nothing else changes. */
    method AllowKnown(ip: string, limiter: Limiter, now: real) returns (ok: bool)
      requires Valid() && ip in ips && limiter == ips[ip].limiter
      modifies limiter
      ensures Clients() == old(Clients())[ip := Client(limiter.Value(), ips[ip].lastSeen)]
      ensures limiter.Value() == Take(config, old(Clients())[ip].bucket, now).0
      ensures ok == Take(config, old(Clients())[ip].bucket, now).1
    {
      ok := limiter.Allow(now);
    }

    /** The middleware's decision for one request: pass it on, or answer 429. */
    method Admit(ip: string, now: real) returns (ok: bool)
      requires Valid()
      modifies this, Records(), Limiters()
      ensures Valid()
      ensures Clients() == Serve(config, old(Clients()), ip, now).0
      ensures ok == Serve(config, old(Clients()), ip, now).1
    {
      var limiter := GetLimiter(ip, now);
      ok := AllowKnown(ip, limiter, now);
    }

    /** One round of the background sweep. */
    method Cleanup(now: real)
      requires Valid()
      modifies this
      ensures Valid()
      ensures Clients() == Sweep(config, old(Clients()), now)
    {
      var todo := ips.Keys;
      while todo != {}
        invariant todo <= ips.Keys
        invariant ips.Keys <= old(ips.Keys)
        invariant forall ip | ip in ips :: ips[ip] == old(ips[ip])
        invariant forall ip | ip in old(ips) && ip !in todo ::
                    ip in ips <==> now - old(ips[ip].lastSeen) <= config.ttl
        decreases todo
      {
        var ip :| ip in todo;
        if now - ips[ip].lastSeen > config.ttl {
          ips := ips - {ip};
        }
        todo := todo - {ip};
      }
    }

    /** The gauge exported to the metrics endpoint. */
    method GetIPCount() returns (count: nat)
      requires Valid()
      ensures count == |Clients().Keys|
    {
      count := |ips|;
      assert Clients().Keys == ips.Keys;
    }
  }
}
