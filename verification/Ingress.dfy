/** Ingress admission (ingress.go): a global and a per-address token bucket with concurrency limits,
    and a bounded table of addresses whose idle entries may be recycled. Tokens are real numbers. */
module Ingress {
  import opened Base

  datatype Limits = Limits(globalRPM: int, ipRPM: int, concurrency: int, ipConcurrency: int, maxClients: int)
  {
    /** RuntimeConfig.Validate, and the constants the server fills in. */
    predicate Valid() {
      1 <= ipRPM <= globalRPM && 1 <= concurrency && 1 <= ipConcurrency && 1 <= maxClients
    }
  }

  datatype Bucket = Bucket(tokens: real, updated: int, active: int)

  const UNSEEN := Bucket(0.0, ZERO_TIME, 0)

  datatype Guard = Guard(global: Bucket, clients: map<string, Bucket>, nextCleanup: int)

  const IDLE_GUARD := Guard(UNSEEN, map[], ZERO_TIME)

  datatype Verdict = Admitted | TableFull | RateLimited | Saturated

  /** Tokens earned over a stretch of time: rpm per minute. */
  function Earned(rpm: int, elapsed: int): real {
    (elapsed * rpm) as real / MINUTE as real
  }

  function MinReal(a: real, b: real): real {
    if b < a then b else a
  }

  /** refillIngress: a first visit starts with a full minute's allowance. */
  function Refill(b: Bucket, rpm: int, now: int): Bucket {
    if b.updated == ZERO_TIME then b.(tokens := rpm as real, updated := now)
    else if now > b.updated then
      b.(tokens := MinReal(rpm as real, b.tokens + Earned(rpm, now - b.updated)), updated := now)
    else b
  }

  predicate Recyclable(b: Bucket, now: int) {
    b.active == 0 && now - b.updated >= MINUTE
  }

  function Recycled(clients: map<string, Bucket>, now: int): map<string, Bucket> {
    map ip | ip in clients && !Recyclable(clients[ip], now) :: clients[ip]
  }

  /** A full table is swept for idle entries, at most once a minute. */
  function MakeRoom(g: Guard, l: Limits, ip: string, now: int): Guard {
    if ip !in g.clients && |g.clients| >= l.maxClients && now >= g.nextCleanup then
      g.(clients := Recycled(g.clients, now), nextCleanup := now + MINUTE)
    else g
  }

  /** The decision for an address that has, or may get, an entry. */
  function Decide(g: Guard, l: Limits, ip: string, now: int): (Guard, Verdict) {
    var b := Refill(GetOr(g.clients, ip, UNSEEN), l.ipRPM, now);
    var global := Refill(g.global, l.globalRPM, now);
    var refused := g.(global := global, clients := if ip in g.clients then g.clients[ip := b] else g.clients);
    if b.tokens < 1.0 || global.tokens < 1.0 then (refused, RateLimited)
    else if b.active >= l.ipConcurrency || global.active >= l.concurrency then (refused, Saturated)
    else (g.(global := Spend(global), clients := g.clients[ip := Spend(b)]), Admitted)
  }

  function Spend(b: Bucket): Bucket {
    b.(tokens := b.tokens - 1.0, active := b.active + 1)
  }

  function Acquire(g: Guard, l: Limits, ip: string, now: int): (Guard, Verdict) {
    var g1 := MakeRoom(g, l, ip, now);
    if ip !in g1.clients && |g1.clients| >= l.maxClients then (g1, TableFull)
    else Decide(g1, l, ip, now)
  }

  function Vacate(b: Bucket): Bucket {
    b.(active := b.active - 1)
  }

  function Release(g: Guard, ip: string): Guard
    requires ip in g.clients
  {
    g.(global := Vacate(g.global), clients := g.clients[ip := Vacate(g.clients[ip])])
  }

  class IngressBucket {
    var tokens: real
    var updated: int
    var active: int

    function View(): Bucket
      reads this
    {
      Bucket(tokens, updated, active)
    }

    constructor ()
      ensures View() == UNSEEN
    {
      tokens, updated, active := 0.0, ZERO_TIME, 0;
    }

    method RefillIngress(rpm: int, now: int)
      modifies this`tokens, this`updated
      ensures View() == Refill(old(View()), rpm, now)
    {
      if updated == ZERO_TIME {
        tokens := rpm as real;
      } else if now > updated {
        tokens := MinReal(rpm as real, tokens + Earned(rpm, now - updated));
      } else {
        return;
      }
      updated := now;
    }
  }

  /** The release closure of one admitted request; sync.Once makes it act once. */
  class Lease {
    const ip: string
    const bucket: IngressBucket
    var done: bool

    constructor (ip: string, bucket: IngressBucket)
      ensures this.ip == ip && this.bucket == bucket && !done
    {
      this.ip, this.bucket := ip, bucket;
      done := false;
    }
  }

  class IngressGuard {
    const limits: Limits
    const global: IngressBucket
    var clients: map<string, IngressBucket>
    var nextCleanup: int

    ghost predicate Valid()
      reads this
    {
      global !in clients.Values
      && forall a, b :: a in clients && b in clients && a != b ==> clients[a] != clients[b]
    }

    function View(): Guard
      reads this, global, clients.Values
    {
      Guard(global.View(), map ip | ip in clients :: clients[ip].View(), nextCleanup)
    }

    constructor (limits: Limits)
      ensures Valid() && View() == IDLE_GUARD && this.limits == limits
    {
      this.limits := limits;
      global := new IngressBucket();
      clients, nextCleanup := map[], ZERO_TIME;
    }

    /** The sweep of a full table: deletes every idle entry. */
    method Sweep(now: int)
      requires Valid()
      modifies this`clients
      ensures Valid() && View() == old(View()).(clients := Recycled(old(View()).clients, now))
      ensures forall ip :: ip in clients ==> ip in old(clients) && clients[ip] == old(clients)[ip]
    {
      var pending := clients.Keys;
      while pending != {}
        invariant pending <= old(clients.Keys) && clients.Keys <= old(clients.Keys)
        invariant forall ip :: ip in clients ==> clients[ip] == old(clients)[ip]
        invariant forall ip :: ip in old(clients) && ip !in pending ==>
          (ip in clients <==> !Recyclable(old(clients)[ip].View(), now))
        invariant pending <= clients.Keys
        decreases pending
      {
        var key :| key in pending;
        var candidate := clients[key];
        if candidate.active == 0 && now - candidate.updated >= MINUTE {
          clients := clients - {key};
        }
        pending := pending - {key};
      }
    }

    /** The bucket of an address, or a new one that is not in the table yet. */
    method BucketFor(ip: string) returns (b: IngressBucket)
      requires Valid()
      ensures b.View() == GetOr(View().clients, ip, UNSEEN) && b != global
      ensures if ip in clients then b == clients[ip] else fresh(b)
    {
      if ip in clients {
        b := clients[ip];
      } else {
        b := new IngressBucket();
      }
    }

    lemma SizesAgree()
      ensures |View().clients| == |clients|
    {
      assert View().clients.Keys == clients.Keys;
    }

    /** Both buckets are brought up to date, also when the request is then refused; a new address's
        bucket stays outside the table. */
    method RefillBoth(ip: string, b: IngressBucket, now: int)
      requires Valid() && b != global && (if ip in clients then b == clients[ip] else b !in clients.Values)
      requires b.View() == GetOr(View().clients, ip, UNSEEN)
      modifies global, b
      ensures b.View() == Refill(GetOr(old(View()).clients, ip, UNSEEN), limits.ipRPM, now)
      ensures View() == old(View()).(global := Refill(old(View()).global, limits.globalRPM, now),
                                     clients := if ip in clients then old(View()).clients[ip := b.View()]
                                                else old(View()).clients)
    {
      b.RefillIngress(limits.ipRPM, now);
      global.RefillIngress(limits.globalRPM, now);
    }

    /** Both buckets of an address in the table pay for a request. */
    method Pay(ip: string, b: IngressBucket)
      requires Valid() && b != global && ip in clients && clients[ip] == b
      modifies global, b
      ensures View() == old(View()).(global := Spend(old(global.View())),
                                     clients := old(View()).clients[ip := Spend(old(b.View()))])
    {
      b.tokens := b.tokens - 1.0;
      global.tokens := global.tokens - 1.0;
      b.active := b.active + 1;
      global.active := global.active + 1;
    }

    /** An admitted address enters the table and both buckets pay. */
    method Admit(ip: string, b: IngressBucket) returns (lease: Lease)
      requires Valid() && b != global && (if ip in clients then b == clients[ip] else b !in clients.Values)
      modifies this`clients, global, b
      ensures Valid() && fresh(lease) && lease.ip == ip && lease.bucket == b && !lease.done
      ensures clients == old(clients)[ip := b]
      ensures View() == old(View()).(global := Spend(old(global.View())),
                                     clients := old(View()).clients[ip := Spend(old(b.View()))])
    {
      clients := clients[ip := b];
      ghost var entered, paid := View(), Spend(b.View());
      assert entered == old(View()).(clients := old(View()).clients[ip := b.View()]);
      assert entered.clients[ip := paid] == old(View()).clients[ip := paid];
      Pay(ip, b);
      lease := new Lease(ip, b);
    }

    /** The decision once there is room: refill both buckets, then rate, then concurrency. */
    method DecideInPlace(ip: string, now: int) returns (verdict: Verdict, lease: Lease?)
      requires Valid()
      modifies this`clients, global, clients.Values
      ensures Valid()
      ensures (View(), verdict) == Decide(old(View()), limits, ip, now)
      ensures verdict.Admitted? <==> lease != null
      ensures lease != null ==> fresh(lease) && lease.ip == ip && !lease.done
      ensures lease != null ==> ip in clients && clients[ip] == lease.bucket
    {
      var b := BucketFor(ip);
      RefillBoth(ip, b, now);
      ghost var refilled := View();
      if b.tokens < 1.0 || global.tokens < 1.0 {
        return RateLimited, null;
      }
      if b.active >= limits.ipConcurrency || global.active >= limits.concurrency {
        return Saturated, null;
      }
      lease := Admit(ip, b);
      verdict := Admitted;
      assert View().clients[ip] == b.View();
      assert refilled.clients[ip := b.View()] == old(View()).clients[ip := b.View()];
    }

    /** A new address facing a full table triggers a sweep, at most once a minute. */
    method MakeRoomInPlace(ip: string, now: int)
      requires Valid()
      modifies this`clients, this`nextCleanup
      ensures Valid() && View() == MakeRoom(old(View()), limits, ip, now)
      ensures clients.Values <= old(clients.Values)
    {
      SizesAgree();
      if ip !in clients && |clients| >= limits.maxClients && now >= nextCleanup {
        Sweep(now);
        nextCleanup := now + MINUTE;
      }
    }

    /** acquire. */
    method AcquireSlot(ip: string, now: int) returns (verdict: Verdict, lease: Lease?)
      requires Valid()
      modifies this`clients, this`nextCleanup, global, clients.Values
      ensures Valid()
      ensures (View(), verdict) == Acquire(old(View()), limits, ip, now)
      ensures verdict.Admitted? <==> lease != null
      ensures lease != null ==> fresh(lease) && lease.ip == ip && !lease.done
      ensures lease != null ==> ip in clients && clients[ip] == lease.bucket
    {
      MakeRoomInPlace(ip, now);
      SizesAgree();
      if ip !in clients && |clients| >= limits.maxClients {
        return TableFull, null;
      }
      verdict, lease := DecideInPlace(ip, now);
    }

    /** The release closure: acts once, on the bucket the lease was given. */
    method ReleaseSlot(lease: Lease)
      requires Valid()
      requires !lease.done ==> lease.ip in clients && clients[lease.ip] == lease.bucket
      modifies lease`done, lease.bucket`active, global`active
      ensures lease.done
      ensures View() == if old(lease.done) then old(View()) else Release(old(View()), lease.ip)
    {
      if !lease.done {
        lease.done := true;
        lease.bucket.active := lease.bucket.active - 1;
        global.active := global.active - 1;
        assert View().clients == old(View()).clients[lease.ip := lease.bucket.View()];
      }
    }
  }
}
