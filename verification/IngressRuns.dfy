/** Runs of the ingress guard: recycling idle entries cannot be noticed, sustained and burst traffic is
    bounded over every interval, and slots are conserved. */
module IngressRuns {
  import opened Base
  import opened Counting
  import opened Ingress

  datatype Admission = Admission(ip: string, at: int)

  /** The guard, the addresses of admitted requests still in flight, everything admitted so far, and the
      latest clock read. */
  datatype World = World(guard: Guard, inFlight: seq<string>, admitted: seq<Admission>, clock: int)

  const START := World(IDLE_GUARD, [], [], ZERO_TIME)

  datatype Step = Request(ip: string, now: int) | Finished(k: nat)

  /** Clock reads come after Go's zero time and never go backwards. */
  predicate Enabled(w: World, s: Step) {
    match s
    case Request(_, now) => ZERO_TIME < now && w.clock <= now
    case Finished(k) => k < |w.inFlight| && w.inFlight[k] in w.guard.clients
  }

  /** One step, with whichever admission rule: the real guard's, or one that never recycles. */
  function Answered(w: World, s: Step, answer: (Guard, Verdict)): World
    requires s.Request?
  {
    World(answer.0,
          if answer.1.Admitted? then w.inFlight + [s.ip] else w.inFlight,
          if answer.1.Admitted? then w.admitted + [Admission(s.ip, s.now)] else w.admitted, s.now)
  }

  function Next(w: World, l: Limits, s: Step): World {
    if !Enabled(w, s) then w
    else
      match s
      case Request(ip, now) => Answered(w, s, Acquire(w.guard, l, ip, now))
      case Finished(k) => w.(guard := Release(w.guard, w.inFlight[k]), inFlight := Without(w.inFlight, k))
  }

  function Run(l: Limits, steps: seq<Step>): World {
    if steps == [] then START else Next(Run(l, steps[..|steps| - 1]), l, steps[|steps| - 1])
  }

  function VerdictOn(w: World, l: Limits, s: Step): Option<Verdict> {
    if s.Request? && Enabled(w, s) then Some(Acquire(w.guard, l, s.ip, s.now).1) else None
  }

  // ---------- Meters: one bucket, an address's or everyone's ----------

  datatype Meter = Everyone | Address(ip: string)

  function BucketOf(g: Guard, m: Meter): Bucket {
    if m.Everyone? then g.global else GetOr(g.clients, m.ip, UNSEEN)
  }

  function RpmOf(l: Limits, m: Meter): int {
    if m.Everyone? then l.globalRPM else l.ipRPM
  }

  predicate Concerns(m: Meter, ip: string) {
    m.Everyone? || m.ip == ip
  }

  predicate BucketOk(b: Bucket, rpm: int, clock: int) {
    0 <= b.active && b.updated <= clock
    && (if b.updated == ZERO_TIME then b == UNSEEN else ZERO_TIME < b.updated && 0.0 <= b.tokens <= rpm as real)
  }

  lemma EarnedAdds(rpm: int, a: int, b: int)
    ensures Earned(rpm, a + b) == Earned(rpm, a) + Earned(rpm, b)
  {
    assert (a + b) * rpm == a * rpm + b * rpm;
  }

  lemma EarnedGrows(rpm: int, a: int)
    requires 0 <= rpm && 0 <= a
    ensures 0.0 <= Earned(rpm, a)
    ensures MINUTE <= a ==> rpm as real <= Earned(rpm, a)
  {
    assert 0 <= a * rpm;
    if MINUTE <= a {
      assert MINUTE * rpm <= a * rpm;
    }
  }

  /** Refilling in two steps is refilling once. */
  lemma RefillTwice(b: Bucket, rpm: int, s: int, t: int)
    requires 0 <= rpm && ZERO_TIME < s <= t && BucketOk(b, rpm, s)
    ensures Refill(Refill(b, rpm, s), rpm, t) == Refill(b, rpm, t)
    ensures BucketOk(Refill(b, rpm, s), rpm, s) && Refill(b, rpm, s).active == b.active
    ensures Refill(b, rpm, s).updated == s
  {
    EarnedGrows(rpm, t - s);
    if b.updated != ZERO_TIME {
      EarnedGrows(rpm, s - b.updated);
      EarnedAdds(rpm, s - b.updated, t - s);
    }
  }

  /** Two buckets that will look the same at every visit from now on. */
  ghost predicate Same(b: Bucket, c: Bucket, rpm: int, clock: int) {
    forall t :: clock <= t && ZERO_TIME < t ==> Refill(b, rpm, t) == Refill(c, rpm, t)
  }

  /** An entry idle for a minute looks like an address never seen. */
  lemma IdleLooksUnseen(b: Bucket, rpm: int, now: int)
    requires 0 <= rpm && BucketOk(b, rpm, now) && Recyclable(b, now)
    ensures Same(b, UNSEEN, rpm, now)
  {
    forall t | now <= t && ZERO_TIME < t
      ensures Refill(b, rpm, t) == Refill(UNSEEN, rpm, t)
    {
      EarnedGrows(rpm, t - b.updated);
    }
  }

  lemma RefillLooksSame(b: Bucket, rpm: int, now: int)
    requires 0 <= rpm && ZERO_TIME < now && BucketOk(b, rpm, now)
    ensures Same(b, Refill(b, rpm, now), rpm, now)
  {
    forall t | now <= t && ZERO_TIME < t
      ensures Refill(b, rpm, t) == Refill(Refill(b, rpm, now), rpm, t)
    {
      RefillTwice(b, rpm, now, t);
    }
  }

  ghost predicate GuardOk(g: Guard, l: Limits, clock: int) {
    forall m :: BucketOk(BucketOf(g, m), RpmOf(l, m), clock)
  }

  /** The bucket as the next request will find it. */
  function At(g: Guard, l: Limits, m: Meter, now: int): Bucket {
    Refill(BucketOf(g, m), RpmOf(l, m), now)
  }

  /** What a request does to a meter: an admitted request pays from every meter it concerns, and nothing
      else can be noticed, neither refusals nor recycling. */
  ghost predicate MeterAfter(g: Guard, g': Guard, l: Limits, ip: string, now: int, admitted: bool, m: Meter) {
    if admitted && Concerns(m, ip) then
      1.0 <= At(g, l, m, now).tokens && BucketOf(g', m) == Spend(At(g, l, m, now))
    else Same(BucketOf(g, m), BucketOf(g', m), RpmOf(l, m), now)
  }

  lemma RecyclingUnnoticed(g: Guard, l: Limits, ip: string, now: int, m: Meter)
    requires l.Valid() && GuardOk(g, l, now)
    ensures Same(BucketOf(g, m), BucketOf(MakeRoom(g, l, ip, now), m), RpmOf(l, m), now)
    ensures BucketOk(BucketOf(MakeRoom(g, l, ip, now), m), RpmOf(l, m), now)
  {
    var b := BucketOf(g, m);
    assert BucketOk(b, RpmOf(l, m), now);
    if m.Address? && m.ip in g.clients && Recyclable(b, now) {
      IdleLooksUnseen(b, RpmOf(l, m), now);
    }
  }

  lemma DecisionOnMeter(g: Guard, l: Limits, ip: string, now: int, m: Meter)
    requires l.Valid() && ZERO_TIME < now && GuardOk(g, l, now)
    ensures var (g', verdict) := Decide(g, l, ip, now);
            MeterAfter(g, g', l, ip, now, verdict.Admitted?, m)
            && BucketOk(BucketOf(g', m), RpmOf(l, m), now)
  {
    var b, rpm := BucketOf(g, m), RpmOf(l, m);
    assert BucketOk(b, rpm, now);
    RefillTwice(b, rpm, now, now);
    RefillLooksSame(b, rpm, now);
  }

  lemma AcquireOnMeter(g: Guard, l: Limits, ip: string, now: int, m: Meter)
    requires l.Valid() && ZERO_TIME < now && GuardOk(g, l, now)
    ensures var (g', verdict) := Acquire(g, l, ip, now);
            MeterAfter(g, g', l, ip, now, verdict.Admitted?, m)
            && BucketOk(BucketOf(g', m), RpmOf(l, m), now)
  {
    var room := MakeRoom(g, l, ip, now);
    forall k
      ensures BucketOk(BucketOf(room, k), RpmOf(l, k), now)
    {
      RecyclingUnnoticed(g, l, ip, now, k);
    }
    RecyclingUnnoticed(g, l, ip, now, m);
    DecisionOnMeter(room, l, ip, now, m);
  }

  // ---------- Slots are conserved ----------

  function From(ip: string): string -> bool {
    (other: string) => other == ip
  }

  function Occupants(w: World, m: Meter): int {
    if m.Everyone? then |w.inFlight| else Count(w.inFlight, From(m.ip))
  }

  /** Every bucket's active count is the number of admitted requests still in flight. */
  ghost predicate SlotsKept(w: World, l: Limits) {
    GuardOk(w.guard, l, w.clock)
    && (forall m :: BucketOf(w.guard, m).active == Occupants(w, m))
    && |w.guard.clients| <= l.maxClients
    && |w.inFlight| <= l.concurrency
    && forall ip :: Count(w.inFlight, From(ip)) <= l.ipConcurrency
  }

  lemma SameActive(b: Bucket, c: Bucket, rpm: int, clock: int)
    requires Same(b, c, rpm, clock)
    ensures b.active == c.active
  {
    assert Refill(b, rpm, Max(clock, 1)) == Refill(c, rpm, Max(clock, 1));
  }

  lemma GuardAges(g: Guard, l: Limits, clock: int, now: int)
    requires GuardOk(g, l, clock) && clock <= now
    ensures GuardOk(g, l, now)
  {
    forall m
      ensures BucketOk(BucketOf(g, m), RpmOf(l, m), now)
    {
      assert BucketOk(BucketOf(g, m), RpmOf(l, m), clock);
    }
  }

  lemma TableStaysBounded(g: Guard, l: Limits, ip: string, now: int)
    requires |g.clients| <= l.maxClients
    ensures |Acquire(g, l, ip, now).0.clients| <= l.maxClients
  {
    var kept := Recycled(g.clients, now);
    assert kept.Keys <= g.clients.Keys;
    SubsetSize(kept.Keys, g.clients.Keys);
    var room := MakeRoom(g, l, ip, now);
    var after := Acquire(g, l, ip, now).0;
    assert after.clients.Keys <= room.clients.Keys + {ip};
    SubsetSize(after.clients.Keys, room.clients.Keys + {ip});
    if ip in room.clients {
      assert room.clients.Keys + {ip} == room.clients.Keys;
    }
  }

  lemma {:induction false} SubsetSize(a: set<string>, b: set<string>)
    requires a <= b
    ensures |a| <= |b|
  {
    if x :| x in a {
      SubsetSize(a - {x}, b - {x});
    }
  }

  lemma AdmittedHadSlots(g: Guard, l: Limits, ip: string, now: int)
    requires Acquire(g, l, ip, now).1.Admitted?
    ensures var room := MakeRoom(g, l, ip, now);
            GetOr(room.clients, ip, UNSEEN).active < l.ipConcurrency && room.global.active < l.concurrency
  {
  }

  lemma RequestKeepsSlots(w: World, l: Limits, ip: string, now: int)
    requires l.Valid() && SlotsKept(w, l) && Enabled(w, Request(ip, now))
    ensures SlotsKept(Next(w, l, Request(ip, now)), l)
  {
    var w' := Next(w, l, Request(ip, now));
    var admitted := Acquire(w.guard, l, ip, now).1.Admitted?;
    GuardAges(w.guard, l, w.clock, now);
    TableStaysBounded(w.guard, l, ip, now);
    forall m
      ensures BucketOf(w'.guard, m).active == Occupants(w', m) && BucketOk(BucketOf(w'.guard, m), RpmOf(l, m), now)
    {
      AcquireOnMeter(w.guard, l, ip, now, m);
      assert BucketOk(BucketOf(w.guard, m), RpmOf(l, m), now);
      RefillTwice(BucketOf(w.guard, m), RpmOf(l, m), now, now);
      if admitted && m.Address? {
        CountLast(w.inFlight, ip, From(m.ip));
      }
      if !(admitted && Concerns(m, ip)) {
        SameActive(BucketOf(w.guard, m), BucketOf(w'.guard, m), RpmOf(l, m), now);
      }
    }
    if admitted {
      AdmittedHadSlots(w.guard, l, ip, now);
      RecyclingUnnoticed(w.guard, l, ip, now, Address(ip));
      SameActive(BucketOf(w.guard, Address(ip)), BucketOf(MakeRoom(w.guard, l, ip, now), Address(ip)), l.ipRPM, now);
      assert BucketOf(w.guard, Address(ip)).active == Occupants(w, Address(ip));
      assert BucketOf(w.guard, Everyone).active == Occupants(w, Everyone);
      forall other
        ensures Count(w'.inFlight, From(other)) <= l.ipConcurrency
      {
        CountLast(w.inFlight, ip, From(other));
      }
    }
  }

  lemma FinishKeepsSlots(w: World, l: Limits, k: nat)
    requires l.Valid() && SlotsKept(w, l) && Enabled(w, Finished(k))
    ensures SlotsKept(Next(w, l, Finished(k)), l)
  {
    var w' := Next(w, l, Finished(k));
    var ip := w.inFlight[k];
    assert w'.guard.clients.Keys == w.guard.clients.Keys;
    forall other
      ensures Count(w'.inFlight, From(other)) == Count(w.inFlight, From(other)) - (if other == ip then 1 else 0)
    {
      CountWithout(w.inFlight, k, From(other));
    }
    forall m
      ensures BucketOf(w'.guard, m).active == Occupants(w', m) && BucketOk(BucketOf(w'.guard, m), RpmOf(l, m), w.clock)
    {
      assert BucketOk(BucketOf(w.guard, m), RpmOf(l, m), w.clock);
      assert BucketOf(w.guard, m).active == Occupants(w, m);
      if Concerns(m, ip) {
        OccupiedBucket(w, l, m, k);
      }
    }
  }

  /** A request in flight keeps its address's bucket in the table, with a positive count. */
  lemma OccupiedBucket(w: World, l: Limits, m: Meter, k: nat)
    requires SlotsKept(w, l) && k < |w.inFlight| && Concerns(m, w.inFlight[k])
    ensures 0 < BucketOf(w.guard, m).active && (m.Address? ==> m.ip in w.guard.clients)
  {
    assert BucketOf(w.guard, m).active == Occupants(w, m);
    if m.Address? {
      CountBounds(w.inFlight, From(m.ip));
      assert From(m.ip)(w.inFlight[k]);
    }
  }

  /** Over any run: within the address and global limits, active counts are exactly the requests in
      flight, so a bucket in use is never recycled, and the table stays within its bound. */
  lemma {:induction false} SlotsAlwaysKept(l: Limits, steps: seq<Step>)
    requires l.Valid()
    ensures SlotsKept(Run(l, steps), l)
    ensures forall k :: 0 <= k < |Run(l, steps).inFlight| ==> Run(l, steps).inFlight[k] in Run(l, steps).guard.clients
  {
    if steps == [] {
    } else {
      var w, s := Run(l, steps[..|steps| - 1]), steps[|steps| - 1];
      SlotsAlwaysKept(l, steps[..|steps| - 1]);
      if Enabled(w, s) {
        match s
        case Request(ip, now) => RequestKeepsSlots(w, l, ip, now);
        case Finished(k) => FinishKeepsSlots(w, l, k);
      }
    }
    var w := Run(l, steps);
    forall k | 0 <= k < |w.inFlight|
      ensures w.inFlight[k] in w.guard.clients
    {
      OccupiedBucket(w, l, Address(w.inFlight[k]), k);
    }
  }

  function ActiveAt(g: Guard): string -> int {
    (ip: string) => GetOr(g.clients, ip, UNSEEN).active
  }

  function CountAt(inFlight: seq<string>): string -> int {
    (ip: string) => Count(inFlight, From(ip))
  }

  lemma {:induction false} OneKeyEach(keys: seq<string>, ip: string)
    requires Distinct(keys)
    ensures Count(keys, From(ip)) == if ip in keys then 1 else 0
  {
    if keys != [] {
      OneKeyEach(keys[..|keys| - 1], ip);
      assert keys == keys[..|keys| - 1] + [keys[|keys| - 1]];
    }
  }

  lemma {:induction false} SumOfBoth<T>(s: seq<T>, f: T -> int, g: T -> int, h: T -> int)
    requires forall x :: h(x) == f(x) + g(x)
    ensures Sum(s, h) == Sum(s, f) + Sum(s, g)
  {
    if s != [] {
      SumOfBoth(s[..|s| - 1], f, g, h);
    }
  }

  lemma {:induction false} CountsAddUp(inFlight: seq<string>, keys: seq<string>)
    requires Distinct(keys) && forall k :: 0 <= k < |inFlight| ==> inFlight[k] in keys
    ensures Sum(keys, CountAt(inFlight)) == |inFlight|
  {
    if inFlight == [] {
      assert forall ip :: CountAt(inFlight)(ip) == 0;
      SumOfBoth(keys, CountAt(inFlight), CountAt(inFlight), CountAt(inFlight));
    } else {
      var front, last := inFlight[..|inFlight| - 1], inFlight[|inFlight| - 1];
      assert inFlight == front + [last];
      forall ip
        ensures CountAt(inFlight)(ip) == CountAt(front)(ip) + Indicator(From(last))(ip)
      {
        CountLast(front, last, From(ip));
      }
      SumOfBoth(keys, CountAt(front), Indicator(From(last)), CountAt(inFlight));
      CountsAddUp(front, keys);
      OneKeyEach(keys, last);
    }
  }

  /** Conservation: the active counts of the whole table add up to the global count, which is the number
      of releases still owed. */
  lemma ActiveCountsAddUp(l: Limits, steps: seq<Step>, keys: seq<string>)
    requires l.Valid() && Distinct(keys)
    requires forall ip :: ip in keys <==> ip in Run(l, steps).guard.clients
    ensures var w := Run(l, steps);
            Sum(keys, ActiveAt(w.guard)) == w.guard.global.active == |w.inFlight|
  {
    var w := Run(l, steps);
    SlotsAlwaysKept(l, steps);
    CountsAddUp(w.inFlight, keys);
    forall i | 0 <= i < |keys|
      ensures ActiveAt(w.guard)(keys[i]) == CountAt(w.inFlight)(keys[i])
    {
      assert BucketOf(w.guard, Address(keys[i])).active == Occupants(w, Address(keys[i]));
    }
    SumEqual(keys, ActiveAt(w.guard), CountAt(w.inFlight));
    assert BucketOf(w.guard, Everyone).active == Occupants(w, Everyone);
  }

  // ---------- Traffic is bounded over every interval ----------

  /** Admissions a meter paid for, from one instant to another. */
  function Between(m: Meter, since: int, till: int): Admission -> bool {
    (a: Admission) => Concerns(m, a.ip) && since <= a.at <= till
  }

  function Passed(w: World, m: Meter, since: int, till: int): real {
    Count(w.admitted, Between(m, since, till)) as real
  }

  /** What an interval may let through: a minute's burst and the rate. */
  function Allowance(rpm: int, since: int, till: int): real {
    rpm as real + Earned(rpm, till - since)
  }

  /** Admissions since an instant plus the tokens still there never exceed burst and earnings. */
  predicate Metered(w: World, l: Limits, m: Meter, since: int) {
    since <= w.clock && ZERO_TIME < w.clock ==>
      Passed(w, m, since, w.clock) + At(w.guard, l, m, w.clock).tokens <= Allowance(RpmOf(l, m), since, w.clock)
  }

  ghost predicate Bounded(w: World, l: Limits, m: Meter) {
    (forall since :: Metered(w, l, m, since))
    && (forall since, till :: since <= till ==> Passed(w, m, since, till) <= Allowance(RpmOf(l, m), since, till))
    && forall i :: 0 <= i < |w.admitted| ==> ZERO_TIME < w.admitted[i].at <= w.clock
  }

  lemma NothingAfter(w: World, m: Meter, since: int, till: int)
    requires forall i :: 0 <= i < |w.admitted| ==> w.admitted[i].at < since
    ensures Passed(w, m, since, till) == 0.0
  {
    CountBounds(w.admitted, Between(m, since, till));
  }

  lemma LaterEndSameCount(w: World, m: Meter, since: int, t1: int, t2: int)
    requires forall i :: 0 <= i < |w.admitted| ==> w.admitted[i].at <= t1 && w.admitted[i].at <= t2
    ensures Passed(w, m, since, t1) == Passed(w, m, since, t2)
  {
    CountImplies(w.admitted, Between(m, since, t1), Between(m, since, t2));
    CountImplies(w.admitted, Between(m, since, t2), Between(m, since, t1));
  }

  /** Time passes: tokens grow by no more than what the interval earns. */
  lemma TimePasses(w: World, l: Limits, m: Meter, since: int, now: int)
    requires l.Valid() && GuardOk(w.guard, l, w.clock) && Bounded(w, l, m)
    requires ZERO_TIME <= w.clock <= now && ZERO_TIME < now && since <= now
    ensures Passed(w, m, since, now) + At(w.guard, l, m, now).tokens <= Allowance(RpmOf(l, m), since, now)
  {
    var rpm, b := RpmOf(l, m), BucketOf(w.guard, m);
    assert BucketOk(b, rpm, w.clock);
    assert Metered(w, l, m, since);
    EarnedGrows(rpm, now - since);
    if w.clock < since {
      NothingAfter(w, m, since, now);
      TokensCapped(b, rpm, w.clock, now);
    } else {
      LaterEndSameCount(w, m, since, w.clock, now);
      EarnedAdds(rpm, w.clock - since, now - w.clock);
      if ZERO_TIME < w.clock {
        RefillTwice(b, rpm, w.clock, now);
        TokensGrow(b, rpm, w.clock, now);
      } else {
        TokensCapped(b, rpm, w.clock, now);
        CountBounds(w.admitted, Between(m, since, now));
      }
    }
  }

  lemma TokensCapped(b: Bucket, rpm: int, clock: int, now: int)
    requires 0 <= rpm && clock <= now && BucketOk(b, rpm, clock)
    ensures Refill(b, rpm, now).tokens <= rpm as real
  {
  }

  lemma TokensGrow(b: Bucket, rpm: int, clock: int, now: int)
    requires 0 <= rpm && ZERO_TIME < clock <= now && BucketOk(b, rpm, clock)
    ensures Refill(b, rpm, now).tokens <= Refill(b, rpm, clock).tokens + Earned(rpm, now - clock)
  {
    RefillTwice(b, rpm, clock, now);
    EarnedGrows(rpm, now - clock);
  }

  /** A request adds itself to the admissions of the windows that contain it. */
  lemma RequestPasses(w: World, l: Limits, ip: string, now: int, m: Meter, since: int, till: int)
    requires Enabled(w, Request(ip, now))
    ensures Passed(Next(w, l, Request(ip, now)), m, since, till)
            == Passed(w, m, since, till)
               + if Acquire(w.guard, l, ip, now).1.Admitted? && Concerns(m, ip) && since <= now <= till then 1.0
                 else 0.0
  {
    CountLast(w.admitted, Admission(ip, now), Between(m, since, till));
  }

  lemma RequestKeepsBound(w: World, l: Limits, ip: string, now: int, m: Meter)
    requires l.Valid() && GuardOk(w.guard, l, w.clock) && Bounded(w, l, m) && Enabled(w, Request(ip, now))
             && 0 <= w.clock
    ensures Bounded(Next(w, l, Request(ip, now)), l, m)
  {
    var w' := Next(w, l, Request(ip, now));
    var rpm := RpmOf(l, m);
    var admitted := Acquire(w.guard, l, ip, now).1.Admitted?;
    GuardAges(w.guard, l, w.clock, now);
    AcquireOnMeter(w.guard, l, ip, now, m);
    assert BucketOk(BucketOf(w.guard, m), rpm, now);
    RefillTwice(BucketOf(w.guard, m), rpm, now, now);
    forall since, till
      ensures Passed(w', m, since, till) == Passed(w, m, since, till)
                                            + if admitted && Concerns(m, ip) && since <= now <= till then 1.0 else 0.0
    {
      RequestPasses(w, l, ip, now, m, since, till);
    }
    forall since
      ensures Metered(w', l, m, since)
    {
      if since <= now { TimePasses(w, l, m, since, now); }
    }
    forall since, till | since <= till
      ensures Passed(w', m, since, till) <= Allowance(rpm, since, till)
    {
      assert Passed(w, m, since, till) <= Allowance(rpm, since, till);
      if since <= now <= till {
        TimePasses(w, l, m, since, now);
        LaterEndSameCount(w, m, since, now, till);
        EarnedAdds(rpm, now - since, till - now);
        EarnedGrows(rpm, till - now);
        assert 0.0 <= At(w.guard, l, m, now).tokens;
      }
    }
  }

  /** The traffic bound, for each address and for everyone together: whatever the arrivals, refusals,
      completions and recycling, at most rpm + rpm * d / 60 requests are admitted in any d seconds. */
  lemma {:induction false} TrafficIsBounded(l: Limits, steps: seq<Step>, m: Meter)
    requires l.Valid()
    ensures Bounded(Run(l, steps), l, m) && 0 <= Run(l, steps).clock
  {
    if steps == [] {
      forall since, till | since <= till
        ensures Passed(START, m, since, till) <= Allowance(RpmOf(l, m), since, till)
      {
        EarnedGrows(RpmOf(l, m), till - since);
      }
    } else {
      var w, s := Run(l, steps[..|steps| - 1]), steps[|steps| - 1];
      TrafficIsBounded(l, steps[..|steps| - 1], m);
      SlotsAlwaysKept(l, steps[..|steps| - 1]);
      if Enabled(w, s) {
        match s
        case Request(ip, now) => RequestKeepsBound(w, l, ip, now, m);
        case Finished(k) => FinishKeepsBound(w, l, k, m);
      }
    }
  }

  lemma FinishKeepsBound(w: World, l: Limits, k: nat, m: Meter)
    requires Bounded(w, l, m) && Enabled(w, Finished(k))
    ensures Bounded(Next(w, l, Finished(k)), l, m)
  {
    var w' := Next(w, l, Finished(k));
    forall since
      ensures Metered(w', l, m, since)
    {
      assert Metered(w, l, m, since);
    }
    forall since, till | since <= till
      ensures Passed(w', m, since, till) <= Allowance(RpmOf(l, m), since, till)
    {
      assert Passed(w, m, since, till) <= Allowance(RpmOf(l, m), since, till);
    }
  }

  // ---------- Recycling cannot be noticed ----------

  /** The guard that never recycles, fed the same steps except the requests the real guard refused for
      lack of room in its table. */
  function FreeNext(bounded: World, w: World, l: Limits, s: Step): World {
    if !Enabled(bounded, s) then w
    else
      match s
      case Request(ip, now) =>
        if VerdictOn(bounded, l, s) == Some(TableFull) then w.(clock := now)
        else Answered(w, s, Decide(w.guard, l, ip, now))
      case Finished(k) =>
        if k < |w.inFlight| && w.inFlight[k] in w.guard.clients then
          w.(guard := Release(w.guard, w.inFlight[k]), inFlight := Without(w.inFlight, k))
        else w
  }

  function FreeRun(l: Limits, steps: seq<Step>): World {
    if steps == [] then START
    else
      var front, last := steps[..|steps| - 1], steps[|steps| - 1];
      FreeNext(Run(l, front), FreeRun(l, front), l, last)
  }

  /** Two guards nobody can tell apart from now on. */
  ghost predicate Alike(g: Guard, u: Guard, l: Limits, clock: int) {
    forall m :: Same(BucketOf(g, m), BucketOf(u, m), RpmOf(l, m), clock)
  }

  lemma DecisionAlike(g: Guard, u: Guard, l: Limits, ip: string, now: int)
    requires ZERO_TIME < now && Alike(g, u, l, now)
    ensures Decide(g, l, ip, now).1 == Decide(u, l, ip, now).1
    ensures At(g, l, Address(ip), now) == At(u, l, Address(ip), now)
            && At(g, l, Everyone, now) == At(u, l, Everyone, now)
  {
    assert Same(BucketOf(g, Address(ip)), BucketOf(u, Address(ip)), l.ipRPM, now);
    assert Same(BucketOf(g, Everyone), BucketOf(u, Everyone), l.globalRPM, now);
  }

  lemma SameLater(b: Bucket, c: Bucket, rpm: int, clock: int, now: int)
    requires Same(b, c, rpm, clock) && clock <= now
    ensures Same(b, c, rpm, now)
  {
  }

  lemma RequestStaysAlike(w: World, u: World, l: Limits, ip: string, now: int)
    requires l.Valid() && GuardOk(w.guard, l, now) && GuardOk(u.guard, l, now)
    requires Enabled(w, Request(ip, now)) && Alike(w.guard, u.guard, l, now)
    ensures Alike(Next(w, l, Request(ip, now)).guard, FreeNext(w, u, l, Request(ip, now)).guard, l, now)
    ensures var verdict := Acquire(w.guard, l, ip, now).1;
            verdict != TableFull ==> Decide(u.guard, l, ip, now).1 == verdict
  {
    var room := MakeRoom(w.guard, l, ip, now);
    forall m
      ensures Same(BucketOf(room, m), BucketOf(u.guard, m), RpmOf(l, m), now)
      ensures BucketOk(BucketOf(room, m), RpmOf(l, m), now)
    {
      RecyclingUnnoticed(w.guard, l, ip, now, m);
      assert Same(BucketOf(w.guard, m), BucketOf(u.guard, m), RpmOf(l, m), now);
    }
    var (g', verdict) := Acquire(w.guard, l, ip, now);
    if verdict != TableFull {
      DecisionAlike(room, u.guard, l, ip, now);
      var u' := Decide(u.guard, l, ip, now).0;
      forall m
        ensures Same(BucketOf(g', m), BucketOf(u', m), RpmOf(l, m), now)
      {
        DecisionOnMeter(room, l, ip, now, m);
        DecisionOnMeter(u.guard, l, ip, now, m);
        assert Same(BucketOf(room, m), BucketOf(u.guard, m), RpmOf(l, m), now);
        assert At(room, l, m, now) == At(u.guard, l, m, now);
      }
    }
  }

  lemma VacatingStaysSame(b: Bucket, c: Bucket, rpm: int, clock: int)
    requires Same(b, c, rpm, clock)
    ensures Same(Vacate(b), Vacate(c), rpm, clock)
  {
    forall t | clock <= t && ZERO_TIME < t
      ensures Refill(Vacate(b), rpm, t) == Refill(Vacate(c), rpm, t)
    {
      assert Refill(b, rpm, t) == Refill(c, rpm, t);
      assert Refill(Vacate(b), rpm, t) == Vacate(Refill(b, rpm, t));
      assert Refill(Vacate(c), rpm, t) == Vacate(Refill(c, rpm, t));
    }
  }

  lemma FinishStaysAlike(g: Guard, u: Guard, l: Limits, ip: string, clock: int)
    requires ip in g.clients && ip in u.clients && Alike(g, u, l, clock)
    ensures Alike(Release(g, ip), Release(u, ip), l, clock)
  {
    forall m
      ensures Same(BucketOf(Release(g, ip), m), BucketOf(Release(u, ip), m), RpmOf(l, m), clock)
    {
      assert Same(BucketOf(g, m), BucketOf(u, m), RpmOf(l, m), clock);
      VacatingStaysSame(BucketOf(g, m), BucketOf(u, m), RpmOf(l, m), clock);
    }
  }

  /** The unrecycled guard keeps sound buckets too. */
  lemma FreeGuardOk(w: World, u: World, l: Limits, s: Step)
    requires l.Valid() && GuardOk(u.guard, l, w.clock) && Enabled(w, s) && 0 <= w.clock
    requires s.Finished? && s.k < |u.inFlight| && u.inFlight[s.k] in u.guard.clients ==>
      0 < u.guard.clients[u.inFlight[s.k]].active && 0 < u.guard.global.active
    ensures GuardOk(FreeNext(w, u, l, s).guard, l, Next(w, l, s).clock)
  {
    var now := Next(w, l, s).clock;
    GuardAges(u.guard, l, w.clock, now);
    forall m
      ensures BucketOk(BucketOf(FreeNext(w, u, l, s).guard, m), RpmOf(l, m), now)
    {
      assert BucketOk(BucketOf(u.guard, m), RpmOf(l, m), now);
      if s.Request? {
        DecisionOnMeter(u.guard, l, s.ip, s.now, m);
      }
    }
  }

  /** Eviction is invisible: along any run, every request that is not refused for table capacity gets the
      same verdict as from a guard that never recycles, and both leave the same tokens and counts at
      every meter, at every later time. */
  lemma {:induction false} RecyclingIsInvisible(l: Limits, steps: seq<Step>)
    requires l.Valid()
    ensures var (w, u) := (Run(l, steps), FreeRun(l, steps));
            Alike(w.guard, u.guard, l, w.clock) && GuardOk(u.guard, l, w.clock) && 0 <= w.clock
            && w.inFlight == u.inFlight && w.admitted == u.admitted
    ensures steps != [] ==>
      var (front, last) := (steps[..|steps| - 1], steps[|steps| - 1]);
      var verdict := VerdictOn(Run(l, front), l, last);
      verdict.Some? && verdict.value != TableFull ==>
        Decide(FreeRun(l, front).guard, l, last.ip, last.now).1 == verdict.value
  {
    if steps != [] {
      var front, s := steps[..|steps| - 1], steps[|steps| - 1];
      RecyclingIsInvisible(l, front);
      SlotsAlwaysKept(l, front);
      InvisibleStep(Run(l, front), FreeRun(l, front), l, s);
    }
  }

  lemma InvisibleStep(w: World, u: World, l: Limits, s: Step)
    requires l.Valid() && SlotsKept(w, l) && 0 <= w.clock
    requires Alike(w.guard, u.guard, l, w.clock) && GuardOk(u.guard, l, w.clock)
    requires w.inFlight == u.inFlight && w.admitted == u.admitted
    ensures var (w', u') := (Next(w, l, s), FreeNext(w, u, l, s));
            Alike(w'.guard, u'.guard, l, w'.clock) && GuardOk(u'.guard, l, w'.clock) && 0 <= w'.clock
            && w'.inFlight == u'.inFlight && w'.admitted == u'.admitted
    ensures var verdict := VerdictOn(w, l, s);
            verdict.Some? && verdict.value != TableFull ==> Decide(u.guard, l, s.ip, s.now).1 == verdict.value
  {
    if Enabled(w, s) {
      match s
      case Request(ip, now) =>
        GuardAges(w.guard, l, w.clock, now);
        GuardAges(u.guard, l, w.clock, now);
        forall m
          ensures Same(BucketOf(w.guard, m), BucketOf(u.guard, m), RpmOf(l, m), now)
        {
          SameLater(BucketOf(w.guard, m), BucketOf(u.guard, m), RpmOf(l, m), w.clock, now);
        }
        RequestStaysAlike(w, u, l, ip, now);
        FreeGuardOk(w, u, l, s);
      case Finished(k) =>
        var ip := w.inFlight[k];
        OccupiedBucket(w, l, Address(ip), k);
        OccupiedBucket(w, l, Everyone, k);
        SameActive(BucketOf(w.guard, Address(ip)), BucketOf(u.guard, Address(ip)), l.ipRPM, w.clock);
        SameActive(BucketOf(w.guard, Everyone), BucketOf(u.guard, Everyone), l.globalRPM, w.clock);
        FinishStaysAlike(w.guard, u.guard, l, ip, w.clock);
        FreeGuardOk(w, u, l, s);
    }
  }
}
