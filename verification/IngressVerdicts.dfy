/** Why an address is answered as it is (ingress.go:33-89), exactly and over whole runs: the tokens left are what its
    admissions leave of the allowance, and the table is full only while nothing in it may be recycled. */
module IngressVerdicts {
  import opened Base
  import opened Counting
  import opened Ingress
  import opened IngressRuns

  // ---------- The tokens left ----------

  /** In the stretch from some instant to now, admissions and the tokens left are all that burst and rate allow. */
  ghost predicate TightSince(w: World, l: Limits, m: Meter, since: int, now: int) {
    since <= now
    && Passed(w, m, since, now) + At(w.guard, l, m, now).tokens == Allowance(RpmOf(l, m), since, now)
  }

  ghost predicate Tight(w: World, l: Limits, m: Meter) {
    ZERO_TIME < w.clock ==> exists since :: TightSince(w, l, m, since, w.clock)
  }

  lemma RefillLater(b: Bucket, rpm: int, clock: int, now: int)
    requires 0 <= rpm && ZERO_TIME < clock <= now && BucketOk(b, rpm, clock)
    ensures Refill(b, rpm, now).tokens
            == MinReal(rpm as real, Refill(b, rpm, clock).tokens + Earned(rpm, now - clock))
  {
    RefillTwice(b, rpm, clock, now);
    EarnedGrows(rpm, now - clock);
    TokensCapped(b, rpm, clock, clock);
  }

  /** Either the tokens are still those earned since the old instant, or the bucket has filled up. */
  lemma StaysTight(w: World, l: Limits, m: Meter, now: int) returns (since: int)
    requires l.Valid() && GuardOk(w.guard, l, w.clock) && Bounded(w, l, m) && Tight(w, l, m)
    requires ZERO_TIME <= w.clock <= now && ZERO_TIME < now
    ensures TightSince(w, l, m, since, now)
  {
    var rpm, b := RpmOf(l, m), BucketOf(w.guard, m);
    assert BucketOk(b, rpm, w.clock);
    if w.clock == ZERO_TIME {
      since := now;
      NothingAfter(w, m, now, now);
      assert Earned(rpm, 0) == 0.0;
    } else {
      var earlier :| TightSince(w, l, m, earlier, w.clock);
      RefillLater(b, rpm, w.clock, now);
      if At(w.guard, l, m, w.clock).tokens + Earned(rpm, now - w.clock) <= rpm as real {
        since := earlier;
        LaterEndSameCount(w, m, earlier, w.clock, now);
        EarnedAdds(rpm, w.clock - earlier, now - w.clock);
      } else {
        since := now;
        assert Earned(rpm, 0) == 0.0;
        if w.clock < now {
          NothingAfter(w, m, now, now);
        } else {
          TokensCapped(b, rpm, now, now);
        }
      }
    }
  }

  lemma RequestStaysTight(w: World, l: Limits, ip: string, now: int, m: Meter)
    requires l.Valid() && GuardOk(w.guard, l, w.clock) && Bounded(w, l, m) && Tight(w, l, m)
    requires 0 <= w.clock && Enabled(w, Request(ip, now))
    ensures Tight(Next(w, l, Request(ip, now)), l, m)
  {
    var w' := Next(w, l, Request(ip, now));
    var since := StaysTight(w, l, m, now);
    GuardAges(w.guard, l, w.clock, now);
    AcquireOnMeter(w.guard, l, ip, now, m);
    assert BucketOk(BucketOf(w.guard, m), RpmOf(l, m), now);
    RefillTwice(BucketOf(w.guard, m), RpmOf(l, m), now, now);
    RequestPasses(w, l, ip, now, m, since, now);
    assert TightSince(w', l, m, since, w'.clock);
  }

  lemma FinishStaysTight(w: World, l: Limits, k: nat, m: Meter)
    requires Tight(w, l, m) && Enabled(w, Finished(k))
    ensures Tight(Next(w, l, Finished(k)), l, m)
  {
    if ZERO_TIME < w.clock {
      var since :| TightSince(w, l, m, since, w.clock);
      assert TightSince(Next(w, l, Finished(k)), l, m, since, w.clock);
    }
  }

  lemma {:induction false} AlwaysTight(l: Limits, steps: seq<Step>, m: Meter)
    requires l.Valid()
    ensures Tight(Run(l, steps), l, m)
  {
    if steps != [] {
      var front, s := steps[..|steps| - 1], steps[|steps| - 1];
      var w := Run(l, front);
      AlwaysTight(l, front, m);
      TrafficIsBounded(l, front, m);
      SlotsAlwaysKept(l, front);
      if Enabled(w, s) {
        match s
        case Request(ip, now) => RequestStaysTight(w, l, ip, now, m);
        case Finished(k) => FinishStaysTight(w, l, k, m);
      }
    }
  }

  /** One more request would be more than burst and rate allow in the stretch from some instant to now. */
  ghost predicate Overdrawn(w: World, l: Limits, m: Meter, now: int) {
    exists since :: since <= now && Passed(w, m, since, now) + 1.0 > Allowance(RpmOf(l, m), since, now)
  }

  lemma TokensTell(l: Limits, steps: seq<Step>, m: Meter, now: int)
    requires l.Valid() && ZERO_TIME < now && Run(l, steps).clock <= now
    ensures At(Run(l, steps).guard, l, m, now).tokens < 1.0 <==> Overdrawn(Run(l, steps), l, m, now)
  {
    var w := Run(l, steps);
    AlwaysTight(l, steps, m);
    TrafficIsBounded(l, steps, m);
    SlotsAlwaysKept(l, steps);
    var tight := StaysTight(w, l, m, now);
    if since :| since <= now && Passed(w, m, since, now) + 1.0 > Allowance(RpmOf(l, m), since, now) {
      TimePasses(w, l, m, since, now);
    }
    if At(w.guard, l, m, now).tokens < 1.0 {
      assert tight <= now && Passed(w, m, tight, now) + 1.0 > Allowance(RpmOf(l, m), tight, now);
    }
  }

  // ---------- The table ----------

  /** The last time an address asked, or the zero time. */
  function LastVisit(l: Limits, steps: seq<Step>, ip: string): int {
    if steps == [] then ZERO_TIME
    else
      var front, s := steps[..|steps| - 1], steps[|steps| - 1];
      if s.Request? && s.ip == ip && Enabled(Run(l, front), s) then s.now else LastVisit(l, front, ip)
  }

  /** Every entry was last visited when its address last asked. */
  ghost predicate VisitsKept(g: Guard, visits: string -> int, clock: int) {
    forall ip :: ip in g.clients ==> g.clients[ip].updated == visits(ip) && ZERO_TIME < visits(ip) <= clock
  }

  lemma RequestKeepsVisits(g: Guard, l: Limits, ip: string, now: int, visits: string -> int, visits': string -> int,
                           clock: int)
    requires VisitsKept(g, visits, clock) && ZERO_TIME < now && clock <= now
    requires forall other :: visits'(other) == if other == ip then now else visits(other)
    ensures VisitsKept(Acquire(g, l, ip, now).0, visits', now)
  {
  }

  function Visits(l: Limits, steps: seq<Step>): string -> int {
    (ip: string) => LastVisit(l, steps, ip)
  }

  lemma {:induction false} VisitsAlwaysKept(l: Limits, steps: seq<Step>)
    requires l.Valid()
    ensures VisitsKept(Run(l, steps).guard, Visits(l, steps), Run(l, steps).clock)
  {
    if steps != [] {
      var front, s := steps[..|steps| - 1], steps[|steps| - 1];
      var w := Run(l, front);
      VisitsAlwaysKept(l, front);
      if Enabled(w, s) && s.Request? {
        RequestKeepsVisits(w.guard, l, s.ip, s.now, Visits(l, front), Visits(l, steps), w.clock);
      }
    }
  }

  lemma Shrunk(before: set<string>, after: set<string>)
    requires after <= before
    ensures |after| <= |before| && (|after| == |before| <==> after == before)
  {
    SubsetSize(after, before);
    if before <= after {
      assert after == before;
    } else {
      var x :| x in before && x !in after;
      SubsetSize(after, before - {x});
    }
  }

  /** A new address finds no room exactly when the table is full and either its sweep is not due or nothing in it
      may be recycled. */
  lemma NoRoom(g: Guard, l: Limits, ip: string, now: int)
    requires |g.clients| <= l.maxClients
    ensures Acquire(g, l, ip, now).1.TableFull?
            <==> ip !in g.clients && |g.clients| == l.maxClients
                 && (now < g.nextCleanup || forall k :: k in g.clients ==> !Recyclable(g.clients[k], now))
  {
    var kept := Recycled(g.clients, now);
    Shrunk(g.clients.Keys, kept.Keys);
  }

  /** An address is in use or was heard of in the last minute. */
  predicate Recent(l: Limits, steps: seq<Step>, ip: string, now: int) {
    0 < Count(Run(l, steps).inFlight, From(ip)) || now - LastVisit(l, steps, ip) < 60_000_000_000
  }

  /** A request finds no room: its address is new, the table is full, and no sweep is due yet or every address in it
      is recent. */
  ghost predicate NoRoomFor(l: Limits, steps: seq<Step>, ip: string, now: int) {
    var g := Run(l, steps).guard;
    ip !in g.clients && |g.clients| == l.maxClients
    && (now < g.nextCleanup || forall k :: k in g.clients ==> Recent(l, steps, k, now))
  }

  lemma IdleIsNotRecent(l: Limits, steps: seq<Step>, ip: string, now: int)
    requires l.Valid() && ip in Run(l, steps).guard.clients
    ensures Recyclable(Run(l, steps).guard.clients[ip], now) <==> !Recent(l, steps, ip, now)
  {
    var w := Run(l, steps);
    SlotsAlwaysKept(l, steps);
    VisitsAlwaysKept(l, steps);
    assert BucketOf(w.guard, Address(ip)).active == Occupants(w, Address(ip));
    CountBounds(w.inFlight, From(ip));
    assert w.guard.clients[ip].updated == Visits(l, steps)(ip);
  }

  lemma FullExactly(l: Limits, steps: seq<Step>, ip: string, now: int)
    requires l.Valid()
    ensures Acquire(Run(l, steps).guard, l, ip, now).1.TableFull? <==> NoRoomFor(l, steps, ip, now)
  {
    var w := Run(l, steps);
    SlotsAlwaysKept(l, steps);
    NoRoom(w.guard, l, ip, now);
    forall k | k in w.guard.clients
      ensures Recyclable(w.guard.clients[k], now) <==> !Recent(l, steps, k, now)
    {
      IdleIsNotRecent(l, steps, k, now);
    }
  }

  lemma DecidedBy(g: Guard, l: Limits, ip: string, now: int)
    requires l.Valid() && ZERO_TIME < now && GuardOk(g, l, now) && !Acquire(g, l, ip, now).1.TableFull?
    ensures var verdict := Acquire(g, l, ip, now).1;
            var mine, all := At(g, l, Address(ip), now), At(g, l, Everyone, now);
            (verdict.RateLimited? <==> mine.tokens < 1.0 || all.tokens < 1.0)
            && (verdict.Saturated? <==>
                  !verdict.RateLimited? && (mine.active >= l.ipConcurrency || all.active >= l.concurrency))
  {
    var room := MakeRoom(g, l, ip, now);
    RecyclingUnnoticed(g, l, ip, now, Address(ip));
    RecyclingUnnoticed(g, l, ip, now, Everyone);
    assert At(g, l, Address(ip), now) == At(room, l, Address(ip), now);
    assert At(g, l, Everyone, now) == At(room, l, Everyone, now);
  }

  /** Every verdict of every run, exactly. A request is refused for lack of room if its address is new to a full table
      with no sweep due or nothing to recycle; else for its rate, if and only if admitting it would exceed the burst
      and rate of its address or of everyone in some stretch of time up to now; else for concurrency, if and only if
      its address or everyone has as many requests in flight as allowed; and otherwise it is admitted. */
  lemma VerdictExactly(l: Limits, steps: seq<Step>, ip: string, now: int)
    requires l.Valid() && Enabled(Run(l, steps), Request(ip, now))
    ensures var w := Run(l, steps);
            Acquire(w.guard, l, ip, now).1
            == if NoRoomFor(l, steps, ip, now) then TableFull
               else if Overdrawn(w, l, Address(ip), now) || Overdrawn(w, l, Everyone, now) then RateLimited
               else if Count(w.inFlight, From(ip)) >= l.ipConcurrency || |w.inFlight| >= l.concurrency then Saturated
               else Admitted
  {
    var w := Run(l, steps);
    SlotsAlwaysKept(l, steps);
    FullExactly(l, steps, ip, now);
    TokensTell(l, steps, Address(ip), now);
    TokensTell(l, steps, Everyone, now);
    GuardAges(w.guard, l, w.clock, now);
    assert BucketOf(w.guard, Address(ip)).active == Occupants(w, Address(ip));
    assert BucketOf(w.guard, Everyone).active == Occupants(w, Everyone);
    if !NoRoomFor(l, steps, ip, now) {
      DecidedBy(w.guard, l, ip, now);
      assert At(w.guard, l, Address(ip), now).active == BucketOf(w.guard, Address(ip)).active;
      assert At(w.guard, l, Everyone, now).active == BucketOf(w.guard, Everyone).active;
    }
  }

  // ---------- Sweeps ----------

  lemma LeavesInSweep(g: Guard, l: Limits, newcomer: string, now: int, ip: string)
    requires ip in g.clients && ip !in Acquire(g, l, newcomer, now).0.clients
    ensures Recyclable(g.clients[ip], now) && g.nextCleanup <= now
    ensures Acquire(g, l, newcomer, now).0.nextCleanup == now + MINUTE
  {
  }

  /** Entries leave the table only in a sweep that was due, a minute at least after the one before. */
  lemma SweepsAMinuteApart(l: Limits, steps: seq<Step>, s: Step, ip: string)
    requires l.Valid() && ip in Run(l, steps).guard.clients && ip !in Next(Run(l, steps), l, s).guard.clients
    ensures var w := Run(l, steps);
            s.Request? && w.guard.nextCleanup <= s.now && !Recent(l, steps, ip, s.now)
            && Next(w, l, s).guard.nextCleanup == s.now + 60_000_000_000
  {
    assert s.Request?;
    LeavesInSweep(Run(l, steps).guard, l, s.ip, s.now, ip);
    IdleIsNotRecent(l, steps, ip, s.now);
  }

  lemma {:induction false} SweepDueSoon(l: Limits, steps: seq<Step>)
    requires l.Valid()
    ensures Run(l, steps).guard.nextCleanup <= Run(l, steps).clock + MINUTE && ZERO_TIME <= Run(l, steps).clock
  {
    if steps != [] {
      SweepDueSoon(l, steps[..|steps| - 1]);
    }
  }

  lemma QuietIsNotRecent(l: Limits, steps: seq<Step>, ip: string, now: int)
    requires l.Valid() && ip in Run(l, steps).guard.clients && Run(l, steps).clock + MINUTE <= now
    ensures Recent(l, steps, ip, now) <==> 0 < Count(Run(l, steps).inFlight, From(ip))
  {
    VisitsAlwaysKept(l, steps);
    assert Visits(l, steps)(ip) <= Run(l, steps).clock;
  }

  /** After a quiet minute a new address is refused for lack of room only while every entry of the table has a request
      in flight: idle addresses never keep others out. */
  lemma IdleEntriesGiveWay(l: Limits, steps: seq<Step>, ip: string, now: int)
    requires l.Valid() && Run(l, steps).clock + MINUTE <= now && ip !in Run(l, steps).guard.clients
    ensures var w := Run(l, steps);
            Acquire(w.guard, l, ip, now).1.TableFull?
            <==> |w.guard.clients| == l.maxClients
                 && forall k :: k in w.guard.clients ==> 0 < Count(w.inFlight, From(k))
  {
    var w := Run(l, steps);
    FullExactly(l, steps, ip, now);
    SweepDueSoon(l, steps);
    forall k | k in w.guard.clients
      ensures Recent(l, steps, k, now) <==> 0 < Count(w.inFlight, From(k))
    {
      QuietIsNotRecent(l, steps, k, now);
    }
  }
}
