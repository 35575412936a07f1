/** Which acquisitions succeed (router.go:185-250, route_failover.go:29-85), said of the channels themselves:
    what is untried, what can be called now, and which levels the request has given up. */
module RouterChoice {
  import opened Base
  import opened Channel
  import opened Routing
  import opened RouteFailover
  import opened Router
  import opened RouterRuns

  /** What the router finds when it looks at a candidate in the table as it stands. */
  function Found(routes: Routes, cs: seq<Candidate>, now: int, i: nat): Verdict
    requires i < |cs|
  {
    Inspect(GetOr(routes, cs[i].id, NEW), cs[i], now, |cs| == 1).1
  }

  /** A channel the request has not tried and that could be called now. */
  predicate Callable(routes: Routes, cs: seq<Candidate>, used: set<string>, now: int, i: nat)
    requires i < |cs|
  {
    cs[i].id !in used && Found(routes, cs, now, i).Usable?
  }

  /** An untried channel that only its RPM keeps from being called. */
  predicate Blocked(routes: Routes, cs: seq<Candidate>, used: set<string>, now: int, i: nat)
    requires i < |cs|
  {
    cs[i].id !in used && Found(routes, cs, now, i).WindowFull?
  }

  predicate AnyCallable(routes: Routes, cs: seq<Candidate>, used: set<string>, now: int) {
    exists i :: 0 <= i < |cs| && Callable(routes, cs, used, now, i)
  }

  predicate AnyBlocked(routes: Routes, cs: seq<Candidate>, used: set<string>, now: int) {
    exists i :: 0 <= i < |cs| && Blocked(routes, cs, used, now, i)
  }

  /** Some untried channel can be called and is not on a level given up. */
  predicate AnyOpen(routes: Routes, cs: seq<Candidate>, used: set<string>, now: int, skipped: set<int>) {
    exists i :: 0 <= i < |cs| && Callable(routes, cs, used, now, i) && cs[i].priority !in skipped
  }

  /** The scan finds exactly the channels that can be called, however many it has looked at before. */
  lemma EligibleExactly(routes: Routes, cs: seq<Candidate>, used: set<string>, now: int, i: nat)
    requires ValidCandidates(cs) && DistinctChannels(cs) && i < |cs|
    ensures i in Scan(routes, cs, used, now, |cs|).eligible <==> Callable(routes, cs, used, now, i)
  {
    ScanProjection(routes, cs, used, now, |cs|, cs[i].id);
    assert IndexOf(cs, cs[i].id) == i;
  }

  /** One of the first k candidates is held back by its RPM alone. */
  predicate BlockedBelow(routes: Routes, cs: seq<Candidate>, used: set<string>, now: int, k: nat)
    requires k <= |cs|
  {
    k > 0 && (BlockedBelow(routes, cs, used, now, k - 1) || Blocked(routes, cs, used, now, k - 1))
  }

  lemma {:induction false} BlockedAmong(routes: Routes, cs: seq<Candidate>, used: set<string>, now: int, k: nat)
    requires k <= |cs|
    ensures BlockedBelow(routes, cs, used, now, k) <==> exists i :: 0 <= i < k && Blocked(routes, cs, used, now, i)
  {
    if k > 0 {
      BlockedAmong(routes, cs, used, now, k - 1);
    }
  }

  lemma BlockedStep(routes: Routes, cs: seq<Candidate>, used: set<string>, now: int, before: Scanned, k: nat)
    requires k < |cs| && GetOr(before.routes, cs[k].id, NEW) == GetOr(routes, cs[k].id, NEW)
    requires before.rpmBlocked <==> BlockedBelow(routes, cs, used, now, k)
    ensures ScanStep(before, cs[k], used, now, |cs| == 1).rpmBlocked <==> BlockedBelow(routes, cs, used, now, k + 1)
  {
  }

  lemma UntouchedSoFar(routes: Routes, cs: seq<Candidate>, used: set<string>, now: int, k: nat)
    requires ValidCandidates(cs) && DistinctChannels(cs) && k < |cs|
    ensures GetOr(Scan(routes, cs, used, now, k).routes, cs[k].id, NEW) == GetOr(routes, cs[k].id, NEW)
  {
    ScanProjection(routes, cs, used, now, k, cs[k].id);
    assert IndexOf(cs, cs[k].id) == k;
  }

  lemma {:induction false} BlockedExactly(routes: Routes, cs: seq<Candidate>, used: set<string>, now: int, k: nat)
    requires ValidCandidates(cs) && DistinctChannels(cs) && k <= |cs|
    ensures Scan(routes, cs, used, now, k).rpmBlocked <==> BlockedBelow(routes, cs, used, now, k)
  {
    if k > 0 {
      BlockedExactly(routes, cs, used, now, k - 1);
      UntouchedSoFar(routes, cs, used, now, k - 1);
      BlockedStep(routes, cs, used, now, Scan(routes, cs, used, now, k - 1), k - 1);
    }
  }

  /** The channel chosen can be called, and every better level that could be called has been given up. */
  ghost predicate BestOpen(routes: Routes, cs: seq<Candidate>, used: set<string>, now: int, skipped: set<int>, i: nat) {
    i < |cs| && Callable(routes, cs, used, now, i) && cs[i].priority !in skipped
    && forall j :: 0 <= j < |cs| && Callable(routes, cs, used, now, j) && cs[j].priority < cs[i].priority ==>
         cs[j].priority in skipped
  }

  /** The tier of an acquisition, and the request's planner after it. */
  function Chosen(routes: Routes, cs: seq<Candidate>, settings: Settings, used: set<string>, now: int, p: Progress)
    : Choice
    requires ValidCandidates(cs)
  {
    SelectTier(p, cs, Scan(routes, cs, used, now, |cs|).eligible, settings, now)
  }

  /** There is a tier exactly when an untried channel can be called on a level not given up before. */
  lemma TierExactly(routes: Routes, cs: seq<Candidate>, settings: Settings, used: set<string>, now: int, p: Progress)
    requires ValidCandidates(cs) && DistinctChannels(cs)
    ensures Chosen(routes, cs, settings, used, now, p).tier != [] <==> AnyOpen(routes, cs, used, now, p.skipped)
  {
    var eligible := Scan(routes, cs, used, now, |cs|).eligible;
    TierSelection(p, cs, eligible, settings, now);
    if i :| 0 <= i < |cs| && Callable(routes, cs, used, now, i) && cs[i].priority !in p.skipped {
      EligibleExactly(routes, cs, used, now, i);
      assert cs[i].priority in OpenLevels(cs, eligible, p.skipped);
    }
    if OpenLevels(cs, eligible, p.skipped) != {} {
      var level :| level in OpenLevels(cs, eligible, p.skipped);
      var i :| i in eligible && cs[i].priority == level && level !in p.skipped;
      EligibleExactly(routes, cs, used, now, i);
    }
  }

  lemma TierIsBest(routes: Routes, cs: seq<Candidate>, settings: Settings, used: set<string>, now: int, p: Progress,
                   i: nat)
    requires ValidCandidates(cs) && DistinctChannels(cs)
    requires i in Chosen(routes, cs, settings, used, now, p).tier
    ensures BestOpen(routes, cs, used, now, Chosen(routes, cs, settings, used, now, p).progress.skipped, i)
  {
    var eligible := Scan(routes, cs, used, now, |cs|).eligible;
    var c := SelectTier(p, cs, eligible, settings, now);
    TierSelection(p, cs, eligible, settings, now);
    EligibleExactly(routes, cs, used, now, i);
    assert c.tier[0] in c.tier;
    forall j | 0 <= j < |cs| && Callable(routes, cs, used, now, j) && cs[j].priority < cs[i].priority
      ensures cs[j].priority in c.progress.skipped
    {
      EligibleExactly(routes, cs, used, now, j);
    }
  }

  /** How an acquisition ends, exactly: it leases a channel if and only if a slot is free and an untried channel
      can be called on a level the request has not given up; otherwise it names the missing slot, an untried
      channel held back by its RPM alone, or nothing to call. The channel leased is on the best such level. */
  lemma AcquisitionDecides(routes: Routes, slotsFull: bool, cs: seq<Candidate>, settings: Settings, used: set<string>,
                           now: int, draw: int -> int, p: Progress)
    requires ValidCandidates(cs) && DistinctChannels(cs) && IsDraw(draw)
    ensures var (_, progress, acquired) := Acquire(routes, slotsFull, cs, settings, used, now, draw, Some(p));
            var open := AnyOpen(routes, cs, used, now, p.skipped);
            progress.Some?
            && (acquired.Overloaded? <==> slotsFull)
            && (acquired.Leased? <==> !slotsFull && open)
            && (acquired.RpmExceeded? <==> !slotsFull && !open && AnyBlocked(routes, cs, used, now))
            && (acquired.Leased? ==> BestOpen(routes, cs, used, now, progress.value.skipped, acquired.index))
  {
    if !slotsFull {
      var s := Scan(routes, cs, used, now, |cs|);
      var choice := Chosen(routes, cs, settings, used, now, p);
      TierIsUsable(Some(p), cs, s, settings, now);
      TierExactly(routes, cs, settings, used, now, p);
      BlockedExactly(routes, cs, used, now, |cs|);
      BlockedAmong(routes, cs, used, now, |cs|);
      if choice.tier != [] {
        TierIsBest(routes, cs, settings, used, now, p, Winner(cs, s.remaining, choice.tier, draw));
      }
    }
  }

  /** The planner after an acquisition that found a slot, and the tier the leased channel is from. */
  lemma AcquisitionPlans(routes: Routes, cs: seq<Candidate>, settings: Settings, used: set<string>, now: int,
                         draw: int -> int, p: Progress)
    requires ValidCandidates(cs) && IsDraw(draw)
    ensures var (_, progress, acquired) := Acquire(routes, false, cs, settings, used, now, draw, Some(p));
            var choice := Chosen(routes, cs, settings, used, now, p);
            progress == Some(choice.progress)
            && (acquired.Leased? <==> choice.tier != []) && (acquired.Leased? ==> acquired.index in choice.tier)
  {
    TierIsUsable(Some(p), cs, Scan(routes, cs, used, now, |cs|), settings, now);
  }
}
