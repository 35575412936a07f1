/** Who gets the call (router.go:185-271): how the possible draws divide among the channels of a tier, and on what terms
    the winner is leased, both asked of the history of the table. */
module RouterShares {
  import opened Base
  import opened Counting
  import opened Channel
  import opened Routing
  import opened RouteFailover
  import opened Router
  import opened RouterRuns
  import opened RouterChoice
  import opened RouterBreaker
  import WeightedDraw

  /** rand.IntN answering d to every bound above it. */
  function Drawing(d: int): int -> int {
    (n: int) => if 0 <= d < n then d else 0
  }

  /** The tier an acquisition draws in. */
  function TierOf(routes: Routes, cs: seq<Candidate>, settings: Settings, used: set<string>, now: int,
                  progress: Option<Progress>): seq<nat>
    requires ValidCandidates(cs)
  {
    Narrow(progress, cs, Scan(routes, cs, used, now, |cs|).eligible, settings, now).1
  }

  // ---------- What the scan hands to the draw ----------

  lemma RemainingStep(routes: Routes, cs: seq<Candidate>, used: set<string>, now: int, before: Scanned, k: nat, i: nat)
    requires i <= k < |cs| && |before.remaining| == k && Callable(routes, cs, used, now, i)
    requires if i < k then before.remaining[i] == Found(routes, cs, now, i).remaining
             else GetOr(before.routes, cs[i].id, NEW) == GetOr(routes, cs[i].id, NEW)
    ensures var after := ScanStep(before, cs[k], used, now, |cs| == 1).remaining;
            i < |after| && after[i] == Found(routes, cs, now, i).remaining
  {
  }

  lemma {:induction false} RemainingExactly(routes: Routes, cs: seq<Candidate>, used: set<string>, now: int, k: nat,
                                            i: nat)
    requires ValidCandidates(cs) && DistinctChannels(cs) && i < k <= |cs| && Callable(routes, cs, used, now, i)
    ensures Scan(routes, cs, used, now, k).remaining[i] == Found(routes, cs, now, i).remaining
  {
    if i < k - 1 {
      RemainingExactly(routes, cs, used, now, k - 1, i);
    } else {
      UntouchedSoFar(routes, cs, used, now, i);
    }
    RemainingStep(routes, cs, used, now, Scan(routes, cs, used, now, k - 1), k - 1, i);
  }

  predicate Ascending(positions: seq<nat>) {
    forall j, k :: 0 <= j < k < |positions| ==> positions[j] < positions[k]
  }

  lemma EligibleStep(s: Scanned, c: Candidate, used: set<string>, now: int, single: bool)
    requires Ascending(s.eligible) && forall i :: i in s.eligible ==> i < |s.remaining|
    ensures Ascending(ScanStep(s, c, used, now, single).eligible)
  {
    assert forall j :: 0 <= j < |s.eligible| ==> s.eligible[j] in s.eligible;
  }

  lemma {:induction false} EligibleAscends(routes: Routes, cs: seq<Candidate>, used: set<string>, now: int, k: nat)
    requires k <= |cs| && ValidCandidates(cs)
    ensures Ascending(Scan(routes, cs, used, now, k).eligible)
  {
    if k > 0 {
      EligibleAscends(routes, cs, used, now, k - 1);
      EligibleStep(Scan(routes, cs, used, now, k - 1), cs[k - 1], used, now, |cs| == 1);
    }
  }

  lemma {:induction false} LevelAscends(cs: seq<Candidate>, eligible: seq<nat>, level: int)
    requires Positions(eligible, cs) && Ascending(eligible)
    ensures Ascending(OnLevel(cs, eligible, level))
  {
    if eligible != [] {
      var front, last := eligible[..|eligible| - 1], eligible[|eligible| - 1];
      LevelAscends(cs, front, level);
      var before := OnLevel(cs, front, level);
      forall j | 0 <= j < |before|
        ensures before[j] < last
      {
        assert before[j] in front;
      }
    }
  }

  lemma TierAscends(routes: Routes, cs: seq<Candidate>, settings: Settings, used: set<string>, now: int,
                    progress: Option<Progress>)
    requires ValidCandidates(cs)
    ensures Ascending(TierOf(routes, cs, settings, used, now, progress))
  {
    var eligible := Scan(routes, cs, used, now, |cs|).eligible;
    var tier := TierOf(routes, cs, settings, used, now, progress);
    EligibleAscends(routes, cs, used, now, |cs|);
    if progress.Some? {
      TierSelection(progress.value, cs, eligible, settings, now);
    }
    if tier != [] {
      assert exists level :: tier == OnLevel(cs, eligible, level);
      var level :| tier == OnLevel(cs, eligible, level);
      LevelAscends(cs, eligible, level);
    }
  }

  /** The tier is all that can be called on one level, and without a planner that is the most urgent one. */
  lemma TierIsLevel(routes: Routes, cs: seq<Candidate>, settings: Settings, used: set<string>, now: int,
                    progress: Option<Progress>, i: nat, j: nat)
    requires ValidCandidates(cs) && DistinctChannels(cs) && j < |cs|
    requires i in TierOf(routes, cs, settings, used, now, progress)
    ensures i < |cs| && Callable(routes, cs, used, now, i)
    ensures j in TierOf(routes, cs, settings, used, now, progress)
            <==> Callable(routes, cs, used, now, j) && cs[j].priority == cs[i].priority
    ensures progress.None? && Callable(routes, cs, used, now, j) ==> cs[i].priority <= cs[j].priority
  {
    var eligible := Scan(routes, cs, used, now, |cs|).eligible;
    if progress.Some? {
      TierSelection(progress.value, cs, eligible, settings, now);
    }
    EligibleExactly(routes, cs, used, now, i);
    EligibleExactly(routes, cs, used, now, j);
  }

  // ---------- Allowances, asked of the history ----------

  /** What a limited channel may still call: its RPM less the calls of the last minute and the reservations that may
      still become calls. */
  function CallsLeft(w: World, c: Candidate, now: int): int {
    c.rpm - Count(w.sent, SentAfter(c.id, now - MINUTE)) - Count(w.tickets, On(c.id))
  }

  /** The most any limited channel of the tier may still call, at least one. */
  function Fullest(w: World, cs: seq<Candidate>, tier: seq<nat>, now: int): (m: int)
    requires Positions(tier, cs)
    ensures 1 <= m && forall i :: i in tier && 0 < cs[i].rpm ==> CallsLeft(w, cs[i], now) <= m
    ensures m == 1 || exists i :: i in tier && 0 < cs[i].rpm && CallsLeft(w, cs[i], now) == m
  {
    if tier == [] then 1
    else
      var last := tier[|tier| - 1];
      assert forall i :: i in tier <==> i in tier[..|tier| - 1] || i == last;
      Max(Fullest(w, cs, tier[..|tier| - 1], now), if 0 < cs[last].rpm then CallsLeft(w, cs[last], now) else 0)
  }

  /** A channel without a limit counts as much as the fullest of the others. */
  function Allowance(w: World, cs: seq<Candidate>, tier: seq<nat>, now: int, i: nat): int
    requires Positions(tier, cs) && i < |cs|
  {
    if cs[i].rpm == 0 then Fullest(w, cs, tier, now) else CallsLeft(w, cs[i], now)
  }

  /** A channel's share of the draws: its weight in the policy times its allowance. */
  function ShareOf(w: World, cs: seq<Candidate>, tier: seq<nat>, now: int): nat -> int
    requires Positions(tier, cs)
  {
    (i: nat) => if i < |cs| then cs[i].weight * Allowance(w, cs, tier, now, i) else 0
  }

  lemma {:induction false} TotalIsSum(ws: seq<nat>, tier: seq<nat>, f: nat -> int)
    requires |ws| == |tier| && forall k :: 0 <= k < |tier| ==> ws[k] == f(tier[k])
    ensures WeightedDraw.Total(ws) == Sum(tier, f)
  {
    if tier != [] {
      TotalIsSum(ws[..|ws| - 1], tier[..|tier| - 1], f);
    }
  }

  lemma LeftIsAllowance(steps: seq<Step>, cs: seq<Candidate>, used: set<string>, now: int, i: nat)
    requires ValidCandidates(cs) && DistinctChannels(cs) && Run(steps).clock <= now && i < |cs|
    requires Callable(Run(steps).routes, cs, used, now, i)
    ensures Scan(Run(steps).routes, cs, used, now, |cs|).remaining[i]
            == if 0 < cs[i].rpm then CallsLeft(Run(steps), cs[i], now) else 0
  {
    RemainingExactly(Run(steps).routes, cs, used, now, |cs|, i);
    RpmUsedIsExact(steps, cs[i].id, now);
  }

  lemma {:induction false} FullestIsLargest(w: World, cs: seq<Candidate>, remaining: seq<int>, tier: seq<nat>, now: int)
    requires Positions(tier, cs) && |remaining| == |cs|
    requires forall i :: i in tier ==> remaining[i] == if 0 < cs[i].rpm then CallsLeft(w, cs[i], now) else 0
    ensures LargestAllowance(remaining, tier) == Fullest(w, cs, tier, now)
  {
    if tier != [] {
      var front, last := tier[..|tier| - 1], tier[|tier| - 1];
      assert last in tier && forall i :: i in front ==> i in tier;
      FullestIsLargest(w, cs, remaining, front, now);
    }
  }

  /** The shares the router computes are those. */
  lemma SharesAreAllowances(steps: seq<Step>, cs: seq<Candidate>, used: set<string>, now: int, tier: seq<nat>)
    requires ValidCandidates(cs) && DistinctChannels(cs) && Run(steps).clock <= now && Positions(tier, cs)
    requires forall i :: i in tier ==> Callable(Run(steps).routes, cs, used, now, i)
    requires Drawable(cs, Scan(Run(steps).routes, cs, used, now, |cs|).remaining, tier)
    ensures var ws := Shares(cs, Scan(Run(steps).routes, cs, used, now, |cs|).remaining, tier);
            var f := ShareOf(Run(steps), cs, tier, now);
            (forall k :: 0 <= k < |tier| ==> ws[k] == f(tier[k])) && WeightedDraw.Total(ws) == Sum(tier, f)
  {
    var remaining := Scan(Run(steps).routes, cs, used, now, |cs|).remaining;
    forall i | i in tier
      ensures remaining[i] == if 0 < cs[i].rpm then CallsLeft(Run(steps), cs[i], now) else 0
    {
      LeftIsAllowance(steps, cs, used, now, i);
    }
    FullestIsLargest(Run(steps), cs, remaining, tier, now);
    forall k | 0 <= k < |tier|
      ensures Shares(cs, remaining, tier)[k] == ShareOf(Run(steps), cs, tier, now)(tier[k])
    {
      assert tier[k] in tier && ValidCandidate(cs[tier[k]]);
    }
    TotalIsSum(Shares(cs, remaining, tier), tier, ShareOf(Run(steps), cs, tier, now));
  }

  // ---------- The draw ----------

  /** The channel an acquisition leases when the draw comes out as d. */
  ghost predicate Leases(routes: Routes, cs: seq<Candidate>, settings: Settings, used: set<string>, now: int,
                         progress: Option<Progress>, d: int, i: nat)
    requires ValidCandidates(cs)
  {
    var acquired := Acquire(routes, false, cs, settings, used, now, Drawing(d), progress).2;
    acquired.Leased? && acquired.index == i
  }

  lemma LeasesWinner(routes: Routes, cs: seq<Candidate>, settings: Settings, used: set<string>, now: int,
                     progress: Option<Progress>, d: int, i: nat)
    requires ValidCandidates(cs)
    ensures var tier := TierOf(routes, cs, settings, used, now, progress);
            var remaining := Scan(routes, cs, used, now, |cs|).remaining;
            Drawable(cs, remaining, tier)
            && (Leases(routes, cs, settings, used, now, progress, d, i)
                <==> tier != [] && Winner(cs, remaining, tier, Drawing(d)) == i)
  {
    TierIsUsable(progress, cs, Scan(routes, cs, used, now, |cs|), settings, now);
  }

  lemma WinnerOwns(cs: seq<Candidate>, remaining: seq<int>, tier: seq<nat>, d: int, k: nat)
    requires Drawable(cs, remaining, tier) && k < |tier| && Ascending(tier)
    requires 0 <= d < WeightedDraw.Total(Shares(cs, remaining, tier))
    ensures Winner(cs, remaining, tier, Drawing(d)) == tier[k]
            <==> d in WeightedDraw.DrawsFor(Shares(cs, remaining, tier), k)
  {
    var owner := WeightedDraw.Owner(Shares(cs, remaining, tier), d);
    assert tier[owner] == tier[k] <==> owner == k;
  }

  /** The draws that lease channel i, of those below n. */
  ghost function LeasingDraws(routes: Routes, cs: seq<Candidate>, settings: Settings, used: set<string>, now: int,
                              progress: Option<Progress>, n: int, i: nat): set<int>
    requires ValidCandidates(cs)
  {
    set d | d in Interval(0, n) && Leases(routes, cs, settings, used, now, progress, d, i)
  }

  lemma LeasesOwned(routes: Routes, cs: seq<Candidate>, settings: Settings, used: set<string>, now: int,
                    progress: Option<Progress>, tier: seq<nat>, remaining: seq<int>, d: int, k: nat)
    requires ValidCandidates(cs) && tier == TierOf(routes, cs, settings, used, now, progress) && k < |tier|
    requires remaining == Scan(routes, cs, used, now, |cs|).remaining && Drawable(cs, remaining, tier)
    requires 0 <= d < WeightedDraw.Total(Shares(cs, remaining, tier))
    ensures Leases(routes, cs, settings, used, now, progress, d, tier[k])
            <==> d in WeightedDraw.DrawsFor(Shares(cs, remaining, tier), k)
  {
    TierAscends(routes, cs, settings, used, now, progress);
    LeasesWinner(routes, cs, settings, used, now, progress, d, tier[k]);
    WinnerOwns(cs, remaining, tier, d, k);
  }

  lemma SameDraws(ds: set<int>, ws: seq<nat>, k: nat)
    requires forall d :: d in ds ==> d in Interval(0, WeightedDraw.Total(ws))
    requires forall d :: d in Interval(0, WeightedDraw.Total(ws)) ==> (d in ds <==> d in WeightedDraw.DrawsFor(ws, k))
    ensures ds == WeightedDraw.DrawsFor(ws, k)
  {
  }

  lemma LeasingDrawsCounted(routes: Routes, cs: seq<Candidate>, settings: Settings, used: set<string>, now: int,
                            progress: Option<Progress>, tier: seq<nat>, remaining: seq<int>, k: nat)
    requires ValidCandidates(cs) && tier == TierOf(routes, cs, settings, used, now, progress) && k < |tier|
    requires remaining == Scan(routes, cs, used, now, |cs|).remaining && Drawable(cs, remaining, tier)
    ensures var ws := Shares(cs, remaining, tier);
            |LeasingDraws(routes, cs, settings, used, now, progress, WeightedDraw.Total(ws), tier[k])| == ws[k]
  {
    var ws := Shares(cs, remaining, tier);
    forall d | d in Interval(0, WeightedDraw.Total(ws))
      ensures Leases(routes, cs, settings, used, now, progress, d, tier[k]) <==> d in WeightedDraw.DrawsFor(ws, k)
    {
      LeasesOwned(routes, cs, settings, used, now, progress, tier, remaining, d, k);
    }
    SameDraws(LeasingDraws(routes, cs, settings, used, now, progress, WeightedDraw.Total(ws), tier[k]), ws, k);
    WeightedDraw.DrawShare(ws, k);
  }

  lemma TierCallable(routes: Routes, cs: seq<Candidate>, settings: Settings, used: set<string>, now: int,
                     progress: Option<Progress>)
    requires ValidCandidates(cs) && DistinctChannels(cs)
    ensures forall j :: j in TierOf(routes, cs, settings, used, now, progress) ==>
      j < |cs| && Callable(routes, cs, used, now, j)
  {
    forall j | j in TierOf(routes, cs, settings, used, now, progress)
      ensures j < |cs| && Callable(routes, cs, used, now, j)
    {
      LeasesWinner(routes, cs, settings, used, now, progress, 0, j);
      TierIsLevel(routes, cs, settings, used, now, progress, j, j);
    }
  }

  /** In every reachable state, whether or not the request has a planner, each channel of the tier is leased by
      exactly weight times allowance of the possible draws: the allowance of a limited channel is its RPM less the
      calls of the last minute and the reservations out, and that of an unlimited one the largest of the others. */
  lemma LeasedInProportion(steps: seq<Step>, cs: seq<Candidate>, settings: Settings, used: set<string>, now: int,
                           progress: Option<Progress>, i: nat)
    requires ValidCandidates(cs) && DistinctChannels(cs) && Run(steps).clock <= now
    requires i in TierOf(Run(steps).routes, cs, settings, used, now, progress)
    ensures var w := Run(steps);
            var tier := TierOf(w.routes, cs, settings, used, now, progress);
            Positions(tier, cs)
            && |LeasingDraws(w.routes, cs, settings, used, now, progress, Sum(tier, ShareOf(w, cs, tier, now)), i)|
               == cs[i].weight * Allowance(w, cs, tier, now, i)
  {
    var w := Run(steps);
    var tier := TierOf(w.routes, cs, settings, used, now, progress);
    LeasesWinner(w.routes, cs, settings, used, now, progress, 0, i);
    TierCallable(w.routes, cs, settings, used, now, progress);
    SharesAreAllowances(steps, cs, used, now, tier);
    var k :| 0 <= k < |tier| && tier[k] == i;
    LeasingDrawsCounted(w.routes, cs, settings, used, now, progress, tier,
                        Scan(w.routes, cs, used, now, |cs|).remaining, k);
  }

  // ---------- On what terms ----------

  /** A lease as the policy, the planner and the history of the channel have it: among several channels it is a probe
      exactly when a failure that put the connection out of use has not been followed by a success. */
  ghost predicate OnTerms(steps: seq<Step>, c: Candidate, settings: Settings, now: int, single: bool, t: Ticket) {
    t == Ticket(c.id, c.signature, now,
                !single && StateOf(Run(steps), c.id).signature == c.signature
                && Cooling(OwnEnded(steps, c.id), ZERO_TIME),
                single,
                if settings.failures == 0 then 3 else settings.failures,
                (if settings.cooldownMinutes == 0 then 30 else settings.cooldownMinutes) * 60_000_000_000)
  }

  lemma TermsOfState(steps: seq<Step>, c: Candidate, settings: Settings, now: int, single: bool)
    ensures var inspected := Inspect(StateOf(Run(steps), c.id), c, now, single).0;
            Inspect(StateOf(Run(steps), c.id), c, now, single).1.Usable? ==>
              OnTerms(steps, c, settings, now, single, TicketFor(c, inspected, settings, now, single))
  {
    HealthIsHistory(steps, c.id);
  }

  lemma GrantTerms(routes: Routes, remaining: seq<int>, rpmBlocked: bool, cs: seq<Candidate>, tier: seq<nat>,
                   deadline: int, settings: Settings, now: int, draw: int -> int)
    requires Drawable(cs, remaining, tier) && IsDraw(draw) && forall i :: i in tier ==> cs[i].id in routes
    ensures var acquired := Grant(routes, remaining, rpmBlocked, cs, tier, deadline, settings, now, draw).1;
            acquired.Leased? ==>
              var c := cs[acquired.index];
              acquired.index in tier && acquired.deadline == deadline
              && acquired.ticket == TicketFor(c, routes[c.id], settings, now, |cs| == 1)
  {
  }

  lemma ScannedState(routes: Routes, cs: seq<Candidate>, used: set<string>, now: int, i: nat)
    requires ValidCandidates(cs) && DistinctChannels(cs) && i < |cs| && Callable(routes, cs, used, now, i)
    ensures GetOr(Scan(routes, cs, used, now, |cs|).routes, cs[i].id, NEW)
            == Inspect(GetOr(routes, cs[i].id, NEW), cs[i], now, |cs| == 1).0
  {
    ScanProjection(routes, cs, used, now, |cs|, cs[i].id);
    assert IndexOf(cs, cs[i].id) == i;
  }

  /** Every lease of every run is on those terms, and limits its call as the planner said. */
  lemma LeaseTerms(steps: seq<Step>, cs: seq<Candidate>, settings: Settings, used: set<string>, now: int,
                   draw: int -> int, progress: Option<Progress>)
    requires ValidCandidates(cs) && DistinctChannels(cs) && IsDraw(draw)
    ensures var acquired := Acquire(Run(steps).routes, false, cs, settings, used, now, draw, progress).2;
            acquired.Leased? ==>
              acquired.index < |cs| && OnTerms(steps, cs[acquired.index], settings, now, |cs| == 1, acquired.ticket)
              && acquired.deadline == match progress
                                      case None => ZERO_TIME
                                      case Some(p) => Chosen(Run(steps).routes, cs, settings, used, now, p).callDeadline
  {
    var routes := Run(steps).routes;
    var s := Scan(routes, cs, used, now, |cs|);
    TierIsUsable(progress, cs, s, settings, now);
    var (_, tier, deadline) := Narrow(progress, cs, s.eligible, settings, now);
    GrantTerms(s.routes, s.remaining, s.rpmBlocked, cs, tier, deadline, settings, now, draw);
    TierCallable(routes, cs, settings, used, now, progress);
    var acquired := Grant(s.routes, s.remaining, s.rpmBlocked, cs, tier, deadline, settings, now, draw).1;
    if acquired.Leased? {
      ScannedState(routes, cs, used, now, acquired.index);
      TermsOfState(steps, cs[acquired.index], settings, now, |cs| == 1);
    }
  }
}
