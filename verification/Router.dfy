/** Channel selection (router.go:137-342): one locked pass over the candidates, a priority tier, a
    weighted draw inside it, and the reservation of the winner. */
module Router {
  import opened Base
  import opened Channel
  import opened Routing
  import opened RouteFailover
  import WeightedDraw

  type Routes = map<string, State>

  /** The first loop's variables after some prefix of the candidates. */
  datatype Scanned = Scanned(routes: Routes, remaining: seq<int>, eligible: seq<nat>, rpmBlocked: bool)

  datatype Acquired =
    | Overloaded
    | RpmExceeded
    | Unavailable
    | Leased(index: nat, ticket: Ticket, deadline: int)

  /** Why the first loop keeps or passes over a channel. */
  datatype Verdict = Stale | Busy | WindowFull | Usable(remaining: int)

  /** One channel's part of the first loop: adopt the candidate's connection, trim the window if the
      channel is free, and say whether it can be chosen. */
  function Inspect(s: State, c: Candidate, now: int, single: bool): (State, Verdict) {
    if c.revision < s.revision then (s, Stale)
    else
      var s1 := Adopt(s, c.revision, c.signature);
      if (!single && (s1.health.until > now || s1.health.probe)) || s1.inFlight >= c.maxConcurrency then (s1, Busy)
      else
        var s2 := s1.(rpmCalls := Pruned(s1.rpmCalls, now));
        var left := c.rpm - RpmUsed(s1, now);
        if c.rpm > 0 && left <= 0 then (s2, WindowFull)
        else (s2, Usable(if c.rpm > 0 then left else 0))
  }

  function ScanStep(s: Scanned, c: Candidate, used: set<string>, now: int, single: bool): Scanned {
    if c.id in used then s.(remaining := s.remaining + [0])
    else
      var (state, verdict) := Inspect(GetOr(s.routes, c.id, NEW), c, now, single);
      Scanned(
        s.routes[c.id := state],
        s.remaining + [if verdict.Usable? then verdict.remaining else 0],
        if verdict.Usable? then s.eligible + [|s.remaining|] else s.eligible,
        s.rpmBlocked || verdict.WindowFull?)
  }

  /** The first loop over the first k candidates. */
  function Scan(routes: Routes, cs: seq<Candidate>, used: set<string>, now: int, k: nat): (s: Scanned)
    requires k <= |cs| && ValidCandidates(cs)
    ensures |s.remaining| == k && Positions(s.eligible, cs)
    ensures forall i :: i in s.eligible ==>
      i < k && cs[i].id !in used && cs[i].id in s.routes && 0 <= s.remaining[i]
      && (cs[i].rpm > 0 ==> 0 < s.remaining[i])
  {
    if k == 0 then Scanned(routes, [], [], false)
    else ScanStep(Scan(routes, cs, used, now, k - 1), cs[k - 1], used, now, |cs| == 1)
  }

  /** The tier the draw is made in, and the call deadline the planner set. */
  function Narrow(progress: Option<Progress>, cs: seq<Candidate>, eligible: seq<nat>, settings: Settings, now: int)
    : (Option<Progress>, seq<nat>, int)
    requires Positions(eligible, cs) && ValidCandidates(cs)
  {
    match progress
    case Some(p) =>
      var choice := SelectTier(p, cs, eligible, settings, now);
      (Some(choice.progress), choice.tier, choice.callDeadline)
    case None =>
      (None, OnLevel(cs, eligible, Highest(cs, eligible, {})), ZERO_TIME)
  }

  /** An unlimited channel draws with the largest remaining allowance of its tier, or one. */
  function LargestAllowance(remaining: seq<int>, tier: seq<nat>): (m: int)
    requires forall k :: 0 <= k < |tier| ==> tier[k] < |remaining|
    ensures 1 <= m && forall k :: 0 <= k < |tier| ==> remaining[tier[k]] <= m
    ensures m == 1 || exists k :: 0 <= k < |tier| && remaining[tier[k]] == m
  {
    if tier == [] then 1
    else Max(LargestAllowance(remaining, tier[..|tier| - 1]), remaining[tier[|tier| - 1]])
  }

  /** A channel's share of the draws: policy weight times remaining allowance. */
  function Share(c: Candidate, remaining: int, unlimited: int): nat
    requires ValidCandidate(c) && 0 <= remaining && 0 <= unlimited
  {
    c.weight * if c.rpm == 0 then unlimited else remaining
  }

  predicate Drawable(cs: seq<Candidate>, remaining: seq<int>, tier: seq<nat>) {
    ValidCandidates(cs) && |remaining| == |cs| && Positions(tier, cs)
    && forall k :: 0 <= k < |tier| ==>
         0 <= remaining[tier[k]] && (cs[tier[k]].rpm > 0 ==> 0 < remaining[tier[k]])
  }

  function Shares(cs: seq<Candidate>, remaining: seq<int>, tier: seq<nat>): (ws: seq<nat>)
    requires Drawable(cs, remaining, tier)
    ensures |ws| == |tier|
    ensures forall k :: 0 <= k < |tier| ==>
      ws[k] == Share(cs[tier[k]], remaining[tier[k]], LargestAllowance(remaining, tier))
  {
    seq(|tier|, k requires 0 <= k < |tier| =>
      Share(cs[tier[k]], remaining[tier[k]], LargestAllowance(remaining, tier)))
  }

  /** rand.IntN: a draw below any positive bound. */
  ghost predicate IsDraw(draw: int -> int) {
    forall n :: n > 0 ==> 0 <= draw(n) < n
  }

  lemma {:induction false} SharesPositive(ws: seq<nat>)
    requires ws != [] && ws[|ws| - 1] > 0
    ensures WeightedDraw.Total(ws) > 0
  {
  }

  lemma SharesDrawable(cs: seq<Candidate>, remaining: seq<int>, tier: seq<nat>)
    requires Drawable(cs, remaining, tier) && tier != []
    ensures WeightedDraw.Total(Shares(cs, remaining, tier)) > 0
  {
    var last := |tier| - 1;
    var c := cs[tier[last]];
    var allowance := if c.rpm == 0 then LargestAllowance(remaining, tier) else remaining[tier[last]];
    assert ValidCandidate(c);
    assert c.weight * allowance >= 1 by { ProductPositive(c.weight, allowance); }
    SharesPositive(Shares(cs, remaining, tier));
  }

  lemma ProductPositive(a: int, b: int)
    requires a >= 1 && b >= 1
    ensures a * b >= 1
  {
  }

  /** The position in cs that a draw chooses from a non-empty tier. */
  function Winner(cs: seq<Candidate>, remaining: seq<int>, tier: seq<nat>, draw: int -> int): (i: nat)
    requires Drawable(cs, remaining, tier) && tier != [] && IsDraw(draw)
    ensures i in tier
  {
    SharesDrawable(cs, remaining, tier);
    var ws := Shares(cs, remaining, tier);
    tier[WeightedDraw.Owner(ws, draw(WeightedDraw.Total(ws)))]
  }

  function TicketFor(c: Candidate, s: State, settings: Settings, now: int, single: bool): Ticket {
    Ticket(c.id, c.signature, now, !single && s.health.until != ZERO_TIME, single,
           settings.FailureThreshold(), settings.FailureCooldown())
  }

  /** The end of acquireRoute: nothing to choose from, or the winner of the draw with its slot. */
  function Grant(routes: Routes, remaining: seq<int>, rpmBlocked: bool, cs: seq<Candidate>, tier: seq<nat>,
                 deadline: int, settings: Settings, now: int, draw: int -> int)
    : (Routes, Acquired)
    requires Drawable(cs, remaining, tier) && IsDraw(draw)
    requires forall i :: i in tier ==> cs[i].id in routes
  {
    if tier == [] then (routes, if rpmBlocked then RpmExceeded else Unavailable)
    else
      var i := Winner(cs, remaining, tier, draw);
      var c := cs[i];
      var t := TicketFor(c, routes[c.id], settings, now, |cs| == 1);
      (routes[c.id := Take(routes[c.id], t.probe)], Leased(i, t, deadline))
  }

  /** acquireRoute as one atomic step on the shared table and the request's planner. */
  function Acquire(routes: Routes, slotsFull: bool, cs: seq<Candidate>, settings: Settings, used: set<string>,
                   now: int, draw: int -> int, progress: Option<Progress>)
    : (result: (Routes, Option<Progress>, Acquired))
    requires ValidCandidates(cs) && IsDraw(draw)
  {
    if slotsFull then (routes, progress, Overloaded)
    else
      var s := Scan(routes, cs, used, now, |cs|);
      var (progress', tier, deadline) := Narrow(progress, cs, s.eligible, settings, now);
      TierIsUsable(progress, cs, s, settings, now);
      var (routes', acquired) := Grant(s.routes, s.remaining, s.rpmBlocked, cs, tier, deadline, settings, now, draw);
      (routes', progress', acquired)
  }

  lemma TierIsEligible(progress: Option<Progress>, cs: seq<Candidate>, eligible: seq<nat>,
                       settings: Settings, now: int, i: nat)
    requires Positions(eligible, cs) && ValidCandidates(cs)
    requires i in Narrow(progress, cs, eligible, settings, now).1
    ensures i in eligible
  {
    if progress.Some? {
      TierSelection(progress.value, cs, eligible, settings, now);
    }
  }

  lemma TierIsUsable(progress: Option<Progress>, cs: seq<Candidate>, s: Scanned, settings: Settings, now: int)
    requires ValidCandidates(cs) && |s.remaining| == |cs| && Positions(s.eligible, cs)
    requires forall i :: i in s.eligible ==>
      cs[i].id in s.routes && 0 <= s.remaining[i] && (cs[i].rpm > 0 ==> 0 < s.remaining[i])
    ensures var tier := Narrow(progress, cs, s.eligible, settings, now).1;
            Drawable(cs, s.remaining, tier) && forall i :: i in tier ==> i in s.eligible && cs[i].id in s.routes
  {
    var tier := Narrow(progress, cs, s.eligible, settings, now).1;
    forall i | i in tier
      ensures i in s.eligible
    {
      TierIsEligible(progress, cs, s.eligible, settings, now, i);
    }
    assert forall k :: 0 <= k < |tier| ==> tier[k] in tier;
  }

  /** Inside a tier each member is chosen by exactly weight times allowance of the possible draws, where
      an unlimited channel's allowance is the largest in the tier. */
  lemma ChosenInProportion(cs: seq<Candidate>, remaining: seq<int>, tier: seq<nat>, k: nat, draw: int -> int)
    requires Drawable(cs, remaining, tier) && k < |tier| && IsDraw(draw)
    ensures var ws := Shares(cs, remaining, tier);
            |WeightedDraw.DrawsFor(ws, k)|
            == cs[tier[k]].weight
               * (if cs[tier[k]].rpm == 0 then LargestAllowance(remaining, tier) else remaining[tier[k]])
            && (draw(WeightedDraw.Total(ws)) in WeightedDraw.DrawsFor(ws, k) ==>
                  Winner(cs, remaining, tier, draw) == tier[k])
  {
    WeightedDraw.DrawShare(Shares(cs, remaining, tier), k);
  }

  /** The same inspection on the shared state itself. */
  method InspectState(st: ChannelState, c: Candidate, now: int, single: bool) returns (verdict: Verdict)
    modifies st
    ensures (st.View(), verdict) == Inspect(old(st.View()), c, now, single)
  {
    if c.revision < st.revision {
      return Stale;
    }
    st.AdoptConnection(c.revision, c.signature);
    if (!single && (st.until > now || st.probe)) || st.inFlight >= c.maxConcurrency {
      return Busy;
    }
    var usedRPM := st.TrimWindow(now);
    if c.rpm > 0 {
      var left := c.rpm - usedRPM;
      if left <= 0 {
        return WindowFull;
      }
      return Usable(left);
    }
    return Usable(0);
  }

  /** The largest remaining allowance of a tier, at least one. */
  method UnlimitedWeight(remaining: seq<int>, tier: seq<nat>) returns (m: int)
    requires forall k :: 0 <= k < |tier| ==> tier[k] < |remaining|
    ensures m == LargestAllowance(remaining, tier)
  {
    m := 1;
    for k := 0 to |tier|
      invariant m == LargestAllowance(remaining, tier[..k])
    {
      assert tier[..k + 1][..k] == tier[..k];
      m := Max(m, remaining[tier[k]]);
    }
    assert tier[..|tier|] == tier;
  }

  /** The shares of a tier and their total. */
  method TierWeights(cs: seq<Candidate>, remaining: seq<int>, tier: seq<nat>) returns (weights: seq<nat>, weight: nat)
    requires Drawable(cs, remaining, tier)
    ensures weights == Shares(cs, remaining, tier) && weight == WeightedDraw.Total(weights)
  {
    var unlimitedWeight := UnlimitedWeight(remaining, tier);
    weights, weight := [], 0;
    for k := 0 to |tier|
      invariant |weights| == k && weight == WeightedDraw.Total(weights)
      invariant forall j :: 0 <= j < k ==> weights[j] == Share(cs[tier[j]], remaining[tier[j]], unlimitedWeight)
    {
      var share := Share(cs[tier[k]], remaining[tier[k]], unlimitedWeight);
      assert (weights + [share])[..k] == weights;
      weights, weight := weights + [share], weight + share;
    }
  }

  /** The weighted draw of acquireRoute: shares and their total first, then the subtracting walk. */
  method DrawMember(cs: seq<Candidate>, remaining: seq<int>, tier: seq<nat>, draw: int -> int) returns (chosen: nat)
    requires Drawable(cs, remaining, tier) && tier != [] && IsDraw(draw)
    ensures chosen == Winner(cs, remaining, tier, draw)
  {
    var weights, weight := TierWeights(cs, remaining, tier);
    SharesDrawable(cs, remaining, tier);
    var pick := draw(weight);
    var k := WeightedDraw.Choose(weights, pick);
    WeightedDraw.OwnerUnique(weights, k, WeightedDraw.Owner(weights, pick), pick);
    chosen := tier[k];
  }

  lemma UpdatedTwice<K, V>(m: map<K, V>, k: K, v: V, last: V)
    ensures m[k := v][k := last] == m[k := last]
  {
  }

  class Engine {
    var routes: map<string, ChannelState>
    var slotsInUse: nat
    const slotCount: nat

    /** Every channel has a state of its own. */
    ghost predicate Valid()
      reads this
    {
      forall a, b :: a in routes && b in routes && a != b ==> routes[a] != routes[b]
    }

    function View(): Routes
      reads this, routes.Values
    {
      map id | id in routes :: routes[id].View()
    }

    constructor (slotCount: nat)
      ensures Valid() && View() == map[]
    {
      this.slotCount := slotCount;
      routes, slotsInUse := map[], 0;
    }

    lemma OneStateChanged(before: Routes, id: string)
      requires Valid() && id in routes && before.Keys == routes.Keys
      requires forall k :: k in routes && k != id ==> before[k] == routes[k].View()
      ensures View() == before[id := routes[id].View()]
    {
    }

    /** The state of a channel, created on first sight. */
    method StateFor(id: string) returns (st: ChannelState)
      requires Valid()
      modifies this`routes
      ensures Valid() && id in routes && routes[id] == st
      ensures id in old(routes) ==> routes == old(routes)
      ensures id !in old(routes) ==> fresh(st) && routes == old(routes)[id := st]
      ensures View() == old(View())[id := GetOr(old(View()), id, NEW)]
    {
      if id in routes {
        st := routes[id];
      } else {
        st := new ChannelState();
        routes := routes[id := st];
      }
    }

    /** One round of the first loop for a channel that was not used yet. */
    method InspectInPlace(c: Candidate, now: int, single: bool) returns (verdict: Verdict)
      requires Valid()
      modifies this`routes, routes.Values
      ensures Valid() && old(routes).Keys <= routes.Keys
      ensures forall id :: id in old(routes) ==> routes[id] == old(routes[id])
      ensures forall id :: id in routes && id !in old(routes) ==> fresh(routes[id])
      ensures var (state, v) := Inspect(GetOr(old(View()), c.id, NEW), c, now, single);
              View() == old(View())[c.id := state] && verdict == v
    {
      var st := StateFor(c.id);
      ghost var before := View();
      verdict := InspectState(st, c, now, single);
      OneStateChanged(before, c.id);
      UpdatedTwice(old(View()), c.id, GetOr(old(View()), c.id, NEW), st.View());
    }

    /** The first loop over all candidates. */
    method ScanAll(cs: seq<Candidate>, used: set<string>, now: int)
      returns (remaining: seq<int>, eligible: seq<nat>, rpmBlocked: bool)
      requires Valid() && ValidCandidates(cs)
      modifies this`routes, routes.Values
      ensures Valid()
      ensures forall id :: id in old(routes) ==> id in routes && routes[id] == old(routes[id])
      ensures forall id :: id in routes && id !in old(routes) ==> fresh(routes[id])
      ensures Scanned(View(), remaining, eligible, rpmBlocked) == Scan(old(View()), cs, used, now, |cs|)
    {
      var singleChannel := |cs| == 1;
      remaining, eligible, rpmBlocked := [], [], false;
      for i := 0 to |cs|
        invariant Valid()
        invariant forall id :: id in old(routes) ==> id in routes && routes[id] == old(routes[id])
        invariant forall id :: id in routes && id !in old(routes) ==> fresh(routes[id])
        invariant Scanned(View(), remaining, eligible, rpmBlocked) == Scan(old(View()), cs, used, now, i)
      {
        var c := cs[i];
        if c.id in used {
          remaining := remaining + [0];
          continue;
        }
        var verdict := InspectInPlace(c, now, singleChannel);
        match verdict
        case Usable(left) =>
          remaining, eligible := remaining + [left], eligible + [i];
        case WindowFull =>
          remaining, rpmBlocked := remaining + [0], true;
        case _ =>
          remaining := remaining + [0];
      }
    }

    /** The reservation of the winner. */
    method TakeChannel(c: Candidate, settings: Settings, now: int, single: bool) returns (t: Ticket)
      requires Valid() && c.id in routes
      modifies routes[c.id]
      ensures t == TicketFor(c, old(View())[c.id], settings, now, single)
      ensures View() == old(View())[c.id := Take(old(View())[c.id], t.probe)]
    {
      ghost var before := View();
      var st := routes[c.id];
      var isProbe := !single && st.until != ZERO_TIME;
      t := TicketFor(c, st.View(), settings, now, single);
      st.TakeSlot(isProbe);
      OneStateChanged(before, c.id);
    }

    /** What happens once the tier is known. */
    method GrantInPlace(cs: seq<Candidate>, remaining: seq<int>, rpmBlocked: bool, tier: seq<nat>, deadline: int,
                        settings: Settings, now: int, draw: int -> int) returns (r: Acquired)
      requires Valid() && Drawable(cs, remaining, tier) && IsDraw(draw)
      requires forall i :: i in tier ==> cs[i].id in routes
      modifies routes.Values
      ensures (View(), r)
              == Grant(old(View()), remaining, rpmBlocked, cs, tier, deadline, settings, now, draw)
    {
      if |tier| == 0 {
        return if rpmBlocked then RpmExceeded else Unavailable;
      }
      var chosen := DrawMember(cs, remaining, tier, draw);
      var ticket := TakeChannel(cs[chosen], settings, now, |cs| == 1);
      return Leased(chosen, ticket, deadline);
    }

    ghost function PlanOf(progress: RouteProgress?): Option<Progress>
      reads progress
    {
      if progress == null then None else Some(progress.View())
    }

    /** The tier to draw from, by the planner when the request has one. */
    method NarrowInPlace(cs: seq<Candidate>, eligible: seq<nat>, settings: Settings, now: int, progress: RouteProgress?)
      returns (tier: seq<nat>, deadline: int)
      requires Positions(eligible, cs) && ValidCandidates(cs)
      modifies if progress == null then {} else {progress}
      ensures (PlanOf(progress), tier, deadline) == Narrow(old(PlanOf(progress)), cs, eligible, settings, now)
      ensures View() == old(View())
    {
      if progress != null {
        tier, deadline := progress.SelectTierInPlace(cs, eligible, settings, now);
      } else {
        tier, deadline := OnLevel(cs, eligible, Highest(cs, eligible, {})), ZERO_TIME;
      }
    }

    /** acquireRoute, holding the lock throughout. */
    method AcquireRoute(cs: seq<Candidate>, settings: Settings, used: set<string>, now: int, draw: int -> int,
                        progress: RouteProgress?) returns (r: Acquired)
      requires Valid() && ValidCandidates(cs) && IsDraw(draw)
      modifies this`routes, routes.Values, if progress == null then {} else {progress}
      ensures Valid()
      ensures forall id :: id in old(routes) ==> id in routes && routes[id] == old(routes[id])
      ensures forall id :: id in routes && id !in old(routes) ==> fresh(routes[id])
      ensures (View(), PlanOf(progress), r)
              == Acquire(old(View()), slotsInUse >= slotCount, cs, settings, used, now, draw, old(PlanOf(progress)))
    {
      if slotsInUse >= slotCount {
        return Overloaded;
      }
      var remaining, eligible, rpmBlocked := ScanAll(cs, used, now);
      ghost var s := Scanned(View(), remaining, eligible, rpmBlocked);
      TierIsUsable(PlanOf(progress), cs, s, settings, now);
      var tier, deadline := NarrowInPlace(cs, eligible, settings, now, progress);
      r := GrantInPlace(cs, remaining, rpmBlocked, tier, deadline, settings, now, draw);
    }

    /** The release closure: the ticket's channel is still the table's entry, since entries are never
        removed or replaced. */
    method ReleaseRoute(t: Ticket, attemptAt: int, o: Outcome, sent: bool, clock: int)
      requires Valid() && t.channel in routes
      modifies routes[t.channel]
      ensures View() == old(View())[t.channel := Release(old(View())[t.channel], t, attemptAt, o, sent, clock)]
    {
      ghost var before := View();
      routes[t.channel].ReleaseSlot(t, attemptAt, o, sent, clock);
      OneStateChanged(before, t.channel);
    }

    method ResetChannel(id: string)
      requires Valid()
      modifies routes.Values
      ensures View() == if id in old(View()) then old(View())[id := Reset(old(View())[id])] else old(View())
    {
      if id in routes {
        ghost var before := View();
        routes[id].ResetConnection();
        OneStateChanged(before, id);
      }
    }

    /** channelHealth also trims the window it reports. */
    method WindowReport(id: string, now: int) returns (used: int)
      requires Valid()
      modifies routes.Values
      ensures View() == if id in old(View())
                        then old(View())[id := old(View())[id].(rpmCalls := Pruned(old(View())[id].rpmCalls, now))]
                        else old(View())
      ensures used == if id in old(View()) then RpmUsed(old(View())[id], now) else 0
    {
      used := 0;
      if id in routes {
        ghost var before := View();
        used := routes[id].TrimWindow(now);
        OneStateChanged(before, id);
      }
    }
  }
}
