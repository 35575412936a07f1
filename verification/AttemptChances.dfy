/** Whether a request ever ends while calls are left and an untried channel could be called. The planner gives a
    level up for good (route_failover.go:55-60), so it can: exactly when calls and channels leave room for it. */
module AttemptChances {
  import opened Base
  import opened Loops
  import opened Channel
  import opened UsageReports
  import opened Routing
  import opened RouteFailover
  import opened Router
  import opened RouterChoice
  import opened AttemptLoop
  import opened AttemptReasons
  import R = RouterRuns

  /** Calls are left, nothing cancels the request, a slot is free and an untried channel could be called now; and
      the iteration tries none. */
  predicate Misses(cs: seq<Candidate>, settings: Settings, limit: int, r: Round, st: Standing)
    requires ValidCandidates(cs) && IsDraw(r.draw)
  {
    st.tally.count < limit && !r.cancelled && !r.slotsFull && AnyCallable(r.routes, cs, st.taken, r.now)
    && AfterRound(cs, settings, st, r).1.taken == st.taken
  }

  /** The exact condition for one iteration: it misses its chance if and only if every untried channel that could
      be called is on a level given up. */
  lemma MissedExactly(cs: seq<Candidate>, settings: Settings, limit: int, r: Round, st: Standing)
    requires ValidCandidates(cs) && R.DistinctChannels(cs) && IsDraw(r.draw)
    ensures Misses(cs, settings, limit, r, st)
            <==> st.tally.count < limit && !r.cancelled && !r.slotsFull && AnyCallable(r.routes, cs, st.taken, r.now)
                 && !AnyOpen(r.routes, cs, st.taken, r.now, st.tally.progress.skipped)
  {
    RoundDecides(cs, settings, st, r, "");
  }

  /** The request misses no chance, wherever it goes on to. */
  ghost predicate NeverMisses(cs: seq<Candidate>, settings: Settings, limit: int, deadline: int, env: nat -> Round)
    requires Request(cs, env)
  {
    var pass := Pass(cs, settings, limit, env);
    forall n :: GoesOn(pass, 0, Start(limit, deadline), n) ==>
      !Misses(cs, settings, limit, env(n), After(pass, 0, Start(limit, deadline), n))
  }

  /** No two channels share a level that has a lower one behind it. */
  predicate NoSpareAbove(cs: seq<Candidate>) {
    forall i, j, k :: 0 <= i < j < |cs| && 0 <= k < |cs| && cs[i].priority == cs[j].priority ==>
      cs[k].priority <= cs[i].priority
  }

  // ---------- Where no level is ever given up ----------

  /** A channel of the level was tried. */
  predicate Touched(cs: seq<Candidate>, taken: set<string>, level: int) {
    exists i :: 0 <= i < |cs| && cs[i].priority == level && cs[i].id in taken
  }

  /** Only levels that were tried have calls or time on their account, and time only where calls are to spare. */
  ghost predicate Accounts(p: Progress, cs: seq<Candidate>, taken: set<string>) {
    forall level ::
      (GetOr(p.attempts, level, 0) > 0 ==> p.totalAttempts >= 1 && Touched(cs, taken, level))
      && (GetOr(p.deadlines, level, ZERO_TIME) != ZERO_TIME ==> p.maxAttempts >= 2 && Touched(cs, taken, level))
  }

  ghost predicate Untroubled(cs: seq<Candidate>, limit: int, st: Standing) {
    var p := st.tally.progress;
    p.skipped == {} && p.maxAttempts == limit && p.totalAttempts == st.tally.count >= 0 && Accounts(p, cs, st.taken)
  }

  lemma OnlyChannelUntried(cs: seq<Candidate>, taken: set<string>, i: nat, k: nat)
    requires NoSpareAbove(cs) && i < |cs| && k < |cs| && cs[i].priority < cs[k].priority && cs[i].id !in taken
    ensures !Touched(cs, taken, cs[i].priority)
  {
    forall j | 0 <= j < |cs| && cs[j].priority == cs[i].priority
      ensures cs[j].id !in taken
    {
      assert j == i;
    }
  }

  /** A level out of calls or time has no untried channel left in front of a lower level. */
  lemma UsedUpIsTaken(cs: seq<Candidate>, settings: Settings, taken: set<string>, p: Progress, now: int, i: nat, k: nat)
    requires settings.Valid() && 0 <= p.totalAttempts < p.maxAttempts && Accounts(p, cs, taken)
    requires p.maxAttempts <= 1 || NoSpareAbove(cs)
    requires i < |cs| && k < |cs| && cs[i].priority < cs[k].priority && cs[i].id !in taken
    ensures !Exhausted(p, cs[i].priority, settings, now)
  {
    if p.maxAttempts >= 2 {
      OnlyChannelUntried(cs, taken, i, k);
    }
  }

  lemma NothingSkipped(cs: seq<Candidate>, settings: Settings, taken: set<string>, p: Progress, eligible: seq<nat>,
                       now: int)
    requires ValidCandidates(cs) && settings.Valid() && Positions(eligible, cs)
    requires forall i :: i in eligible ==> cs[i].id !in taken
    requires p.maxAttempts <= 1 || NoSpareAbove(cs)
    requires p.skipped == {} && 0 <= p.totalAttempts < p.maxAttempts && Accounts(p, cs, taken)
    ensures SelectTier(p, cs, eligible, settings, now).progress.skipped == {}
  {
    var c := SelectTier(p, cs, eligible, settings, now);
    TierSelection(p, cs, eligible, settings, now);
    forall l | l in c.progress.skipped
      ensures false
    {
      var level := LevelOf(cs, c.tier);
      assert GivenUp(p, cs, eligible, settings, now, level, l);
      var i :| i in eligible && cs[i].priority == l;
      assert c.tier[0] in c.tier;
      UsedUpIsTaken(cs, settings, taken, p, now, i, c.tier[0]);
    }
  }

  lemma PlannedAccounts(cs: seq<Candidate>, settings: Settings, taken: set<string>, p: Progress, eligible: seq<nat>,
                        now: int, i: nat)
    requires ValidCandidates(cs) && Positions(eligible, cs) && p.skipped == {} && 0 <= p.totalAttempts
    requires Accounts(p, cs, taken)
    requires var c := SelectTier(p, cs, eligible, settings, now); c.progress.skipped == {} && i in c.tier
    ensures i < |cs| && Accounts(SelectTier(p, cs, eligible, settings, now).progress, cs, taken + {cs[i].id})
  {
    var c := SelectTier(p, cs, eligible, settings, now);
    TierSelection(p, cs, eligible, settings, now);
    SelectionKeepsCounters(p, cs, eligible, settings, now);
    assert p.(skipped := {}) == p;
    assert cs[i].priority == LevelOf(cs, c.tier);
    forall level
      ensures Touched(cs, taken, level) || level == cs[i].priority ==> Touched(cs, taken + {cs[i].id}, level)
    {
    }
  }

  lemma JoinedAccounts(t: Tally, cs: seq<Candidate>, taken: set<string>, i: nat, a: Attempt)
    requires i < |cs| && cs[i].id in taken && Accounts(t.progress, cs, taken) && 0 <= t.progress.totalAttempts
    ensures Accounts(Joined(t, cs[i].priority, a).progress, cs, taken)
  {
    assert Touched(cs, taken, cs[i].priority);
  }

  /** Whatever the channel met. */
  lemma TryingStaysUntroubled(cs: seq<Candidate>, limit: int, r: Round, st: Standing, i: nat)
    requires i < |cs| && Untroubled(cs, limit, st.(taken := st.taken + {cs[i].id}))
    ensures Untroubled(cs, limit, Tried(cs[i], r, st).1)
  {
    JoinedAccounts(st.tally, cs, st.taken + {cs[i].id}, i, AttemptOf(cs[i], r));
  }

  lemma PlanningStaysUntroubled(cs: seq<Candidate>, settings: Settings, limit: int, st: Standing, eligible: seq<nat>,
                                now: int, i: nat)
    requires ValidCandidates(cs) && settings.Valid() && Positions(eligible, cs) && (limit <= 1 || NoSpareAbove(cs))
    requires forall i :: i in eligible ==> cs[i].id !in st.taken
    requires Untroubled(cs, limit, st) && st.tally.count < limit
    requires i in SelectTier(st.tally.progress, cs, eligible, settings, now).tier
    ensures i < |cs|
    ensures var p := SelectTier(st.tally.progress, cs, eligible, settings, now).progress;
            Untroubled(cs, limit, Standing(st.taken + {cs[i].id}, st.lastErr, st.tally.(progress := p)))
  {
    NothingSkipped(cs, settings, st.taken, st.tally.progress, eligible, now);
    PlannedAccounts(cs, settings, st.taken, st.tally.progress, eligible, now, i);
    SelectionKeepsCounters(st.tally.progress, cs, eligible, settings, now);
  }

  lemma EligibleAreUntried(routes: Routes, cs: seq<Candidate>, used: set<string>, now: int)
    requires ValidCandidates(cs)
    ensures forall i :: i in Scan(routes, cs, used, now, |cs|).eligible ==> cs[i].id !in used
  {
  }

  lemma RoundStaysUntroubled(cs: seq<Candidate>, settings: Settings, limit: int, r: Round, st: Standing)
    requires ValidCandidates(cs) && IsDraw(r.draw) && settings.Valid() && (limit <= 1 || NoSpareAbove(cs))
    requires Untroubled(cs, limit, st) && st.tally.count < limit && AfterRound(cs, settings, st, r).0.None?
    ensures Untroubled(cs, limit, AfterRound(cs, settings, st, r).1)
  {
    var p := st.tally.progress;
    var (progress, acquired) := AcquiredIn(cs, settings, st, r);
    assert !r.slotsFull && acquired.Leased?;
    AcquisitionPlans(r.routes, cs, settings, st.taken, r.now, r.draw, p);
    EligibleAreUntried(r.routes, cs, st.taken, r.now);
    var eligible := Scan(r.routes, cs, st.taken, r.now, |cs|).eligible;
    PlanningStaysUntroubled(cs, settings, limit, st, eligible, r.now, acquired.index);
    TryingStaysUntroubled(cs, limit, r, st.(tally := st.tally.(progress := progress.value)), acquired.index);
  }

  ghost function IsUntroubled(cs: seq<Candidate>, limit: int): (nat, Standing) -> bool {
    (k: nat, st: Standing) => Untroubled(cs, limit, st)
  }

  lemma PassesKeepUntroubled(cs: seq<Candidate>, settings: Settings, limit: int, env: nat -> Round)
    requires Request(cs, env) && settings.Valid() && (limit <= 1 || NoSpareAbove(cs))
    ensures Keeps(Pass(cs, settings, limit, env), IsUntroubled(cs, limit))
  {
    var pass, calm := Pass(cs, settings, limit, env), IsUntroubled(cs, limit);
    forall k: nat, st | calm(k, st) && pass(k, st).0.None?
      ensures calm(k + 1, pass(k, st).1)
    {
      RoundStaysUntroubled(cs, settings, limit, env(k), st);
    }
  }

  lemma UntroubledMissesNothing(cs: seq<Candidate>, settings: Settings, limit: int, r: Round, st: Standing)
    requires ValidCandidates(cs) && R.DistinctChannels(cs) && IsDraw(r.draw) && Untroubled(cs, limit, st)
    ensures !Misses(cs, settings, limit, r, st)
  {
    MissedExactly(cs, settings, limit, r, st);
  }

  /** With one call, or no spare channel above a lower level, no request misses a chance, whatever it meets. */
  lemma NothingMissed(cs: seq<Candidate>, settings: Settings, limit: int, deadline: int, env: nat -> Round)
    requires Request(cs, env) && settings.Valid() && (limit <= 1 || NoSpareAbove(cs))
    ensures NeverMisses(cs, settings, limit, deadline, env)
  {
    var pass, start := Pass(cs, settings, limit, env), Start(limit, deadline);
    PassesKeepUntroubled(cs, settings, limit, env);
    forall n | GoesOn(pass, 0, start, n)
      ensures !Misses(cs, settings, limit, env(n), After(pass, 0, start, n))
    {
      StaysKept(pass, IsUntroubled(cs, limit), 0, start, n);
      UntroubledMissesNothing(cs, settings, limit, env(n), After(pass, 0, start, n));
    }
  }

  // ---------- Where a level is given up with a spare channel on it ----------

  /** A table in which just these candidates can be called: the others have no slot left. */
  function TableFor(cs: seq<Candidate>, free: set<nat>): Routes
    requires R.DistinctChannels(cs)
  {
    map i | 0 <= i < |cs| :: cs[i].id :=
      NEW.(revision := cs[i].revision, inFlight := if i in free then 0 else cs[i].maxConcurrency)
  }

  lemma TableFinds(cs: seq<Candidate>, free: set<nat>, used: set<string>, now: int, i: nat)
    requires ValidCandidates(cs) && R.DistinctChannels(cs) && 0 <= now && i < |cs|
    ensures Callable(TableFor(cs, free), cs, used, now, i) <==> cs[i].id !in used && i in free
    ensures !Blocked(TableFor(cs, free), cs, used, now, i)
  {
    var table := TableFor(cs, free);
    assert cs[i].id in table && table[cs[i].id].revision == cs[i].revision;
    assert table[cs[i].id].inFlight == if i in free then 0 else cs[i].maxConcurrency;
  }

  function Lowest(): int -> int {
    (n: int) => 0
  }

  /** An iteration whose channel an administrator has stopped meanwhile: it is given back, not called. */
  function Stop(cs: seq<Candidate>, free: set<nat>, now: int): Round
    requires R.DistinctChannels(cs)
  {
    Round(false, TableFor(cs, free), false, now, Lowest(), Stopped, SameKey, None, NO_USAGE, None, false, true)
  }

  lemma StoppedMoves(cs: seq<Candidate>, st: Standing, r: Round, progress: Progress, acquired: Acquired)
    requires r.recheck.Stopped? && acquired.Leased? && acquired.index < |cs|
    ensures Continued(cs, st, r, Some(progress), acquired)
            == (None, Standing(st.taken + {cs[acquired.index].id}, st.lastErr, st.tally.(progress := progress)))
  {
  }

  /** What such an iteration leaves: one channel more used up, and the planner's new state. */
  lemma StopMoves(cs: seq<Candidate>, settings: Settings, st: Standing, free: set<nat>, now: int) returns (i: nat)
    requires ValidCandidates(cs) && R.DistinctChannels(cs)
    requires Chosen(TableFor(cs, free), cs, settings, st.taken, now, st.tally.progress).tier != []
    ensures i in Chosen(TableFor(cs, free), cs, settings, st.taken, now, st.tally.progress).tier && i < |cs|
    ensures AfterRound(cs, settings, st, Stop(cs, free, now))
            == (None, Standing(st.taken + {cs[i].id}, st.lastErr, st.tally.(progress :=
                  Chosen(TableFor(cs, free), cs, settings, st.taken, now, st.tally.progress).progress)))
  {
    var r := Stop(cs, free, now);
    var (progress, acquired) := AcquiredIn(cs, settings, st, r);
    assert IsDraw(r.draw);
    AcquisitionPlans(r.routes, cs, settings, st.taken, now, r.draw, st.tally.progress);
    AcquiredIsUnused(r, cs, settings, st.taken, st.tally.progress);
    i := acquired.index;
    StoppedMoves(cs, st, r, progress.value, acquired);
  }

  /** Just these two can be called. */
  predicate Pair(eligible: seq<nat>, i: nat, k: nat) {
    i in eligible && k in eligible && forall x :: x in eligible ==> x == i || x == k
  }

  lemma HighestOfPair(cs: seq<Candidate>, eligible: seq<nat>, skipped: set<int>, i: nat, k: nat)
    requires ValidCandidates(cs) && Positions(eligible, cs) && i < |cs| && k < |cs| && Pair(eligible, i, k)
    requires cs[i].priority < cs[k].priority && cs[k].priority !in skipped
    ensures Highest(cs, eligible, skipped) == if cs[i].priority in skipped then cs[k].priority else cs[i].priority
    ensures cs[i].priority !in skipped ==> HasLower(cs, eligible, skipped, cs[i].priority)
    ensures !HasLower(cs, eligible, skipped, cs[k].priority)
  {
  }

  lemma PlanStartsTime(p: Progress, level: int, tier: seq<nat>, settings: Settings)
    requires settings.Valid() && p.maxAttempts - p.totalAttempts >= 2 && p.deadlines == map[]
    ensures var q := Plan(p, level, tier, true, settings, 1).progress;
            q.skipped == p.skipped && GetOr(q.deadlines, level, ZERO_TIME) != ZERO_TIME
  {
  }

  /** The first of two channels is tried, and its level's time begins to run. */
  lemma FirstPlan(cs: seq<Candidate>, settings: Settings, eligible: seq<nat>, limit: int, deadline: int, i: nat, k: nat)
    requires ValidCandidates(cs) && settings.Valid() && 2 <= limit && Positions(eligible, cs)
    requires i < |cs| && k < |cs| && Pair(eligible, i, k) && cs[i].priority < cs[k].priority
    ensures var c := SelectTier(Initial(limit, deadline), cs, eligible, settings, 1);
            c.tier != [] && (forall x :: x in c.tier ==> x == i)
            && c.progress.skipped == {} && GetOr(c.progress.deadlines, cs[i].priority, ZERO_TIME) != ZERO_TIME
  {
    var p, level := Initial(limit, deadline), cs[i].priority;
    HighestOfPair(cs, eligible, {}, i, k);
    LevelIsInhabited(cs, eligible, {});
    PlanStartsTime(p, level, OnLevel(cs, eligible, level), settings);
    assert SelectTier(p, cs, eligible, settings, 1) == Plan(p, level, OnLevel(cs, eligible, level), true, settings, 1);
  }

  /** Once that time has run out, the level is given up for the lower channel. */
  lemma SecondPlan(cs: seq<Candidate>, settings: Settings, eligible: seq<nat>, p: Progress, now: int, j: nat, k: nat)
    requires ValidCandidates(cs) && Positions(eligible, cs)
    requires j < |cs| && k < |cs| && Pair(eligible, j, k) && cs[j].priority < cs[k].priority
    requires p.skipped == {} && ZERO_TIME != GetOr(p.deadlines, cs[j].priority, ZERO_TIME) <= now
    ensures var c := SelectTier(p, cs, eligible, settings, now);
            c.tier != [] && (forall x :: x in c.tier ==> x == k) && c.progress.skipped == {cs[j].priority}
  {
    var q := p.(skipped := {cs[j].priority});
    HighestOfPair(cs, eligible, {}, j, k);
    HighestOfPair(cs, eligible, {cs[j].priority}, j, k);
    LevelIsInhabited(cs, eligible, {cs[j].priority});
    assert p.(skipped := p.skipped + {cs[j].priority}) == q;
    assert SelectTier(p, cs, eligible, settings, now) == SelectTier(q, cs, eligible, settings, now);
    assert SelectTier(q, cs, eligible, settings, now)
           == Plan(q, cs[k].priority, OnLevel(cs, eligible, cs[k].priority), false, settings, now);
  }

  lemma FreePair(cs: seq<Candidate>, used: set<string>, now: int, i: nat, k: nat)
    requires ValidCandidates(cs) && R.DistinctChannels(cs) && 0 <= now && i < |cs| && k < |cs|
    requires cs[i].id !in used && cs[k].id !in used
    ensures Pair(Scan(TableFor(cs, {i, k}), cs, used, now, |cs|).eligible, i, k)
  {
    var table := TableFor(cs, {i, k});
    var eligible := Scan(table, cs, used, now, |cs|).eligible;
    forall x: nat | x < |cs|
      ensures x in eligible <==> cs[x].id !in used && (x == i || x == k)
    {
      EligibleExactly(table, cs, used, now, x);
      TableFinds(cs, {i, k}, used, now, x);
    }
    assert forall x :: x in eligible ==> x < |cs|;
  }

  /** When the level's time is over. */
  function Later(p: Progress, level: int): int {
    Max(1, GetOr(p.deadlines, level, ZERO_TIME))
  }

  /** The first channel and the lower one can be called, and the first is stopped; when its level's time is over,
      its spare and the lower one can, and the lower one is stopped; then the spare alone can. */
  function Stops(cs: seq<Candidate>, i: nat, j: nat, k: nat, later: int): nat -> Round
    requires R.DistinctChannels(cs)
  {
    (n: nat) => if n == 0 then Stop(cs, {i, k}, 1) else if n == 1 then Stop(cs, {j, k}, later) else Stop(cs, {j}, later)
  }

  lemma StopsDraw(cs: seq<Candidate>, i: nat, j: nat, k: nat, later: int)
    requires ValidCandidates(cs) && R.DistinctChannels(cs)
    ensures Request(cs, Stops(cs, i, j, k, later))
  {
    forall n: nat
      ensures IsDraw(Stops(cs, i, j, k, later)(n).draw)
    {
      var free := if n == 0 then {i, k} else if n == 1 then {j, k} else {j};
      assert Stops(cs, i, j, k, later)(n) == Stop(cs, free, if n == 0 then 1 else later);
      assert Stop(cs, free, if n == 0 then 1 else later).draw == Lowest() && IsDraw(Lowest());
    }
  }

  /** A pass with calls left is an iteration on what the oracle says. */
  lemma PassIs(cs: seq<Candidate>, settings: Settings, limit: int, env: nat -> Round, k: nat, st: Standing,
               result: Option<Option<string>>, next: Standing)
    requires Request(cs, env) && st.tally.count < limit
    requires AfterRound(cs, settings, st, env(k)) == (result, next)
    ensures Pass(cs, settings, limit, env)(k, st) == (result, next)
  {
  }

  /** The planner once the first channel was stopped. */
  function FirstPlanned(cs: seq<Candidate>, settings: Settings, limit: int, deadline: int, i: nat, k: nat): Progress
    requires ValidCandidates(cs) && R.DistinctChannels(cs)
  {
    Chosen(TableFor(cs, {i, k}), cs, settings, {}, 1, Initial(limit, deadline)).progress
  }

  lemma FirstStop(cs: seq<Candidate>, settings: Settings, limit: int, deadline: int, i: nat, k: nat)
    requires ValidCandidates(cs) && R.DistinctChannels(cs) && settings.Valid() && 2 <= limit
    requires i < |cs| && k < |cs| && cs[i].priority < cs[k].priority
    ensures var p := FirstPlanned(cs, settings, limit, deadline, i, k);
            p.skipped == {} && GetOr(p.deadlines, cs[i].priority, ZERO_TIME) != ZERO_TIME
            && AfterRound(cs, settings, Start(limit, deadline), Stop(cs, {i, k}, 1))
               == (None, Standing({cs[i].id}, "no_available_channel", Tally(p, [], 0)))
  {
    FreePair(cs, {}, 1, i, k);
    FirstPlan(cs, settings, Scan(TableFor(cs, {i, k}), cs, {}, 1, |cs|).eligible, limit, deadline, i, k);
    var x := StopMoves(cs, settings, Start(limit, deadline), {i, k}, 1);
    assert {} + {cs[i].id} == {cs[i].id};
  }

  lemma SecondStop(cs: seq<Candidate>, settings: Settings, st: Standing, now: int, j: nat, k: nat)
    requires ValidCandidates(cs) && R.DistinctChannels(cs) && 0 <= now
    requires j < |cs| && k < |cs| && cs[j].priority < cs[k].priority && cs[j].id !in st.taken && cs[k].id !in st.taken
    requires var p := st.tally.progress;
             p.skipped == {} && ZERO_TIME != GetOr(p.deadlines, cs[j].priority, ZERO_TIME) <= now
    ensures var (result, next) := AfterRound(cs, settings, st, Stop(cs, {j, k}, now));
            result.None? && next.taken == st.taken + {cs[k].id} && next.lastErr == st.lastErr
            && (next.tally.count, next.tally.attempts) == (st.tally.count, st.tally.attempts)
            && next.tally.progress.skipped == {cs[j].priority}
  {
    FreePair(cs, st.taken, now, j, k);
    var eligible := Scan(TableFor(cs, {j, k}), cs, st.taken, now, |cs|).eligible;
    SecondPlan(cs, settings, eligible, st.tally.progress, now, j, k);
    var x := StopMoves(cs, settings, st, {j, k}, now);
  }

  lemma NothingFound(cs: seq<Candidate>, settings: Settings, st: Standing, r: Round)
    requires ValidCandidates(cs) && R.DistinctChannels(cs) && IsDraw(r.draw) && !FindsChannel(cs, st, r)
    ensures AfterRound(cs, settings, st, r).1.tally.attempts == st.tally.attempts
  {
    AcquisitionDecides(r.routes, r.slotsFull, cs, settings, st.taken, r.now, r.draw, st.tally.progress);
  }

  /** The spare channel alone can be called, but its level is given up: the request ends. */
  lemma SpareIsShut(cs: seq<Candidate>, settings: Settings, limit: int, st: Standing, now: int, j: nat)
    requires ValidCandidates(cs) && R.DistinctChannels(cs) && 0 <= now && j < |cs| && cs[j].id !in st.taken
    requires st.tally.count < limit && cs[j].priority in st.tally.progress.skipped
    ensures IsDraw(Lowest()) && Misses(cs, settings, limit, Stop(cs, {j}, now), st)
    ensures var (result, next) := AfterRound(cs, settings, st, Stop(cs, {j}, now));
            result == Some(Some(st.lastErr)) && next.tally.attempts == st.tally.attempts
  {
    var table, r := TableFor(cs, {j}), Stop(cs, {j}, now);
    forall x: nat | x < |cs|
      ensures Callable(table, cs, st.taken, now, x) ==> x == j
      ensures !Blocked(table, cs, st.taken, now, x)
    {
      TableFinds(cs, {j}, st.taken, now, x);
    }
    TableFinds(cs, {j}, st.taken, now, j);
    assert Callable(table, cs, st.taken, now, j);
    MissedExactly(cs, settings, limit, r, st);
    assert !AnyOpen(table, cs, st.taken, now, st.tally.progress.skipped);
    RoundDecides(cs, settings, st, r, st.lastErr);
    NothingFound(cs, settings, st, r);
  }

  lemma Apart(cs: seq<Candidate>, a: nat, b: nat)
    requires R.DistinctChannels(cs) && a < |cs| && b < |cs| && a != b
    ensures cs[a].id != cs[b].id
  {
  }

  /** The three standings the request goes through. */
  lemma SpareStandings(cs: seq<Candidate>, settings: Settings, limit: int, deadline: int, i: nat, j: nat, k: nat,
                       later: int) returns (first: Standing, second: Standing, end: Standing)
    requires ValidCandidates(cs) && R.DistinctChannels(cs) && settings.Valid() && 2 <= limit
    requires i < |cs| && j < |cs| && k < |cs| && i != j && cs[i].priority == cs[j].priority < cs[k].priority
    requires later == Later(FirstPlanned(cs, settings, limit, deadline, i, k), cs[i].priority)
    ensures IsDraw(Lowest())
    ensures AfterRound(cs, settings, Start(limit, deadline), Stop(cs, {i, k}, 1)) == (None, first)
    ensures AfterRound(cs, settings, first, Stop(cs, {j, k}, later)) == (None, second)
    ensures AfterRound(cs, settings, second, Stop(cs, {j}, later)) == (Some(Some("no_available_channel")), end)
    ensures Misses(cs, settings, limit, Stop(cs, {j}, later), second)
    ensures first.tally.count == second.tally.count == 0 && end.tally.attempts == []
  {
    var p := FirstPlanned(cs, settings, limit, deadline, i, k);
    Apart(cs, i, j);
    Apart(cs, i, k);
    Apart(cs, j, k);
    FirstStop(cs, settings, limit, deadline, i, k);
    first := Standing({cs[i].id}, "no_available_channel", Tally(p, [], 0));
    SecondStop(cs, settings, first, later, j, k);
    second := AfterRound(cs, settings, first, Stop(cs, {j, k}, later)).1;
    SpareIsShut(cs, settings, limit, second, later, j);
    end := AfterRound(cs, settings, second, Stop(cs, {j}, later)).1;
  }

  lemma SparePasses(cs: seq<Candidate>, settings: Settings, limit: int, deadline: int, i: nat, j: nat, k: nat,
                    later: int) returns (first: Standing, second: Standing, end: Standing)
    requires ValidCandidates(cs) && R.DistinctChannels(cs) && settings.Valid() && 2 <= limit
    requires i < |cs| && j < |cs| && k < |cs| && i != j && cs[i].priority == cs[j].priority < cs[k].priority
    requires later == Later(FirstPlanned(cs, settings, limit, deadline, i, k), cs[i].priority)
    ensures Request(cs, Stops(cs, i, j, k, later))
    ensures var pass := Pass(cs, settings, limit, Stops(cs, i, j, k, later));
            pass(0, Start(limit, deadline)) == (None, first) && pass(1, first) == (None, second)
            && pass(2, second) == (Some(Some("no_available_channel")), end)
    ensures Misses(cs, settings, limit, Stops(cs, i, j, k, later)(2), second) && end.tally.attempts == []
  {
    var env := Stops(cs, i, j, k, later);
    StopsDraw(cs, i, j, k, later);
    first, second, end := SpareStandings(cs, settings, limit, deadline, i, j, k, later);
    PassIs(cs, settings, limit, env, 0, Start(limit, deadline), None, first);
    PassIs(cs, settings, limit, env, 1, first, None, second);
    PassIs(cs, settings, limit, env, 2, second, Some(Some("no_available_channel")), end);
  }

  /** The course of events in which the spare is missed. */
  function SpareCourse(cs: seq<Candidate>, settings: Settings, limit: int, deadline: int, i: nat, j: nat, k: nat)
    : nat -> Round
    requires ValidCandidates(cs) && R.DistinctChannels(cs) && i < |cs|
  {
    Stops(cs, i, j, k, Later(FirstPlanned(cs, settings, limit, deadline, i, k), cs[i].priority))
  }

  /** With a second call and a spare channel above a lower level, there is a course of events in which the request
      ends, no call made, while the spare could be called: the channels tried before it were merely stopped. */
  lemma SpareIsMissed(cs: seq<Candidate>, settings: Settings, limit: int, deadline: int, i: nat, j: nat, k: nat)
    requires ValidCandidates(cs) && R.DistinctChannels(cs) && settings.Valid() && 2 <= limit
    requires i < |cs| && j < |cs| && k < |cs| && i != j && cs[i].priority == cs[j].priority < cs[k].priority
    ensures var env := SpareCourse(cs, settings, limit, deadline, i, j, k);
            Request(cs, env) && !NeverMisses(cs, settings, limit, deadline, env)
            && var (error, end) := Routed(cs, settings, limit, env, 0, Start(limit, deadline));
               error == Some("no_available_channel") && end.tally.attempts == []
  {
    var start, env := Start(limit, deadline), SpareCourse(cs, settings, limit, deadline, i, j, k);
    var later := Later(FirstPlanned(cs, settings, limit, deadline, i, k), cs[i].priority);
    var first, second, end := SparePasses(cs, settings, limit, deadline, i, j, k, later);
    var pass := Pass(cs, settings, limit, env);
    PassesShrink(cs, settings, limit, env);
    ThirdPassEnds(pass, Left(cs), start, first, second, Some("no_available_channel"), end);
  }

  /** The exact condition, for every list of candidates and whatever a request meets: no request ends while calls
      are left and an untried channel could be called, if and only if it has a single call, or no two channels
      share a level that has a lower one behind it. */
  lemma TriesWhateverIsLeft(cs: seq<Candidate>, settings: Settings, limit: int, deadline: int)
    requires ValidCandidates(cs) && R.DistinctChannels(cs) && settings.Valid()
    ensures (forall env :: Request(cs, env) ==> NeverMisses(cs, settings, limit, deadline, env))
            <==> limit <= 1 || NoSpareAbove(cs)
  {
    if limit <= 1 || NoSpareAbove(cs) {
      forall env | Request(cs, env)
        ensures NeverMisses(cs, settings, limit, deadline, env)
      {
        NothingMissed(cs, settings, limit, deadline, env);
      }
    } else {
      var i, j, k :| 0 <= i < j < |cs| && 0 <= k < |cs| && cs[i].priority == cs[j].priority < cs[k].priority;
      SpareIsMissed(cs, settings, limit, deadline, i, j, k);
      assert Request(cs, SpareCourse(cs, settings, limit, deadline, i, j, k));
    }
  }

  /** The same with calls made, under the default settings: two of three urgent channels were called, so their level
      is given up for the backup; the backup turns out to be stopped; and the third urgent channel, though a call
      is left and no lower one is there any more, is not tried. */
  lemma BackupGone(cs: seq<Candidate>, now: int)
    requires ValidCandidates(cs) && |cs| == 4 && cs[0].priority == cs[1].priority == cs[2].priority < cs[3].priority
    ensures var (settings, level) := (Settings(3, 0, 0, 0, 0), cs[2].priority);
            var p := Progress(map[level := 2], map[], {}, 2, 3, ZERO_TIME);
            SelectTier(p, cs, [2, 3], settings, now) == Choice(p.(skipped := {level}), [3], ZERO_TIME)
            && SelectTier(p.(skipped := {level}), cs, [2], settings, now).tier == []
  {
    var settings, level := Settings(3, 0, 0, 0, 0), cs[2].priority;
    var p := Progress(map[level := 2], map[], {}, 2, 3, ZERO_TIME);
    var both: seq<nat> := [2, 3];
    HighestOfPair(cs, both, {}, 2, 3);
    HighestOfPair(cs, both, {level}, 2, 3);
    assert p.skipped + {level} == {level};
    assert both[..1] == [2] && both[..1][..0] == [];
    assert OnLevel(cs, [], cs[3].priority) == [] && OnLevel(cs, [2], cs[3].priority) == [];
    assert OnLevel(cs, both, cs[3].priority) == [3];
  }
}
