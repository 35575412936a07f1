/** The failover planner of one request (route_failover.go): which priority tier to try next, and how
    much of the request's remaining time the next call may use. */
module RouteFailover {
  import opened Base
  import opened Routing

  datatype Progress = Progress(
    attempts: map<int, int>, deadlines: map<int, int>, skipped: set<int>,
    totalAttempts: int, maxAttempts: int, deadline: int)

  datatype Choice = Choice(progress: Progress, tier: seq<nat>, callDeadline: int)

  function Initial(maxAttempts: int, deadline: int): Progress {
    Progress(map[], map[], {}, 0, maxAttempts, deadline)
  }

  /** The levels that still have an eligible candidate and were not given up. */
  function OpenLevels(cs: seq<Candidate>, eligible: seq<nat>, skipped: set<int>): set<int>
    requires Positions(eligible, cs)
  {
    set i | i in eligible && cs[i].priority !in skipped :: cs[i].priority
  }

  /** The smallest open level, or the sentinel above every level. */
  function Highest(cs: seq<Candidate>, eligible: seq<nat>, skipped: set<int>): (level: int)
    requires Positions(eligible, cs) && ValidCandidates(cs)
    ensures forall i :: i in eligible && cs[i].priority !in skipped ==> level <= cs[i].priority
    ensures level == LOWEST_PRIORITY + 1 || exists i :: i in eligible && cs[i].priority == level && level !in skipped
    ensures level <= LOWEST_PRIORITY + 1
  {
    if eligible == [] then LOWEST_PRIORITY + 1
    else
      var last := eligible[|eligible| - 1];
      var before := Highest(cs, eligible[..|eligible| - 1], skipped);
      assert forall i :: i in eligible[..|eligible| - 1] ==> i in eligible;
      assert last in eligible;
      if cs[last].priority in skipped then before else Min(before, cs[last].priority)
  }

  /** A level has used up its calls, its time, or must leave the last call to a lower level. */
  predicate Exhausted(p: Progress, level: int, settings: Settings, now: int) {
    var attempts := GetOr(p.attempts, level, 0);
    var deadline := GetOr(p.deadlines, level, ZERO_TIME);
    attempts >= settings.MaxAttemptsPerPriority()
    || (p.maxAttempts - p.totalAttempts == 1 && attempts > 0)
    || (deadline != ZERO_TIME && deadline <= now)
  }

  predicate HasLower(cs: seq<Candidate>, eligible: seq<nat>, skipped: set<int>, level: int)
    requires Positions(eligible, cs)
  {
    exists i :: i in eligible && cs[i].priority !in skipped && cs[i].priority > level
  }

  function SelectTier(p: Progress, cs: seq<Candidate>, eligible: seq<nat>, settings: Settings, now: int): Choice
    requires Positions(eligible, cs) && ValidCandidates(cs)
    decreases |OpenLevels(cs, eligible, p.skipped)|
  {
    var level := Highest(cs, eligible, p.skipped);
    var lower := HasLower(cs, eligible, p.skipped, level);
    if level > LOWEST_PRIORITY then Choice(p, [], ZERO_TIME)
    else if lower && Exhausted(p, level, settings, now) then
      SkippingShrinks(cs, eligible, p.skipped, level);
      SelectTier(p.(skipped := p.skipped + {level}), cs, eligible, settings, now)
    else
      Plan(p, level, OnLevel(cs, eligible, level), lower, settings, now)
  }

  /** The time plan once a tier is chosen: half of what is left is held back for another attempt, and a
      tier with a lower one behind it gets a deadline of its own, fixed at its first call. */
  function Plan(p: Progress, level: int, tier: seq<nat>, lower: bool, settings: Settings, now: int): Choice {
    if p.maxAttempts - p.totalAttempts <= 1 || (|tier| == 1 && !lower) then Choice(p, tier, ZERO_TIME)
    else
      var half := if p.deadline != ZERO_TIME then now + Half(p.deadline - now) else ZERO_TIME;
      if !lower then Choice(p, tier, half)
      else
        var known := GetOr(p.deadlines, level, ZERO_TIME);
        var deadline :=
          if known != ZERO_TIME then known
          else if half != ZERO_TIME && half < now + settings.PriorityTimeout() then half
          else now + settings.PriorityTimeout();
        Choice(if known != ZERO_TIME then p else p.(deadlines := p.deadlines[level := deadline]), tier,
               if half == ZERO_TIME || deadline < half then deadline else half)
  }

  lemma SkippingShrinks(cs: seq<Candidate>, eligible: seq<nat>, skipped: set<int>, level: int)
    requires Positions(eligible, cs) && ValidCandidates(cs)
    requires level == Highest(cs, eligible, skipped) <= LOWEST_PRIORITY
    ensures |OpenLevels(cs, eligible, skipped + {level})| < |OpenLevels(cs, eligible, skipped)|
  {
    var before, after := OpenLevels(cs, eligible, skipped), OpenLevels(cs, eligible, skipped + {level});
    assert level in before;
    assert after == before - {level};
  }

  lemma HighestExtends(cs: seq<Candidate>, eligible: seq<nat>, skipped: set<int>, k: nat)
    requires Positions(eligible, cs) && ValidCandidates(cs) && k < |eligible|
    ensures var level, before := cs[eligible[k]].priority, Highest(cs, eligible[..k], skipped);
            Highest(cs, eligible[..k + 1], skipped) == if level in skipped then before else Min(before, level)
  {
    assert eligible[..k + 1][..k] == eligible[..k];
  }

  lemma TierExtends(cs: seq<Candidate>, eligible: seq<nat>, skipped: set<int>, level: int, k: nat)
    requires Positions(eligible, cs) && k < |eligible|
    ensures var own := cs[eligible[k]].priority;
            && OnLevel(cs, eligible[..k + 1], level)
               == OnLevel(cs, eligible[..k], level) + (if own == level then [eligible[k]] else [])
            && HasLower(cs, eligible[..k + 1], skipped, level)
               == (HasLower(cs, eligible[..k], skipped, level) || (own !in skipped && own > level))
  {
    assert eligible[..k + 1][..k] == eligible[..k];
    assert forall i :: i in eligible[..k + 1] <==> i in eligible[..k] || i == eligible[k];
  }

  class RouteProgress {
    var attempts: map<int, int>
    var deadlines: map<int, int>
    var skipped: set<int>
    var totalAttempts: int
    const maxAttempts: int
    const deadline: int

    function View(): Progress
      reads this
    {
      Progress(attempts, deadlines, skipped, totalAttempts, maxAttempts, deadline)
    }

    constructor (maxAttempts: int, deadline: int)
      ensures View() == Initial(maxAttempts, deadline)
    {
      attempts, deadlines, skipped := map[], map[], {};
      totalAttempts, this.maxAttempts, this.deadline := 0, maxAttempts, deadline;
    }

    /** The first scan of the loop: the level to try. */
    method ScanLevels(cs: seq<Candidate>, eligible: seq<nat>) returns (priority: int)
      requires Positions(eligible, cs) && ValidCandidates(cs)
      ensures priority == Highest(cs, eligible, skipped)
    {
      priority := LOWEST_PRIORITY + 1;
      for k := 0 to |eligible|
        invariant priority == Highest(cs, eligible[..k], skipped)
      {
        HighestExtends(cs, eligible, skipped, k);
        var level := cs[eligible[k]].priority;
        if level !in skipped {
          priority := Min(priority, level);
        }
      }
      assert eligible[..|eligible|] == eligible;
    }

    /** The second one: that level's tier, and whether a lower level is open. */
    method ScanTier(cs: seq<Candidate>, eligible: seq<nat>, priority: int) returns (tier: seq<nat>, hasLower: bool)
      requires Positions(eligible, cs) && ValidCandidates(cs) && (priority in skipped ==> priority > LOWEST_PRIORITY)
      ensures tier == OnLevel(cs, eligible, priority) && hasLower == HasLower(cs, eligible, skipped, priority)
    {
      tier, hasLower := [], false;
      for k := 0 to |eligible|
        invariant tier == OnLevel(cs, eligible[..k], priority)
        invariant hasLower == HasLower(cs, eligible[..k], skipped, priority)
      {
        TierExtends(cs, eligible, skipped, priority, k);
        var level := cs[eligible[k]].priority;
        if level in skipped {
          continue;
        }
        if level == priority {
          tier := tier + [eligible[k]];
        } else if level > priority {
          hasLower := true;
        }
      }
      assert eligible[..|eligible|] == eligible;
    }

    /** A level has used up its calls, its time, or must leave the last call to a lower level. */
    method UsedUp(priority: int, settings: Settings, now: int) returns (exhausted: bool)
      ensures exhausted == Exhausted(View(), priority, settings, now)
    {
      var remaining := maxAttempts - totalAttempts;
      var level := GetOr(deadlines, priority, ZERO_TIME);
      var used := GetOr(attempts, priority, 0);
      exhausted := used >= settings.MaxAttemptsPerPriority()
                   || (remaining == 1 && used > 0)
                   || (level != ZERO_TIME && !(now < level));
    }

    method SelectTierInPlace(cs: seq<Candidate>, eligible: seq<nat>, settings: Settings, now: int)
      returns (tier: seq<nat>, callDeadline: int)
      requires Positions(eligible, cs) && ValidCandidates(cs)
      modifies this`skipped, this`deadlines
      ensures Choice(View(), tier, callDeadline) == SelectTier(old(View()), cs, eligible, settings, now)
    {
      while true
        invariant deadlines == old(deadlines)
        invariant SelectTier(View(), cs, eligible, settings, now)
                  == SelectTier(old(View()), cs, eligible, settings, now)
        decreases |OpenLevels(cs, eligible, skipped)|
      {
        var priority := ScanLevels(cs, eligible);
        var hasLower;
        tier, hasLower := ScanTier(cs, eligible, priority);
        if |tier| == 0 {
          return [], ZERO_TIME;
        }
        assert tier[0] in eligible && cs[tier[0]].priority == priority;
        var exhausted := UsedUp(priority, settings, now);
        if !hasLower || !exhausted {
          callDeadline := PlanCall(priority, tier, hasLower, settings, now);
          return;
        }
        SkippingShrinks(cs, eligible, skipped, priority);
        skipped := skipped + {priority};
      }
    }

    /** The rest of one round: whether and until when the chosen tier's call is limited. */
    method PlanCall(priority: int, tier: seq<nat>, hasLower: bool, settings: Settings, now: int)
      returns (callDeadline: int)
      modifies this`deadlines
      ensures Choice(View(), tier, callDeadline) == Plan(old(View()), priority, tier, hasLower, settings, now)
    {
      if maxAttempts - totalAttempts <= 1 || (|tier| == 1 && !hasLower) {
        return ZERO_TIME;
      }
      callDeadline := ZERO_TIME;
      if deadline != ZERO_TIME {
        callDeadline := now + Half(deadline - now);
      }
      if hasLower {
        var level := GetOr(deadlines, priority, ZERO_TIME);
        if level == ZERO_TIME {
          level := now + settings.PriorityTimeout();
          if callDeadline != ZERO_TIME && callDeadline < level {
            level := callDeadline;
          }
          deadlines := deadlines[priority := level];
        }
        if callDeadline == ZERO_TIME || level < callDeadline {
          callDeadline := level;
        }
      }
    }
  }

  // ---------- What the planner promises ----------

  /** The level a tier belongs to. */
  function LevelOf(cs: seq<Candidate>, tier: seq<nat>): int {
    if tier != [] && tier[0] < |cs| then cs[tier[0]].priority else LOWEST_PRIORITY + 1
  }

  ghost predicate Selected(p: Progress, cs: seq<Candidate>, eligible: seq<nat>, settings: Settings, now: int, c: Choice)
    requires Positions(eligible, cs)
  {
    var level := LevelOf(cs, c.tier);
    var q := p.(skipped := c.progress.skipped);
    var lower := HasLower(cs, eligible, q.skipped, level);
    p.skipped <= q.skipped && level !in q.skipped
    && c.tier != [] && c.tier == OnLevel(cs, eligible, level)
    && (forall i :: i in eligible && cs[i].priority !in q.skipped ==> level <= cs[i].priority)
    && !(lower && Exhausted(p, level, settings, now))
    && c == Plan(q, level, c.tier, lower, settings, now)
    && forall l :: l in q.skipped && l !in p.skipped ==> GivenUp(p, cs, eligible, settings, now, level, l)
  }

  /** A level passed over in favour of a less urgent one: eligible, but out of calls or time. */
  ghost predicate GivenUp(p: Progress, cs: seq<Candidate>, eligible: seq<nat>, settings: Settings, now: int,
                          level: int, l: int)
    requires Positions(eligible, cs)
  {
    l < level && Exhausted(p, l, settings, now) && exists i :: i in eligible && cs[i].priority == l
  }

  lemma LevelIsInhabited(cs: seq<Candidate>, eligible: seq<nat>, skipped: set<int>)
    requires Positions(eligible, cs) && ValidCandidates(cs)
    requires Highest(cs, eligible, skipped) <= LOWEST_PRIORITY
    ensures var tier := OnLevel(cs, eligible, Highest(cs, eligible, skipped));
            tier != [] && LevelOf(cs, tier) == Highest(cs, eligible, skipped)
  {
    var i :| i in eligible && cs[i].priority == Highest(cs, eligible, skipped);
    var tier := OnLevel(cs, eligible, Highest(cs, eligible, skipped));
    assert i in tier && tier[0] in tier;
  }

  /** What holds after one level more was given up holds for the whole selection. */
  lemma SelectedAfterSkip(p: Progress, cs: seq<Candidate>, eligible: seq<nat>, settings: Settings, now: int, c: Choice)
    requires Positions(eligible, cs) && ValidCandidates(cs)
    requires var level := Highest(cs, eligible, p.skipped);
             level <= LOWEST_PRIORITY && Exhausted(p, level, settings, now)
             && Selected(p.(skipped := p.skipped + {level}), cs, eligible, settings, now, c)
    ensures Selected(p, cs, eligible, settings, now, c)
  {
    var first := Highest(cs, eligible, p.skipped);
    var level := LevelOf(cs, c.tier);
    assert c.tier[0] in c.tier;
    assert GivenUp(p, cs, eligible, settings, now, level, first);
    forall l | l in c.progress.skipped && l !in p.skipped
      ensures GivenUp(p, cs, eligible, settings, now, level, l)
    {
      if l != first {
        assert GivenUp(p.(skipped := p.skipped + {first}), cs, eligible, settings, now, level, l);
      }
    }
  }

  lemma SelectedAtOnce(p: Progress, cs: seq<Candidate>, eligible: seq<nat>, settings: Settings, now: int)
    requires Positions(eligible, cs) && ValidCandidates(cs)
    requires var level := Highest(cs, eligible, p.skipped);
             level <= LOWEST_PRIORITY
             && !(HasLower(cs, eligible, p.skipped, level) && Exhausted(p, level, settings, now))
    ensures Selected(p, cs, eligible, settings, now, SelectTier(p, cs, eligible, settings, now))
  {
    var level := Highest(cs, eligible, p.skipped);
    LevelIsInhabited(cs, eligible, p.skipped);
    var c := SelectTier(p, cs, eligible, settings, now);
    assert c.progress.skipped == p.skipped;
    assert p.(skipped := p.skipped) == p;
  }

  /** The planner returns all of the most urgent level it has not given up; it gives up only exhausted
      levels with a less urgent one behind them; and it comes back empty-handed exactly when every
      eligible level had been given up before the call. */
  lemma {:induction false} TierSelection(p: Progress, cs: seq<Candidate>, eligible: seq<nat>, settings: Settings,
                                         now: int)
    requires Positions(eligible, cs) && ValidCandidates(cs)
    ensures var c := SelectTier(p, cs, eligible, settings, now);
            if OpenLevels(cs, eligible, p.skipped) == {} then c == Choice(p, [], ZERO_TIME)
            else Selected(p, cs, eligible, settings, now, c)
    decreases |OpenLevels(cs, eligible, p.skipped)|
  {
    var level := Highest(cs, eligible, p.skipped);
    if level > LOWEST_PRIORITY {
      assert OpenLevels(cs, eligible, p.skipped) == {};
    } else {
      assert level in OpenLevels(cs, eligible, p.skipped);
      if !(HasLower(cs, eligible, p.skipped, level) && Exhausted(p, level, settings, now)) {
        SelectedAtOnce(p, cs, eligible, settings, now);
      } else {
        SkippingShrinks(cs, eligible, p.skipped, level);
        var q := p.(skipped := p.skipped + {level});
        var i :| i in eligible && cs[i].priority !in p.skipped && cs[i].priority > level;
        assert cs[i].priority in OpenLevels(cs, eligible, q.skipped);
        TierSelection(q, cs, eligible, settings, now);
        SelectedAfterSkip(p, cs, eligible, settings, now, SelectTier(q, cs, eligible, settings, now));
      }
    }
  }

  /** Planning never touches the call counters. */
  lemma {:induction false} SelectionKeepsCounters(p: Progress, cs: seq<Candidate>, eligible: seq<nat>,
                                                 settings: Settings, now: int)
    requires Positions(eligible, cs) && ValidCandidates(cs)
    ensures var q := SelectTier(p, cs, eligible, settings, now).progress;
            q.totalAttempts == p.totalAttempts && q.attempts == p.attempts
            && q.maxAttempts == p.maxAttempts && q.deadline == p.deadline
    decreases |OpenLevels(cs, eligible, p.skipped)|
  {
    var level := Highest(cs, eligible, p.skipped);
    if level <= LOWEST_PRIORITY && HasLower(cs, eligible, p.skipped, level) && Exhausted(p, level, settings, now) {
      SkippingShrinks(cs, eligible, p.skipped, level);
      SelectionKeepsCounters(p.(skipped := p.skipped + {level}), cs, eligible, settings, now);
    }
  }

  /** While a lower tier could still be called, the chosen tier has calls and time left and does not
      take the request's last call after having had one. */
  lemma BudgetRespected(p: Progress, cs: seq<Candidate>, eligible: seq<nat>, settings: Settings, now: int)
    requires Positions(eligible, cs) && ValidCandidates(cs)
    requires OpenLevels(cs, eligible, p.skipped) != {}
    ensures var c := SelectTier(p, cs, eligible, settings, now);
            var level := LevelOf(cs, c.tier);
            HasLower(cs, eligible, c.progress.skipped, level) ==>
              GetOr(p.attempts, level, 0) < settings.MaxAttemptsPerPriority()
              && !(p.maxAttempts - p.totalAttempts == 1 && GetOr(p.attempts, level, 0) > 0)
              && (GetOr(p.deadlines, level, ZERO_TIME) == ZERO_TIME || now < GetOr(p.deadlines, level, ZERO_TIME))
  {
    TierSelection(p, cs, eligible, settings, now);
  }

  /** Clock reads and deadlines lie after Go's zero time. */
  predicate Timely(p: Progress, settings: Settings, now: int) {
    0 < now && 0 <= p.deadline && settings.Valid()
  }

  /** A tier's deadline is written at most once: one already there is never moved, and at most the
      chosen level gets a new one, set for good and no later than its time budget allows. */
  lemma DeadlineWrittenOnce(p: Progress, cs: seq<Candidate>, eligible: seq<nat>, settings: Settings, now: int, l: int)
    requires Positions(eligible, cs) && ValidCandidates(cs) && Timely(p, settings, now)
    ensures var c := SelectTier(p, cs, eligible, settings, now);
            var (before, after) := (GetOr(p.deadlines, l, ZERO_TIME), GetOr(c.progress.deadlines, l, ZERO_TIME));
            after == before
            || (before == ZERO_TIME && after != ZERO_TIME
                && l == LevelOf(cs, c.tier) && after <= now + settings.PriorityTimeout())
  {
    TierSelection(p, cs, eligible, settings, now);
  }

  /** The call may use at most half of the time the request has left, so the other half remains for
      another attempt; a tier with a lower one behind it also stops at its own deadline. */
  lemma HalfTimeKept(p: Progress, cs: seq<Candidate>, eligible: seq<nat>, settings: Settings, now: int)
    requires Positions(eligible, cs) && ValidCandidates(cs) && Timely(p, settings, now)
    requires p.deadline != ZERO_TIME
    ensures var c := SelectTier(p, cs, eligible, settings, now);
            var level := LevelOf(cs, c.tier);
            c.callDeadline != ZERO_TIME ==>
              c.callDeadline - now <= Half(p.deadline - now)
              && (now <= p.deadline ==> 2 * (p.deadline - c.callDeadline) >= p.deadline - now)
              && (HasLower(cs, eligible, c.progress.skipped, level) ==>
                    c.callDeadline <= GetOr(c.progress.deadlines, level, ZERO_TIME))
  {
    TierSelection(p, cs, eligible, settings, now);
  }

  /** A level is given up only for a lower one, and only when it has used up its calls (two unless set otherwise), its
      time, or has had a call and only one is left; and the level chosen in front of a lower one is not so. */
  lemma LevelBudget(p: Progress, cs: seq<Candidate>, eligible: seq<nat>, settings: Settings, now: int, l: int)
    requires Positions(eligible, cs) && ValidCandidates(cs) && OpenLevels(cs, eligible, p.skipped) != {}
    ensures var c := SelectTier(p, cs, eligible, settings, now);
            var level := LevelOf(cs, c.tier);
            var calls := if settings.attemptsPerPriority == 0 then 2 else settings.attemptsPerPriority;
            var had := GetOr(p.attempts, l, 0);
            var time := GetOr(p.deadlines, l, ZERO_TIME);
            var usedUp := had >= calls || (p.maxAttempts - p.totalAttempts == 1 && had > 0)
                          || (time != ZERO_TIME && time <= now);
            && (l in c.progress.skipped && l !in p.skipped ==> l < level && usedUp)
            && (l == level && HasLower(cs, eligible, c.progress.skipped, level) ==> !usedUp)
  {
    TierSelection(p, cs, eligible, settings, now);
  }

  /** Half of what the request has left, added to the present. */
  function HalfWay(p: Progress, now: int): (h: int)
    ensures now <= p.deadline ==> 2 * (h - now) <= p.deadline - now <= 2 * (h - now) + 1
    ensures 0 < now && 0 <= p.deadline ==> 0 < h
  {
    now + Half(p.deadline - now)
  }

  /** When a call is limited, and until when. It is not when it is the request's last, or goes to the only channel of
      the lowest open level; otherwise it may use half of the time left, if the request has a deadline, and in front
      of a lower level no more than the level's own deadline. A level's deadline, fixed at its first call, is its time
      budget (four seconds unless set otherwise) or that half, whichever ends first. */
  predicate LimitedAs(p: Progress, c: Choice, level: int, lower: bool, settings: Settings, now: int) {
    var budget := (if settings.priorityTimeoutMs == 0 then 4000 else settings.priorityTimeoutMs) * 1_000_000;
    var known := GetOr(p.deadlines, level, ZERO_TIME);
    var stored := GetOr(c.progress.deadlines, level, ZERO_TIME);
    if p.maxAttempts - p.totalAttempts <= 1 || (|c.tier| == 1 && !lower) then
      c.callDeadline == ZERO_TIME && stored == known
    else if !lower then
      c.callDeadline == (if p.deadline == ZERO_TIME then ZERO_TIME else HalfWay(p, now)) && stored == known
    else
      stored == (if known != ZERO_TIME then known
                 else if p.deadline == ZERO_TIME then now + budget
                 else Min(HalfWay(p, now), now + budget))
      && c.callDeadline == (if p.deadline == ZERO_TIME then stored else Min(HalfWay(p, now), stored))
      && c.callDeadline != ZERO_TIME
  }

  lemma PlanLimits(p: Progress, level: int, tier: seq<nat>, lower: bool, settings: Settings, now: int)
    requires Timely(p, settings, now)
    ensures LimitedAs(p, Plan(p, level, tier, lower, settings, now), level, lower, settings, now)
  {
  }

  /** The planner's answer keeps to that rule, so a call is unlimited exactly in the cases it names. */
  lemma CallDeadlineExactly(p: Progress, cs: seq<Candidate>, eligible: seq<nat>, settings: Settings, now: int)
    requires Positions(eligible, cs) && ValidCandidates(cs) && Timely(p, settings, now)
    requires OpenLevels(cs, eligible, p.skipped) != {}
    ensures var c := SelectTier(p, cs, eligible, settings, now);
            var level := LevelOf(cs, c.tier);
            var lower := HasLower(cs, eligible, c.progress.skipped, level);
            LimitedAs(p, c, level, lower, settings, now)
            && (c.callDeadline == ZERO_TIME
                <==> p.maxAttempts - p.totalAttempts <= 1 || (!lower && (|c.tier| == 1 || p.deadline == ZERO_TIME)))
  {
    TierSelection(p, cs, eligible, settings, now);
    var c := SelectTier(p, cs, eligible, settings, now);
    var level := LevelOf(cs, c.tier);
    PlanLimits(p.(skipped := c.progress.skipped), level, c.tier, HasLower(cs, eligible, c.progress.skipped, level),
               settings, now);
  }
}
