/** The cached route (cache_route.go:61-137): identical requests meet at one gate, and a lookup walks the
    candidates by priority and weight without replacement. */
module CacheRoute {
  import opened Base
  import opened Counting

  /** A candidate with the key its verdict would be cached under; "" when its input is not cacheable. */
  datatype Candidate = Candidate(channel: string, key: string, priority: int, weight: int)

  /** The query that asks whether channel, credential and policy are still in force. */
  datatype Check = Active | Inactive | CheckFailed(code: string)

  datatype Outcome = Hit(candidate: Candidate, verdict: string) | Miss | Failed(code: string)

  /** Everything the lookup asks of outside, by position in the caller's list: the cached verdicts, the
      activity checks, the cost bookings and the random draws. */
  datatype Env = Env(
    stored: Result<map<string, string>, string>, check: nat -> Check,
    reserve: nat -> Option<string>, settles: nat -> bool, draw: (nat, int) -> int)

  predicate ValidCandidates(cs: seq<Candidate>) {
    forall c :: c in cs ==> 1 <= c.priority <= 100 && 1 <= c.weight
  }

  ghost predicate DrawsBelow(draw: (nat, int) -> int) {
    forall round: nat, n: int :: 0 < n ==> 0 <= draw(round, n) < n
  }

  /** Only the keys asked for come back, and the empty key is never asked for. */
  function Lookup(stored: map<string, string>, c: Candidate): Option<string> {
    if c.key != "" && c.key in stored then Some(stored[c.key]) else None
  }

  predicate Usable(env: Env, cs: seq<Candidate>, i: nat)
    requires i < |cs|
  {
    env.stored.Success? && Lookup(env.stored.value, cs[i]).Some? && env.check(i) == Active
  }

  /** No database error anywhere on the way. */
  predicate ErrorFree(env: Env, n: nat) {
    env.stored.Success?
    && forall i: nat :: i < n ==> !env.check(i).CheckFailed? && env.reserve(i).None? && env.settles(i)
  }

  // ---------- One weighted draw without replacement ----------

  function LevelWeight(s: seq<Candidate>, level: int): int {
    if s == [] then 0
    else LevelWeight(s[..|s| - 1], level) + if s[|s| - 1].priority == level then s[|s| - 1].weight else 0
  }

  lemma LevelWeightStep(s: seq<Candidate>, j: nat, level: int)
    requires j < |s|
    ensures LevelWeight(s[..j + 1], level)
            == LevelWeight(s[..j], level) + if s[j].priority == level then s[j].weight else 0
  {
    assert s[..j + 1][..j] == s[..j];
  }

  lemma {:induction false} LevelWeightMonotone(s: seq<Candidate>, i: nat, j: nat, level: int)
    requires ValidCandidates(s) && i <= j <= |s|
    ensures LevelWeight(s[..i], level) <= LevelWeight(s[..j], level)
    decreases j
  {
    if i < j {
      LevelWeightStep(s, j - 1, level);
      LevelWeightMonotone(s, i, j - 1, level);
    }
  }

  /** The candidate's share of the draws: from the weight before it on its level up to that plus its own. */
  predicate Owns(s: seq<Candidate>, level: int, j: nat, draw: int)
    requires j < |s|
  {
    s[j].priority == level && LevelWeight(s[..j], level) <= draw < LevelWeight(s[..j], level) + s[j].weight
  }

  /** Shares do not overlap, so the draw decides the candidate. */
  lemma OwnerUnique(s: seq<Candidate>, level: int, i: nat, j: nat, draw: int)
    requires ValidCandidates(s) && i < |s| && j < |s| && Owns(s, level, i, draw) && Owns(s, level, j, draw)
    ensures i == j
  {
    LevelWeightStep(s, i, level);
    LevelWeightStep(s, j, level);
    if i < j {
      LevelWeightMonotone(s, i + 1, j, level);
    } else if j < i {
      LevelWeightMonotone(s, j + 1, i, level);
    }
  }

  /** The first inner loop: the best priority left and the weight on it. */
  method BestLevel(remaining: array<Candidate>, count: nat) returns (priority: int, weight: int)
    requires 0 < count <= remaining.Length && ValidCandidates(remaining[..count])
    ensures priority <= 100 && weight == LevelWeight(remaining[..count], priority) && 0 < weight
    ensures forall j :: 0 <= j < count ==> priority <= remaining[j].priority
  {
    priority, weight := 101, 0;
    ghost var s := remaining[..count];
    for i := 0 to count
      invariant priority <= 101 && (i == 0 ==> priority == 101) && (i > 0 ==> priority <= 100 && 0 < weight)
                && 0 <= weight
      invariant forall j :: 0 <= j < i ==> priority <= s[j].priority
      invariant weight == LevelWeight(s[..i], priority)
    {
      var c := remaining[i];
      assert c == s[i] && c in s;
      assert 1 <= c.priority <= 100 && 1 <= c.weight;
      LevelWeightStep(s, i, priority);
      if c.priority < priority {
        AbsentLevel(s[..i], c.priority);
        LevelWeightStep(s, i, c.priority);
        priority := c.priority;
        weight := 0;
      }
      if c.priority == priority {
        weight := weight + c.weight;
      }
    }
    assert s[..count] == s;
  }

  lemma {:induction false} AbsentLevel(s: seq<Candidate>, level: int)
    requires forall j :: 0 <= j < |s| ==> level < s[j].priority
    ensures LevelWeight(s, level) == 0
  {
    if s != [] {
      AbsentLevel(s[..|s| - 1], level);
    }
  }

  /** The second inner loop: subtract weights from the draw until it goes negative. */
  method Pick(remaining: array<Candidate>, count: nat, priority: int, draw: int) returns (index: nat)
    requires count <= remaining.Length && ValidCandidates(remaining[..count])
    requires 0 <= draw < LevelWeight(remaining[..count], priority)
    ensures index < count && Owns(remaining[..count], priority, index, draw)
  {
    index := 0;
    var pick := draw;
    ghost var s := remaining[..count];
    assert s[..count] == s;
    for i := 0 to count
      invariant pick == draw - LevelWeight(s[..i], priority) && 0 <= pick
    {
      var c := remaining[i];
      assert c == s[i];
      LevelWeightStep(s, i, priority);
      if c.priority != priority {
        continue;
      }
      pick := pick - c.weight;
      if pick < 0 {
        return i;
      }
    }
    assert false;
  }

  /** Taking the pick out shifts the rest down in place. */
  method RemoveAt(remaining: array<Candidate>, count: nat, index: nat)
    requires index < count <= remaining.Length
    modifies remaining
    ensures remaining[..count - 1] == old(remaining[..index] + remaining[index + 1..count])
  {
    for i := index to count - 1
      invariant remaining[..i] == old(remaining[..index] + remaining[index + 1..i + 1])
      invariant forall k :: i < k < count ==> remaining[k] == old(remaining[k])
    {
      remaining[i] := remaining[i + 1];
      assert remaining[..i + 1] == remaining[..i] + [remaining[i]];
      assert old(remaining[index + 1..i + 2]) == old(remaining[index + 1..i + 1]) + [remaining[i]];
    }
  }

  // ---------- The lookup ----------

  function AllPositions(n: nat): seq<nat> {
    if n == 0 then [] else AllPositions(n - 1) + [n - 1]
  }

  lemma {:induction false} EachPositionOnce(n: nat, i: nat)
    ensures multiset(AllPositions(n))[i] == if i < n then 1 else 0
  {
    if n > 0 {
      EachPositionOnce(n - 1, i);
    }
  }

  /** The positions of the caller's list: those left stand, in the working copy's order, and the others
      have been visited, once each and in order of priority. */
  ghost predicate Parted(cs: seq<Candidate>, left: seq<nat>, visited: seq<nat>) {
    multiset(left) + multiset(visited) == multiset(AllPositions(|cs|))
    && Within(left, |cs|) && Within(visited, |cs|) && Leveled(cs, left, visited)
  }

  predicate Within(positions: seq<nat>, n: nat) {
    forall k :: 0 <= k < |positions| ==> positions[k] < n
  }

  /** Priorities do not decrease along the visits, and none left is better than one visited. */
  ghost predicate Leveled(cs: seq<Candidate>, left: seq<nat>, visited: seq<nat>)
    requires Within(left, |cs|) && Within(visited, |cs|)
  {
    (forall a, b :: 0 <= a < |visited| && 0 <= b < |left| ==> cs[visited[a]].priority <= cs[left[b]].priority)
    && (forall a, b :: 0 <= a < b < |visited| ==> cs[visited[a]].priority <= cs[visited[b]].priority)
  }

  lemma {:induction false} AllPositionsAt(n: nat)
    ensures |AllPositions(n)| == n && forall i :: 0 <= i < n ==> AllPositions(n)[i] == i
  {
    if n > 0 {
      AllPositionsAt(n - 1);
    }
  }

  /** Each candidate at most once, in non-decreasing order of priority. */
  ghost predicate Ordered(cs: seq<Candidate>, visited: seq<nat>) {
    (forall k :: 0 <= k < |visited| ==> visited[k] < |cs|)
    && (forall i: nat :: multiset(visited)[i] <= 1)
    && (forall a, b :: 0 <= a < b < |visited| ==> cs[visited[a]].priority <= cs[visited[b]].priority)
  }

  lemma PartedIsOrdered(cs: seq<Candidate>, left: seq<nat>, visited: seq<nat>)
    requires Parted(cs, left, visited)
    ensures Ordered(cs, visited)
  {
    forall i: nat
      ensures multiset(visited)[i] <= 1
    {
      EachPositionOnce(|cs|, i);
      assert (multiset(left) + multiset(visited))[i] <= 1;
    }
  }

  lemma EveryPositionSeen(cs: seq<Candidate>, left: seq<nat>, visited: seq<nat>, i: nat)
    requires Parted(cs, left, visited) && i < |cs|
    ensures i in left || i in visited
  {
    EachPositionOnce(|cs|, i);
    assert (multiset(left) + multiset(visited))[i] == 1;
  }

  /** The working copy holds the candidates at the positions left. */
  predicate Copies(s: seq<Candidate>, cs: seq<Candidate>, left: seq<nat>) {
    |s| == |left| && forall j :: 0 <= j < |left| ==> left[j] < |cs| && s[j] == cs[left[j]]
  }

  lemma CopiesWithout(s: seq<Candidate>, cs: seq<Candidate>, left: seq<nat>, index: nat)
    requires Copies(s, cs, left) && index < |left|
    ensures Copies(Without(s, index), cs, Without(left, index))
  {
  }

  function At(cs: seq<Candidate>, left: seq<nat>): (s: seq<Candidate>)
    requires Within(left, |cs|)
    ensures |s| == |left| && forall j :: 0 <= j < |s| ==> s[j] == cs[left[j]]
  {
    seq(|left|, j requires 0 <= j < |left| => cs[left[j]])
  }

  /** The pick of a round: on the best level left, the candidate whose share contains the round's draw. */
  ghost predicate DrawnAt(cs: seq<Candidate>, draw: (nat, int) -> int, left: seq<nat>, round: nat, index: nat) {
    Within(left, |cs|) && index < |left|
    && (forall k :: 0 <= k < |left| ==> cs[left[index]].priority <= cs[left[k]].priority)
    && var s, level := At(cs, left), cs[left[index]].priority;
       Owns(s, level, index, draw(round, LevelWeight(s, level)))
  }

  /** One round of the lookup's loop: the candidate drawn from the best level left, taken out. */
  method TakeBest(remaining: array<Candidate>, count: nat, draw: (nat, int) -> int, round: nat,
                  ghost cs: seq<Candidate>, ghost left: seq<nat>)
    returns (c: Candidate, index: nat)
    requires 0 < count <= remaining.Length && Copies(remaining[..count], cs, left)
    requires ValidCandidates(cs) && DrawsBelow(draw)
    modifies remaining
    ensures DrawnAt(cs, draw, left, round, index) && c == cs[left[index]]
    ensures Copies(remaining[..count - 1], cs, Without(left, index))
  {
    ghost var s := remaining[..count];
    assert s == At(cs, left);
    assert forall j :: 0 <= j < count ==> s[j] in cs && s[j] == remaining[j];
    var priority, weight := BestLevel(remaining, count);
    index := Pick(remaining, count, priority, draw(round, weight));
    c := remaining[index];
    CopiesWithout(s, cs, left, index);
    assert Without(s, index) == remaining[..index] + remaining[index + 1..count];
    RemoveAt(remaining, count, index);
  }

  // ---------- The order of the visits ----------

  /** The positions left after the given picks. */
  function LeftAfter(n: nat, picks: seq<nat>): seq<nat> {
    if picks == [] then AllPositions(n)
    else
      var left := LeftAfter(n, picks[..|picks| - 1]);
      if picks[|picks| - 1] < |left| then Without(left, picks[|picks| - 1]) else left
  }

  /** The visits are those the draws make, round by round. */
  ghost predicate Drawn(cs: seq<Candidate>, draw: (nat, int) -> int, picks: seq<nat>, visited: seq<nat>) {
    |picks| == |visited|
    && (picks != [] ==>
          var last := |picks| - 1;
          var left := LeftAfter(|cs|, picks[..last]);
          Drawn(cs, draw, picks[..last], visited[..last])
          && DrawnAt(cs, draw, left, last, picks[last]) && visited[last] == left[picks[last]])
  }

  lemma AnotherPick(cs: seq<Candidate>, draw: (nat, int) -> int, picks: seq<nat>, visited: seq<nat>,
                    left: seq<nat>, index: nat)
    requires Drawn(cs, draw, picks, visited) && left == LeftAfter(|cs|, picks)
             && DrawnAt(cs, draw, left, |picks|, index)
    ensures Drawn(cs, draw, picks + [index], visited + [left[index]])
    ensures LeftAfter(|cs|, picks + [index]) == Without(left, index)
  {
    assert (picks + [index])[..|picks|] == picks && (visited + [left[index]])[..|picks|] == visited;
  }

  lemma SamePrefix(a: seq<nat>, b: seq<nat>, r: nat)
    requires r < |a| && r < |b| && a[..r] == b[..r] && a[r] == b[r]
    ensures a[..r + 1] == b[..r + 1]
  {
    assert a[..r + 1] == a[..r] + [a[r]] && b[..r + 1] == b[..r] + [b[r]];
  }

  lemma {:induction false} DrawnInRound(cs: seq<Candidate>, draw: (nat, int) -> int, picks: seq<nat>,
                                        visited: seq<nat>, round: nat, left: seq<nat>)
    requires Drawn(cs, draw, picks, visited) && round < |picks| && left == LeftAfter(|cs|, picks[..round])
    ensures DrawnAt(cs, draw, left, round, picks[round]) && visited[round] == left[picks[round]]
  {
    var last := |picks| - 1;
    if round < last {
      assert picks[..last][..round] == picks[..round];
      DrawnInRound(cs, draw, picks[..last], visited[..last], round, left);
    }
  }

  /** The candidates and the draws alone decide whom a lookup visits and in which order; verdicts, checks
      and bookings only decide where it stops. */
  lemma {:induction false} VisitsDetermined(cs: seq<Candidate>, draw: (nat, int) -> int, p: seq<nat>, v: seq<nat>,
                                            q: seq<nat>, w: seq<nat>, n: nat)
    requires ValidCandidates(cs) && Drawn(cs, draw, p, v) && Drawn(cs, draw, q, w) && n <= |p| && n <= |q|
    ensures p[..n] == q[..n] && v[..n] == w[..n]
  {
    if n > 0 {
      var r := n - 1;
      VisitsDetermined(cs, draw, p, v, q, w, r);
      var left := LeftAfter(|cs|, p[..r]);
      DrawnInRound(cs, draw, p, v, r, left);
      DrawnInRound(cs, draw, q, w, r, left);
      SamePick(cs, draw, left, r, p[r], q[r]);
      SamePrefix(p, q, r);
      SamePrefix(v, w, r);
    }
  }

  lemma SamePick(cs: seq<Candidate>, draw: (nat, int) -> int, left: seq<nat>, round: nat, i: nat, j: nat)
    requires ValidCandidates(cs) && DrawnAt(cs, draw, left, round, i) && DrawnAt(cs, draw, left, round, j)
    ensures i == j
  {
    var level := cs[left[i]].priority;
    assert cs[left[j]].priority == level;
    var s := At(cs, left);
    OwnerUnique(s, level, i, j, draw(round, LevelWeight(s, level)));
  }

  lemma VisitKeepsLevels(cs: seq<Candidate>, left: seq<nat>, visited: seq<nat>, index: nat, rest: seq<nat>)
    requires Within(left, |cs|) && Within(visited, |cs|) && Leveled(cs, left, visited) && index < |left|
    requires forall k :: 0 <= k < |left| ==> cs[left[index]].priority <= cs[left[k]].priority
    requires forall k :: 0 <= k < |rest| ==> rest[k] in left
    ensures Within(rest, |cs|) && Within(visited + [left[index]], |cs|) && Leveled(cs, rest, visited + [left[index]])
  {
  }

  lemma WithoutOne(s: seq<nat>, index: nat)
    requires index < |s|
    ensures multiset(s) == multiset(Without(s, index)) + multiset{s[index]}
  {
    assert s == s[..index] + [s[index]] + s[index + 1..];
  }

  /** Visiting a candidate of the best level left keeps the parting. */
  lemma VisitKeepsParting(cs: seq<Candidate>, left: seq<nat>, visited: seq<nat>, index: nat)
    requires Parted(cs, left, visited) && index < |left|
    requires forall k :: 0 <= k < |left| ==> cs[left[index]].priority <= cs[left[k]].priority
    ensures Parted(cs, Without(left, index), visited + [left[index]])
  {
    var rest := Without(left, index);
    WithoutOne(left, index);
    VisitKeepsLevels(cs, left, visited, index, rest);
  }

  /** What the source decides on one visited candidate: None to try the next. */
  ghost function Consulted(env: Env, cs: seq<Candidate>, i: nat): Option<Outcome>
    requires i < |cs| && env.stored.Success?
  {
    match (Lookup(env.stored.value, cs[i]), env.check(i))
    case (None, _) => None
    case (Some(_), Inactive) => None
    case (Some(_), CheckFailed(code)) => Some(Failed(code))
    case (Some(verdict), Active) =>
      Some(if env.reserve(i).Some? then Failed(env.reserve(i).value)
           else if !env.settles(i) then Failed("cost_record_unavailable")
           else Hit(cs[i], verdict))
  }

  /** What a lookup may report: the outcome is that of the last candidate visited, every one before it had
      no active verdict, and none on a better level was left out. A miss has visited them all. */
  ghost predicate Reported(env: Env, cs: seq<Candidate>, out: Outcome, visited: seq<nat>)
    requires env.stored.Success?
  {
    Ordered(cs, visited)
    && if out == Miss then
         forall i: nat :: i < |cs| ==> i in visited && Consulted(env, cs, i).None?
       else
         visited != [] && Consulted(env, cs, visited[|visited| - 1]) == Some(out)
         && (forall k :: 0 <= k < |visited| - 1 ==> Consulted(env, cs, visited[k]).None?)
         && (forall i: nat :: i < |cs| && i !in visited ==> cs[visited[|visited| - 1]].priority <= cs[i].priority)
  }

  ghost predicate NoneYet(env: Env, cs: seq<Candidate>, visited: seq<nat>)
    requires env.stored.Success?
  {
    forall k :: 0 <= k < |visited| ==> visited[k] < |cs| && Consulted(env, cs, visited[k]).None?
  }

  lemma ReportMiss(env: Env, cs: seq<Candidate>, visited: seq<nat>)
    requires env.stored.Success? && Parted(cs, [], visited) && NoneYet(env, cs, visited)
    ensures Reported(env, cs, Miss, visited)
  {
    PartedIsOrdered(cs, [], visited);
    forall i: nat | i < |cs|
      ensures i in visited && Consulted(env, cs, i).None?
    {
      EveryPositionSeen(cs, [], visited, i);
    }
  }

  lemma ReportLast(env: Env, cs: seq<Candidate>, left: seq<nat>, visited: seq<nat>, at: nat, out: Outcome)
    requires env.stored.Success? && Parted(cs, left, visited + [at]) && NoneYet(env, cs, visited)
    requires at < |cs| && out != Miss && Consulted(env, cs, at) == Some(out)
    ensures Reported(env, cs, out, visited + [at])
  {
    var all := visited + [at];
    PartedIsOrdered(cs, left, all);
    assert forall k :: 0 <= k < |all| - 1 ==> all[k] == visited[k];
    forall i: nat | i < |cs| && i !in all
      ensures cs[at].priority <= cs[i].priority
    {
      EveryPositionSeen(cs, left, all, i);
      assert all[|visited|] == at;
    }
  }

  /** One visited candidate: its verdict looked up, checked for activity, booked and settled. */
  method Consult(env: Env, c: Candidate, at: nat, ghost cs: seq<Candidate>) returns (result: Option<Outcome>)
    requires env.stored.Success? && at < |cs| && cs[at] == c
    ensures result == Consulted(env, cs, at) && result != Some(Miss)
  {
    var value := Lookup(env.stored.value, c);
    if value.None? {
      return None;
    }
    match env.check(at) {
      case Inactive => return None;
      case CheckFailed(code) => return Some(Failed(code));
      case Active =>
    }
    var refused := env.reserve(at);
    if refused.Some? {
      return Some(Failed(refused.value));
    }
    if !env.settles(at) {
      return Some(Failed("cost_record_unavailable"));
    }
    return Some(Hit(c, value.value));
  }

  /** Between rounds: which positions are left and visited, what the draws were, and no verdict so far. */
  ghost predicate Underway(env: Env, cs: seq<Candidate>, s: seq<Candidate>, left: seq<nat>, visited: seq<nat>,
                           picks: seq<nat>)
    requires env.stored.Success?
  {
    Copies(s, cs, left) && Parted(cs, left, visited) && NoneYet(env, cs, visited)
    && left == LeftAfter(|cs|, picks) && Drawn(cs, env.draw, picks, visited)
  }

  lemma Outset(env: Env, cs: seq<Candidate>)
    requires env.stored.Success?
    ensures Underway(env, cs, cs, AllPositions(|cs|), [], []) && |AllPositions(|cs|)| == |cs|
  {
    AllPositionsAt(|cs|);
  }

  lemma Onward(env: Env, cs: seq<Candidate>, s: seq<Candidate>, left: seq<nat>, visited: seq<nat>, picks: seq<nat>,
               index: nat, rest: seq<Candidate>)
    requires env.stored.Success? && Underway(env, cs, s, left, visited, picks)
    requires DrawnAt(cs, env.draw, left, |picks|, index) && Copies(rest, cs, Without(left, index))
    requires Parted(cs, Without(left, index), visited + [left[index]]) && NoneYet(env, cs, visited + [left[index]])
    ensures Underway(env, cs, rest, Without(left, index), visited + [left[index]], picks + [index])
  {
    AnotherPick(cs, env.draw, picks, visited, left, index);
  }

  lemma Exhausted(env: Env, cs: seq<Candidate>, s: seq<Candidate>, left: seq<nat>, visited: seq<nat>, picks: seq<nat>)
    requires env.stored.Success? && Underway(env, cs, s, left, visited, picks) && left == []
    ensures Reported(env, cs, Miss, visited) && Drawn(cs, env.draw, picks, visited)
  {
    ReportMiss(env, cs, visited);
  }

  /** One round: the best candidate left is taken out and consulted. */
  method Visit(remaining: array<Candidate>, count: nat, env: Env, round: nat, left: seq<nat>,
               ghost cs: seq<Candidate>, ghost visited: seq<nat>, ghost picks: seq<nat>)
    returns (result: Option<Outcome>, at: nat, rest: seq<nat>, ghost index: nat)
    requires 0 < count == |left| <= remaining.Length && round == |picks|
    requires ValidCandidates(cs) && env.stored.Success? && DrawsBelow(env.draw)
    requires Underway(env, cs, remaining[..count], left, visited, picks)
    modifies remaining
    ensures |rest| == count - 1
    ensures result.None? ==> Underway(env, cs, remaining[..count - 1], rest, visited + [at], picks + [index])
    ensures result.Some? ==>
      Reported(env, cs, result.value, visited + [at]) && Drawn(cs, env.draw, picks + [index], visited + [at])
  {
    ghost var s := remaining[..count];
    var c, chosen := TakeBest(remaining, count, env.draw, round, cs, left);
    VisitKeepsParting(cs, left, visited, chosen);
    at, rest, index := left[chosen], Without(left, chosen), chosen;
    result := Consult(env, c, at, cs);
    if result.Some? {
      ReportLast(env, cs, rest, visited, at, result.value);
      AnotherPick(cs, env.draw, picks, visited, left, chosen);
    } else {
      Onward(env, cs, s, left, visited, picks, chosen, remaining[..count - 1]);
    }
  }

  /** The loop over the working copy. Positions name its candidates to the oracles. */
  method Walk(remaining: array<Candidate>, env: Env, ghost cs: seq<Candidate>)
    returns (out: Outcome, visited: seq<nat>, ghost picks: seq<nat>)
    requires remaining[..] == cs && ValidCandidates(cs) && DrawsBelow(env.draw) && env.stored.Success?
    modifies remaining
    ensures Reported(env, cs, out, visited) && Drawn(cs, env.draw, picks, visited)
  {
    var count, round := remaining.Length, 0;
    var left := AllPositions(count);
    visited, picks := [], [];
    Outset(env, cs);
    assert remaining[..count] == remaining[..];
    while count > 0
      invariant count == |left| <= remaining.Length && round == |picks|
      invariant Underway(env, cs, remaining[..count], left, visited, picks)
    {
      var result, at;
      ghost var index;
      result, at, left, index := Visit(remaining, count, env, round, left, cs, visited, picks);
      visited, picks := visited + [at], picks + [index];
      if result.Some? {
        return result.value, visited, picks;
      }
      count, round := count - 1, round + 1;
    }
    Exhausted(env, cs, remaining[..count], left, visited, picks);
    out := Miss;
  }

  /** The lookup: it works on a clone, and the caller's list is only read. */
  method CachedRoute(candidates: array<Candidate>, env: Env)
    returns (out: Outcome, visited: seq<nat>, ghost picks: seq<nat>)
    requires ValidCandidates(candidates[..]) && DrawsBelow(env.draw)
    ensures env.stored.Failure? ==> visited == [] && out == Failed("cache_unavailable")
    ensures env.stored.Success? ==>
      Reported(env, candidates[..], out, visited) && Drawn(candidates[..], env.draw, picks, visited)
  {
    if env.stored.Failure? {
      return Failed("cache_unavailable"), [], [];
    }
    var remaining := new Candidate[candidates.Length](
      i requires 0 <= i < candidates.Length reads candidates => candidates[i]);
    out, visited, picks := Walk(remaining, env, candidates[..]);
  }

  /** A hit comes from the best priority that has an active cached verdict; a miss means there is none;
      and without database errors one of the two must follow, a hit exactly when there is one. */
  lemma LookupComplete(env: Env, cs: seq<Candidate>, out: Outcome, visited: seq<nat>)
    requires env.stored.Success? && Reported(env, cs, out, visited)
    ensures out.Hit? ==>
      exists i: nat :: i < |cs| && Usable(env, cs, i) && cs[i] == out.candidate
        && Lookup(env.stored.value, cs[i]) == Some(out.verdict)
        && forall j: nat :: j < |cs| && Usable(env, cs, j) ==> cs[i].priority <= cs[j].priority
    ensures out.Miss? ==> forall i: nat :: i < |cs| ==> !Usable(env, cs, i)
    ensures ErrorFree(env, |cs|) ==> (out.Hit? <==> exists i: nat :: i < |cs| && Usable(env, cs, i))
  {
    if out != Miss {
      var last := visited[|visited| - 1];
      forall j: nat | j < |cs| && Usable(env, cs, j)
        ensures cs[last].priority <= cs[j].priority
      {
        assert Consulted(env, cs, j).Some?;
        if j in visited {
          var k :| 0 <= k < |visited| && visited[k] == j;
        }
      }
      if out.Hit? {
        assert Usable(env, cs, last);
      }
    } else {
      forall i: nat | i < |cs|
        ensures !Usable(env, cs, i)
      {
        assert Consulted(env, cs, i).None?;
      }
    }
  }

  /** A candidate that decides the lookup: its verdict is cached, and it is not known to be out of force. */
  predicate Decides(env: Env, cs: seq<Candidate>, i: nat)
    requires i < |cs| && env.stored.Success?
  {
    cs[i].key != "" && cs[i].key in env.stored.value && env.check(i) != Inactive
  }

  lemma ConsultedIfDecides(env: Env, cs: seq<Candidate>, i: nat)
    requires i < |cs| && env.stored.Success?
    ensures Consulted(env, cs, i).Some? <==> Decides(env, cs, i)
  {
  }

  /** How a lookup ends, exactly: it is a miss if and only if no candidate decides it; otherwise the last one visited
      does, none that would is on a better level, and the outcome is its cached verdict unless its check, booking or
      settlement failed. */
  lemma OutcomeExactly(env: Env, cs: seq<Candidate>, out: Outcome, visited: seq<nat>)
    requires env.stored.Success? && Reported(env, cs, out, visited)
    ensures out.Miss? <==> forall i: nat :: i < |cs| ==> !Decides(env, cs, i)
    ensures !out.Miss? ==>
      visited != []
      && var i := visited[|visited| - 1];
         i < |cs| && Decides(env, cs, i)
         && (forall j: nat :: j < |cs| && Decides(env, cs, j) ==> cs[i].priority <= cs[j].priority)
         && out == if env.check(i).CheckFailed? then Failed(env.check(i).code)
                   else if env.reserve(i).Some? then Failed(env.reserve(i).value)
                   else if !env.settles(i) then Failed("cost_record_unavailable")
                   else Hit(cs[i], env.stored.value[cs[i].key])
  {
    forall i: nat | i < |cs|
      ensures Consulted(env, cs, i).Some? <==> Decides(env, cs, i)
    {
      ConsultedIfDecides(env, cs, i);
    }
    if out != Miss {
      var last := visited[|visited| - 1];
      forall j: nat | j < |cs| && Decides(env, cs, j)
        ensures cs[last].priority <= cs[j].priority
      {
        if j in visited {
          var k :| 0 <= k < |visited| && visited[k] == j;
        }
      }
    }
  }
}
