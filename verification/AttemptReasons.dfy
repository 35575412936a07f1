/** Why the attempt loop goes on and why it ends (router.go:655-796), said of the channels, the rechecks and the
    call themselves. */
module AttemptReasons {
  import opened Base
  import opened Counting
  import opened Loops
  import opened Routing
  import opened RouteFailover
  import opened Router
  import opened RouterChoice
  import opened AttemptLoop
  import R = RouterRuns

  /** The candidates of one request, and what it draws with. */
  ghost predicate Request(cs: seq<Candidate>, env: nat -> Round) {
    ValidCandidates(cs) && R.DistinctChannels(cs) && forall k :: IsDraw(env(k).draw)
  }

  /** An iteration that is not cancelled finds a free slot and an untried channel it can call, on a level the
      request has not given up. */
  predicate FindsChannel(cs: seq<Candidate>, st: Standing, r: Round) {
    !r.cancelled && !r.slotsFull && AnyOpen(r.routes, cs, st.taken, r.now, st.tally.progress.skipped)
  }

  /** A failure another channel may not meet. */
  predicate Transient(code: string) {
    || code == "upstream_timeout"
    || code == "upstream_unavailable"
    || code == "upstream_rate_limited"
    || code == "upstream_auth_failed"
    || code == "upstream_config_invalid"
    || code == "invalid_model_response"
    || code == "credential_unavailable"
  }

  /** A recheck found the channel stopped or its key gone, or ran out of time. */
  predicate TurnedAway(r: Round) {
    r.recheck == Stopped || r.recheck == RecheckExpired
    || (r.recheck == StillActive && (r.credential == KeyGone || r.credential == CredentialExpired))
  }

  predicate Rechecked(r: Round) {
    r.recheck == StillActive && r.credential == SameKey
  }

  /** The channel's call is made, and recorded as an attempt. */
  predicate Served(r: Round) {
    Rechecked(r) && r.reservation == None
  }

  /** The request's own end comes before what the upstream answered. */
  predicate FailedWith(r: Round, code: string) {
    if r.requestOver then code == "audit_timeout" else r.error == Some(code)
  }

  /** What the channel met leaves room for another one: a recheck turned it away, or its call was settled and failed
      in a way another channel may not. */
  predicate LeavesRoom(r: Round) {
    TurnedAway(r)
    || (Served(r) && r.settles && !r.requestOver && r.error.Some? && Transient(r.error.value))
  }

  /** What the channel met ends the request with this error. */
  predicate Fatal(r: Round, code: string) {
    || r.recheck == RecheckBroken(code)
    || (r.recheck == StillActive && r.credential == CredentialBroken(code))
    || (Rechecked(r) && r.reservation == Some(code))
    || (Served(r) && !r.settles && code == "cost_record_unavailable")
    || (Served(r) && r.settles && FailedWith(r, code) && !Transient(code))
  }

  /** The channel brought a verdict in time, and it is settled. */
  predicate Answered(r: Round) {
    Served(r) && r.settles && !r.requestOver && r.error == None
  }

  /** Why an iteration ends the request with this very error. */
  predicate Decisive(cs: seq<Candidate>, st: Standing, r: Round, code: string) {
    if r.cancelled then code == "audit_timeout"
    else if r.slotsFull then code == "capacity_exceeded"
    else if AnyOpen(r.routes, cs, st.taken, r.now, st.tally.progress.skipped) then Fatal(r, code)
    else if AnyBlocked(r.routes, cs, st.taken, r.now) then code == "channel_rpm_exceeded"
    else code == st.lastErr
  }

  /** What an iteration leaves of the channel it tried: it is used up; a call made is recorded with all that came of
      it, and counts for the request and for the channel's level if it was sent. */
  ghost predicate Leaves(c: Candidate, r: Round, st: Standing, next: Standing) {
    var p, q := st.tally.progress, next.tally.progress;
    var sent := if Served(r) && r.usage.attempted then 1 else 0;
    next.taken == st.taken + {c.id}
    && next.tally.attempts
       == st.tally.attempts
          + (if !Served(r) then []
             else [Attempt(c.id, r.usage.attempted, r.settles, r.usage,
                           if r.requestOver then Some("audit_timeout") else r.error)])
    && next.tally.count == st.tally.count + sent && q.totalAttempts == p.totalAttempts + sent
    && (forall level :: GetOr(q.attempts, level, 0)
                        == GetOr(p.attempts, level, 0) + if level == c.priority then sent else 0)
    && q.maxAttempts == p.maxAttempts && q.deadline == p.deadline
  }

  /** The error the request would now end with if there was nothing left to call. */
  function Blamed(r: Round, before: string): string {
    if r.recheck == RecheckExpired || (r.recheck == StillActive && r.credential == CredentialExpired) then
      "route_preparation_timeout"
    else if Served(r) && r.error.Some? then r.error.value
    else before
  }

  lemma TriedDecides(c: Candidate, r: Round, st: Standing, code: string)
    ensures var (result, next) := Tried(c, r, st);
            && (result.None? <==> LeavesRoom(r))
            && (result == Some(Some(code)) <==> Fatal(r, code))
            && (result == Some(None) <==> Answered(r))
            && (result.None? ==> next.lastErr == Blamed(r, st.lastErr))
            && Leaves(c, r, st, next)
            && next.tally.progress.skipped == st.tally.progress.skipped
  {
  }

  /** Which channel an iteration that finds one goes for, and what it leaves: the best channel it can, with every
      better level that could be called given up. */
  ghost predicate TriesBest(cs: seq<Candidate>, st: Standing, r: Round, next: Standing) {
    exists i :: 0 <= i < |cs| && Leaves(cs[i], r, st, next)
                && BestOpen(r.routes, cs, st.taken, r.now, next.tally.progress.skipped, i)
  }

  lemma LeavesPlanned(c: Candidate, r: Round, st: Standing, planned: Progress, next: Standing)
    requires (planned.attempts, planned.totalAttempts) == (st.tally.progress.attempts, st.tally.progress.totalAttempts)
    requires (planned.maxAttempts, planned.deadline) == (st.tally.progress.maxAttempts, st.tally.progress.deadline)
    requires Leaves(c, r, st.(tally := st.tally.(progress := planned)), next)
    ensures Leaves(c, r, st, next)
  {
  }

  /** An iteration tries a channel exactly when it finds one; it goes on exactly when it found one that leaves room
      for another; it ends with an error exactly when that error is the decisive one, and with a verdict exactly when
      the channel it found brought one. */
  lemma RoundDecides(cs: seq<Candidate>, settings: Settings, st: Standing, r: Round, code: string)
    requires ValidCandidates(cs) && R.DistinctChannels(cs) && IsDraw(r.draw)
    ensures var (result, next) := AfterRound(cs, settings, st, r);
            && (if FindsChannel(cs, st, r) then TriesBest(cs, st, r, next)
                else next.taken == st.taken && next.tally.attempts == st.tally.attempts)
            && (result.None? <==> FindsChannel(cs, st, r) && LeavesRoom(r))
            && (result == Some(Some(code)) <==> Decisive(cs, st, r, code))
            && (result == Some(None) <==> FindsChannel(cs, st, r) && Answered(r))
            && (result.None? ==> next.lastErr == Blamed(r, st.lastErr))
  {
    if !r.cancelled {
      AcquisitionDecides(r.routes, r.slotsFull, cs, settings, st.taken, r.now, r.draw, st.tally.progress);
      var (progress, acquired) := AcquiredIn(cs, settings, st, r);
      if acquired.Leased? {
        var c, planned := cs[acquired.index], st.(tally := st.tally.(progress := progress.value));
        TriedDecides(c, r, planned, code);
        PlanningKeeps(cs, settings, st, r);
        LeavesPlanned(c, r, st, progress.value, Tried(c, r, planned).1);
      }
    }
  }

  /** Choosing a channel leaves the planner's counts alone. */
  lemma PlanningKeeps(cs: seq<Candidate>, settings: Settings, st: Standing, r: Round)
    requires ValidCandidates(cs) && IsDraw(r.draw)
    ensures var (progress, _) := AcquiredIn(cs, settings, st, r);
            var p := st.tally.progress;
            progress.Some?
            && (progress.value.attempts, progress.value.totalAttempts) == (p.attempts, p.totalAttempts)
            && (progress.value.maxAttempts, progress.value.deadline) == (p.maxAttempts, p.deadline)
  {
    if !r.slotsFull {
      AcquisitionPlans(r.routes, cs, settings, st.taken, r.now, r.draw, st.tally.progress);
      var eligible := Scan(r.routes, cs, st.taken, r.now, |cs|).eligible;
      SelectionKeepsCounters(st.tally.progress, cs, eligible, settings, r.now);
    }
  }

  // ---------- Whole requests ----------

  /** Where the request goes on: calls are left, and it finds a channel that leaves room for another. */
  predicate OnwardFrom(cs: seq<Candidate>, limit: int, r: Round, st: Standing) {
    st.tally.count < limit && FindsChannel(cs, st, r) && LeavesRoom(r)
  }

  /** Why a request ends like this where it stands: its calls are spent and it ends with its last error; or it
      ends with the decisive error of an iteration, or with the verdict of its last call. */
  ghost predicate EndsLike(cs: seq<Candidate>, limit: int, r: Round, st: Standing, error: Option<string>,
                           end: Standing)
  {
    if st.tally.count >= limit then error == Some(st.lastErr) && end == st
    else if error.Some? then Decisive(cs, st, r, error.value)
    else FindsChannel(cs, st, r) && Answered(r) && TriesBest(cs, st, r, end)
  }

  function MayGoOn(cs: seq<Candidate>, limit: int, env: nat -> Round): (nat, Standing) -> bool {
    (k: nat, st: Standing) => OnwardFrom(cs, limit, env(k), st)
  }

  ghost function EndsFor(cs: seq<Candidate>, limit: int, env: nat -> Round)
    : (nat, Standing, Option<string>, Standing) -> bool
  {
    (k: nat, st: Standing, error: Option<string>, end: Standing) => EndsLike(cs, limit, env(k), st, error, end)
  }

  lemma RoundExplained(cs: seq<Candidate>, settings: Settings, limit: int, r: Round, st: Standing)
    requires ValidCandidates(cs) && R.DistinctChannels(cs) && IsDraw(r.draw) && st.tally.count < limit
    ensures var (result, next) := AfterRound(cs, settings, st, r);
            if result.None? then OnwardFrom(cs, limit, r, st) else EndsLike(cs, limit, r, st, result.value, next)
  {
    var result := AfterRound(cs, settings, st, r).0;
    RoundDecides(cs, settings, st, r, if result.Some? && result.value.Some? then result.value.value else "");
  }

  lemma PassExplained(cs: seq<Candidate>, settings: Settings, limit: int, env: nat -> Round, k: nat, st: Standing)
    requires Request(cs, env)
    ensures var (result, next) := Pass(cs, settings, limit, env)(k, st);
            if result.None? then MayGoOn(cs, limit, env)(k, st) else EndsFor(cs, limit, env)(k, st, result.value, next)
  {
    if st.tally.count < limit {
      RoundExplained(cs, settings, limit, env(k), st);
    }
  }

  lemma PassesExplain(cs: seq<Candidate>, settings: Settings, limit: int, env: nat -> Round)
    requires Request(cs, env)
    ensures Explains(Pass(cs, settings, limit, env), MayGoOn(cs, limit, env), EndsFor(cs, limit, env))
  {
    var pass, may, ends := Pass(cs, settings, limit, env), MayGoOn(cs, limit, env), EndsFor(cs, limit, env);
    forall k: nat, st
      ensures var (result, next) := pass(k, st);
              if result.None? then may(k, st) else ends(k, st, result.value, next)
    {
      PassExplained(cs, settings, limit, env, k, st);
    }
  }

  /** What a request ends for, of the channels themselves. It goes on for some number n of iterations, in each of
      which calls were left and it found an untried channel that could be called on a level not given up, and
      what that channel met left room for another. Where it ends, its calls are spent; or it was cancelled, no
      slot was free, every untried channel that could be called was on a level given up, or what the channel met
      was fatal, and the request ends with that very error; or the channel brought the verdict. */
  lemma EndIsExplained(cs: seq<Candidate>, settings: Settings, limit: int, env: nat -> Round, st: Standing)
    returns (n: nat)
    requires Request(cs, env)
    ensures var (error, end) := Routed(cs, settings, limit, env, 0, st);
            Explained(Pass(cs, settings, limit, env), MayGoOn(cs, limit, env), EndsFor(cs, limit, env), 0, st, n,
                      error, end)
  {
    PassesShrink(cs, settings, limit, env);
    PassesExplain(cs, settings, limit, env);
    n := LoopExplained(Pass(cs, settings, limit, env), Left(cs), MayGoOn(cs, limit, env), EndsFor(cs, limit, env),
                       0, st);
  }

  /** The error a request would end with after its first n iterations. */
  function Blame(env: nat -> Round, n: nat): string {
    if n == 0 then "no_available_channel" else Blamed(env(n - 1), Blame(env, n - 1))
  }

  /** Those of the first n iterations whose call was made. */
  function ServedRounds(env: nat -> Round, n: nat): seq<nat> {
    if n == 0 then []
    else ServedRounds(env, n - 1) + if Served(env(n - 1)) then [n - 1] else []
  }

  /** The attempt is what came of this iteration's call. */
  predicate CameOf(a: Attempt, r: Round) {
    (a.sent, a.settled, a.usage) == (r.usage.attempted, r.settles, r.usage)
    && a.error == if r.requestOver then Some("audit_timeout") else r.error
  }

  ghost predicate OnThatLevel(cs: seq<Candidate>, level: int, channel: string) {
    exists i :: 0 <= i < |cs| && cs[i].id == channel && cs[i].priority == level
  }

  /** The calls sent to channels of a level. */
  ghost function SentOn(cs: seq<Candidate>, level: int): Attempt -> bool {
    (a: Attempt) => a.sent && OnThatLevel(cs, level, a.channel)
  }

  ghost predicate AllCameOf(attempts: seq<Attempt>, env: nat -> Round, rounds: seq<nat>) {
    |attempts| == |rounds| && forall j :: 0 <= j < |attempts| ==> CameOf(attempts[j], env(rounds[j]))
  }

  /** Where a request stands after n iterations: the attempts recorded are the calls those made, in order; they are
      counted when they were sent, in all and by level; and the error held is the last one met. */
  ghost predicate Tells(cs: seq<Candidate>, limit: int, deadline: int, env: nat -> Round, n: nat, st: Standing) {
    var attempts, p := st.tally.attempts, st.tally.progress;
    st.lastErr == Blame(env, n)
    && AllCameOf(attempts, env, ServedRounds(env, n))
    && st.tally.count == p.totalAttempts == Count(attempts, WasSent())
    && (forall level :: GetOr(p.attempts, level, 0) == Count(attempts, SentOn(cs, level)))
    && p.maxAttempts == limit && p.deadline == deadline
  }

  lemma LevelIsKnown(cs: seq<Candidate>, i: nat, level: int)
    requires R.DistinctChannels(cs) && i < |cs|
    ensures OnThatLevel(cs, level, cs[i].id) <==> cs[i].priority == level
  {
  }

  lemma OneMoreCounted(cs: seq<Candidate>, attempts: seq<Attempt>, a: Attempt, i: nat, level: int)
    requires R.DistinctChannels(cs) && i < |cs| && a.channel == cs[i].id
    ensures Count(attempts + [a], WasSent()) == Count(attempts, WasSent()) + One(a.sent)
    ensures Count(attempts + [a], SentOn(cs, level))
            == Count(attempts, SentOn(cs, level)) + One(a.sent && cs[i].priority == level)
  {
    CountLast(attempts, a, WasSent());
    CountLast(attempts, a, SentOn(cs, level));
    LevelIsKnown(cs, i, level);
  }

  lemma StillTells(cs: seq<Candidate>, limit: int, deadline: int, env: nat -> Round, n: nat, st: Standing,
                   next: Standing, i: nat)
    requires R.DistinctChannels(cs) && i < |cs| && Tells(cs, limit, deadline, env, n, st)
    requires Leaves(cs[i], env(n), st, next) && next.lastErr == Blamed(env(n), st.lastErr)
    ensures Tells(cs, limit, deadline, env, n + 1, next)
  {
    var r, attempts := env(n), st.tally.attempts;
    if Served(r) {
      var a := Attempt(cs[i].id, r.usage.attempted, r.settles, r.usage,
                       if r.requestOver then Some("audit_timeout") else r.error);
      assert next.tally.attempts == attempts + [a];
      forall level
        ensures GetOr(next.tally.progress.attempts, level, 0) == Count(attempts + [a], SentOn(cs, level))
      {
        OneMoreCounted(cs, attempts, a, i, level);
      }
      OneMoreCounted(cs, attempts, a, i, 0);
    } else {
      assert next.tally.attempts == attempts;
    }
  }

  ghost function Story(cs: seq<Candidate>, limit: int, deadline: int, env: nat -> Round): (nat, Standing) -> bool {
    (n: nat, st: Standing) => Tells(cs, limit, deadline, env, n, st)
  }

  lemma RoundTells(cs: seq<Candidate>, settings: Settings, limit: int, deadline: int, env: nat -> Round, n: nat,
                   st: Standing)
    requires Request(cs, env) && Tells(cs, limit, deadline, env, n, st)
    requires AfterRound(cs, settings, st, env(n)).0.None?
    ensures Tells(cs, limit, deadline, env, n + 1, AfterRound(cs, settings, st, env(n)).1)
  {
    var next := AfterRound(cs, settings, st, env(n)).1;
    RoundDecides(cs, settings, st, env(n), "");
    var i :| 0 <= i < |cs| && Leaves(cs[i], env(n), st, next);
    StillTells(cs, limit, deadline, env, n, st, next, i);
  }

  lemma PassTells(cs: seq<Candidate>, settings: Settings, limit: int, deadline: int, env: nat -> Round, n: nat,
                  st: Standing)
    requires Request(cs, env) && Story(cs, limit, deadline, env)(n, st)
    requires Pass(cs, settings, limit, env)(n, st).0.None?
    ensures Story(cs, limit, deadline, env)(n + 1, Pass(cs, settings, limit, env)(n, st).1)
  {
    RoundTells(cs, settings, limit, deadline, env, n, st);
  }

  lemma PassesTell(cs: seq<Candidate>, settings: Settings, limit: int, deadline: int, env: nat -> Round)
    requires Request(cs, env)
    ensures Keeps(Pass(cs, settings, limit, env), Story(cs, limit, deadline, env))
  {
    var pass, story := Pass(cs, settings, limit, env), Story(cs, limit, deadline, env);
    forall n: nat, st | story(n, st) && pass(n, st).0.None?
      ensures story(n + 1, pass(n, st).1)
    {
      PassTells(cs, settings, limit, deadline, env, n, st);
    }
  }

  lemma StartTells(cs: seq<Candidate>, limit: int, deadline: int, env: nat -> Round)
    ensures Tells(cs, limit, deadline, env, 0, Start(limit, deadline))
  {
    assert Start(limit, deadline).tally.attempts == [];
  }

  /** For whatever the passes are, a story they keep is told wherever they lead. */
  lemma StoryGoesOn(pass: (nat, Standing) -> (Option<Option<string>>, Standing), story: (nat, Standing) -> bool,
                    start: Standing, n: nat)
    requires Keeps(pass, story) && story(0, start) && GoesOn(pass, 0, start, n)
    ensures story(n, After(pass, 0, start, n))
  {
    StaysKept(pass, story, 0, start, n);
  }

  lemma StandingTells(cs: seq<Candidate>, settings: Settings, limit: int, deadline: int, env: nat -> Round, n: nat)
    requires Request(cs, env) && GoesOn(Pass(cs, settings, limit, env), 0, Start(limit, deadline), n)
    ensures Story(cs, limit, deadline, env)(n, After(Pass(cs, settings, limit, env), 0, Start(limit, deadline), n))
  {
    PassesTell(cs, settings, limit, deadline, env);
    StartTells(cs, limit, deadline, env);
    StoryGoesOn(Pass(cs, settings, limit, env), Story(cs, limit, deadline, env), Start(limit, deadline), n);
  }

  /** A request is explained from its start: it goes on for n iterations for the reasons given; what it stands at is the
      story of those iterations; and it ends as that allows. */
  ghost predicate Reasoned(cs: seq<Candidate>, settings: Settings, limit: int, deadline: int, env: nat -> Round, n: nat,
                           error: Option<string>, end: Standing)
    requires Request(cs, env)
  {
    var pass, start := Pass(cs, settings, limit, env), Start(limit, deadline);
    Explained(pass, MayGoOn(cs, limit, env), EndsFor(cs, limit, env), 0, start, n, error, end)
    && Story(cs, limit, deadline, env)(n, After(pass, 0, start, n))
  }

  /** Every request is, and so the calls it may still make, the error it ends with once they are spent, and the attempts
      it records all follow from what its channels met. */
  lemma RequestTells(cs: seq<Candidate>, settings: Settings, limit: int, deadline: int, env: nat -> Round)
    returns (n: nat)
    requires Request(cs, env)
    ensures var (error, end) := Routed(cs, settings, limit, env, 0, Start(limit, deadline));
            Reasoned(cs, settings, limit, deadline, env, n, error, end)
  {
    n := EndIsExplained(cs, settings, limit, env, Start(limit, deadline));
    StandingTells(cs, settings, limit, deadline, env, n);
  }
}
