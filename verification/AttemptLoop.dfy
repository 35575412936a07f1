/** The attempt loop of one request (router.go:643-796): acquire a channel, recheck it, reserve its cost,
    call it, release it, settle it, and go on to another channel while the failure is retryable. */
module AttemptLoop {
  import opened Base
  import opened Counting
  import opened Loops
  import opened UsageReports
  import opened Routing
  import opened RouteFailover
  import opened Router

  /** The recheck of administrative stops before every attempt. */
  datatype Recheck = StillActive | Stopped | RecheckExpired | RecheckBroken(code: string)

  /** The credential read again before the call. */
  datatype CredentialCheck = SameKey | KeyGone | CredentialExpired | CredentialBroken(code: string)

  /** Everything one iteration learns from outside: the shared table as it finds it (other requests have
      moved it meanwhile), and the outcomes of database and upstream. */
  datatype Round = Round(
    cancelled: bool, routes: Routes, slotsFull: bool, now: int, draw: int -> int,
    recheck: Recheck, credential: CredentialCheck, reservation: Option<string>,
    usage: Usage, error: Option<string>, requestOver: bool, settles: bool)

  datatype Attempt = Attempt(channel: string, sent: bool, settled: bool, usage: Usage, error: Option<string>)

  datatype Action =
    | TakeChannel(channel: string)
    | ReserveCost(channel: string)
    | GiveBack(channel: string, sent: bool)
    | SettleCost(channel: string, sent: bool)

  /** What the two rechecks decide: go on, try another channel, or give the request up. */
  datatype Preparation = Ready | TryAnother(error: Option<string>) | GiveUp(code: string)

  function Prepare(r: Round): Preparation {
    match r.recheck
    case Stopped => TryAnother(None)
    case RecheckExpired => TryAnother(Some("route_preparation_timeout"))
    case RecheckBroken(code) => GiveUp(code)
    case StillActive =>
      match r.credential
      case SameKey => Ready
      case KeyGone => TryAnother(None)
      case CredentialExpired => TryAnother(Some("route_preparation_timeout"))
      case CredentialBroken(code) => GiveUp(code)
  }

  // ---------- The protocol every request must follow ----------

  /** Where a request stands: nothing held, a channel held, a channel held and its cost reserved, or only
      the settlement owed. The set remembers the channels already used up. */
  datatype Phase =
    | Idle(used: set<string>)
    | Holding(channel: string, used: set<string>)
    | Priced(channel: string, used: set<string>)
    | Owing(channel: string, sent: bool, used: set<string>)
    | Broken

  function Advance(p: Phase, a: Action): Phase {
    match (p, a)
    case (Idle(used), TakeChannel(c)) => if c in used then Broken else Holding(c, used + {c})
    case (Holding(c, used), ReserveCost(c')) => if c == c' then Priced(c, used) else Broken
    case (Holding(c, used), GiveBack(c', sent)) => if c == c' && !sent then Idle(used) else Broken
    case (Priced(c, used), GiveBack(c', sent)) => if c == c' then Owing(c, sent, used) else Broken
    case (Owing(c, sent, used), SettleCost(c', sent')) => if c == c' && sent == sent' then Idle(used) else Broken
    case _ => Broken
  }

  function Track(trace: seq<Action>): Phase {
    if trace == [] then Idle({}) else Advance(Track(trace[..|trace| - 1]), trace[|trace| - 1])
  }

  lemma TrackLast(trace: seq<Action>, a: Action)
    ensures Track(trace + [a]) == Advance(Track(trace), a)
  {
    assert (trace + [a])[..|trace|] == trace;
  }

  /** The settlements of a trace, in order: which channel, and whether its call had been sent. */
  function Settlements(trace: seq<Action>): seq<(string, bool)> {
    if trace == [] then []
    else
      var last := trace[|trace| - 1];
      Settlements(trace[..|trace| - 1]) + if last.SettleCost? then [(last.channel, last.sent)] else []
  }

  function Booked(attempts: seq<Attempt>): (s: seq<(string, bool)>)
    ensures |s| == |attempts| && forall i :: 0 <= i < |s| ==> s[i] == (attempts[i].channel, attempts[i].sent)
  {
    seq(|attempts|, i requires 0 <= i < |attempts| => (attempts[i].channel, attempts[i].sent))
  }

  function TakesOf(c: string): Action -> bool {
    (a: Action) => a == TakeChannel(c)
  }

  function ReturnsOf(c: string): Action -> bool {
    (a: Action) => a.GiveBack? && a.channel == c
  }

  function ReservesOf(c: string): Action -> bool {
    (a: Action) => a == ReserveCost(c)
  }

  function SettlesOf(c: string): Action -> bool {
    (a: Action) => a.SettleCost? && a.channel == c
  }

  /** How often a channel was taken, returned, reserved for and settled, as a phase demands it. */
  predicate Balanced(p: Phase, c: string, taken: int, given: int, reserved: int, settled: int)
    requires !p.Broken?
  {
    taken == One(c in p.used)
    && given == taken - One((p.Holding? || p.Priced?) && p.channel == c)
    && settled == reserved - One((p.Priced? || p.Owing?) && p.channel == c)
  }

  lemma AdvanceBalances(p: Phase, a: Action, c: string, taken: int, given: int, reserved: int, settled: int)
    requires !Advance(p, a).Broken? && !p.Broken? && Balanced(p, c, taken, given, reserved, settled)
    ensures Balanced(Advance(p, a), c, taken + One(TakesOf(c)(a)), given + One(ReturnsOf(c)(a)),
                     reserved + One(ReservesOf(c)(a)), settled + One(SettlesOf(c)(a)))
  {
  }

  /** What the phases mean: a trace that ends idle took each channel at most once, gave back exactly
      what it took, and settled exactly what it reserved. */
  lemma {:induction false} ProtocolBalances(trace: seq<Action>, c: string)
    requires !Track(trace).Broken?
    ensures Balanced(Track(trace), c, Count(trace, TakesOf(c)), Count(trace, ReturnsOf(c)),
                     Count(trace, ReservesOf(c)), Count(trace, SettlesOf(c)))
  {
    if trace != [] {
      var front, a := trace[..|trace| - 1], trace[|trace| - 1];
      ProtocolBalances(front, c);
      AdvanceBalances(Track(front), a, c, Count(front, TakesOf(c)), Count(front, ReturnsOf(c)),
                      Count(front, ReservesOf(c)), Count(front, SettlesOf(c)));
      assert trace == front + [a];
      CountLast(front, a, TakesOf(c));
      CountLast(front, a, ReturnsOf(c));
      CountLast(front, a, ReservesOf(c));
      CountLast(front, a, SettlesOf(c));
    }
  }

  // ---------- Errors and totals ----------

  predicate Retryable(code: string) {
    code in {"upstream_timeout", "upstream_unavailable", "upstream_rate_limited", "upstream_auth_failed",
             "upstream_config_invalid", "invalid_model_response", "credential_unavailable"}
  }

  /** The response's token totals. */
  datatype Totals = Totals(prompt: int, completion: int, total: int, reasoning: int, reported: bool)

  function PromptOf(): Attempt -> int { (a: Attempt) => a.usage.prompt }

  function CompletionOf(): Attempt -> int { (a: Attempt) => a.usage.completion }

  function TotalOf(): Attempt -> int { (a: Attempt) => a.usage.total }

  function ReasoningOf(): Attempt -> int { (a: Attempt) => a.usage.reasoning }

  function WasSent(): Attempt -> bool { (a: Attempt) => a.sent }

  /** Attempts that cost or still hold money: sent ones, and those whose settlement failed. */
  function MayCost(): Attempt -> bool { (a: Attempt) => a.sent || !a.settled }

  ghost predicate TotalsMatch(t: Totals, attempts: seq<Attempt>) {
    t.prompt == Sum(attempts, PromptOf()) && t.completion == Sum(attempts, CompletionOf())
    && t.total == Sum(attempts, TotalOf()) && t.reasoning == Sum(attempts, ReasoningOf())
    && (t.reported <==> forall i :: 0 <= i < |attempts| ==> attempts[i].usage.reported)
  }

  function Totalled(t: Totals, u: Usage): Totals {
    Totals(t.prompt + u.prompt, t.completion + u.completion, t.total + u.total, t.reasoning + u.reasoning,
           t.reported && u.reported)
  }

  lemma TotalsLast(t: Totals, attempts: seq<Attempt>, a: Attempt)
    requires TotalsMatch(t, attempts)
    ensures TotalsMatch(Totalled(t, a.usage), attempts + [a])
  {
    SumLast(attempts, a, PromptOf());
    SumLast(attempts, a, CompletionOf());
    SumLast(attempts, a, TotalOf());
    SumLast(attempts, a, ReasoningOf());
    var both := attempts + [a];
    assert forall i :: 0 <= i < |attempts| ==> both[i] == attempts[i];
    assert both[|attempts|] == a;
  }

  ghost predicate DistinctAttempts(attempts: seq<Attempt>) {
    forall i, j :: 0 <= i < j < |attempts| ==> attempts[i].channel != attempts[j].channel
  }

  function Names(cs: seq<Candidate>): set<string> {
    set i | 0 <= i < |cs| :: cs[i].id
  }

  /** acquireRoute only ever hands out a channel the request has not used. */
  lemma GrantIsUnused(s: Scanned, cs: seq<Candidate>, used: set<string>, tier: seq<nat>, deadline: int,
                      settings: Settings, now: int, draw: int -> int)
    requires Drawable(cs, s.remaining, tier) && IsDraw(draw)
    requires forall i :: i in tier ==> i in s.eligible && cs[i].id in s.routes
    requires forall i :: i in s.eligible ==> i < |cs| && cs[i].id !in used
    ensures var acquired := Grant(s.routes, s.remaining, s.rpmBlocked, cs, tier, deadline, settings, now, draw).1;
            acquired.Leased? ==>
              acquired.index < |cs| && cs[acquired.index].id !in used
                && acquired.ticket.channel == cs[acquired.index].id
  {
    if tier != [] {
      assert Winner(cs, s.remaining, tier, draw) in tier;
    }
  }

  lemma AcquiredIsUnused(r: Round, cs: seq<Candidate>, settings: Settings, used: set<string>, progress: Progress)
    requires ValidCandidates(cs) && IsDraw(r.draw)
    ensures var (_, after, acquired) :=
              Acquire(r.routes, r.slotsFull, cs, settings, used, r.now, r.draw, Some(progress));
            after.Some? && after.value.totalAttempts == progress.totalAttempts
            && (acquired.Leased? ==>
                  acquired.index < |cs| && cs[acquired.index].id !in used
                    && acquired.ticket.channel == cs[acquired.index].id)
  {
    if !r.slotsFull {
      var s := Scan(r.routes, cs, used, r.now, |cs|);
      var (_, tier, deadline) := Narrow(Some(progress), cs, s.eligible, settings, r.now);
      TierIsUsable(Some(progress), cs, s, settings, r.now);
      GrantIsUnused(s, cs, used, tier, deadline, settings, r.now, r.draw);
      SelectionKeepsCounters(progress, cs, s.eligible, settings, r.now);
    }
  }

  // ---------- What a request does with what it meets ----------

  /** What was attempted so far, and what the planner knows of it. */
  datatype Tally = Tally(progress: Progress, attempts: seq<Attempt>, count: int)

  /** Where the loop stands: the channels used up, the error to end with, and the tally. */
  datatype Standing = Standing(taken: set<string>, lastErr: string, tally: Tally)

  /** How a settled call ended. */
  function Finished(r: Round): Option<string> {
    if r.requestOver then Some("audit_timeout") else r.error
  }

  function AttemptOf(c: Candidate, r: Round): Attempt {
    Attempt(c.id, r.usage.attempted, r.settles, r.usage, Finished(r))
  }

  function CalledOn(p: Progress, priority: int): Progress {
    p.(totalAttempts := p.totalAttempts + 1, attempts := p.attempts[priority := GetOr(p.attempts, priority, 0) + 1])
  }

  /** A finished attempt joins the tally, and counts if it was sent. */
  function Joined(t: Tally, priority: int, a: Attempt): Tally {
    Tally(if a.sent then CalledOn(t.progress, priority) else t.progress, t.attempts + [a], t.count + One(a.sent))
  }

  /** The tally after one call, if its reservation was granted. */
  function Called(t: Tally, c: Candidate, r: Round): Tally {
    if r.reservation.Some? then t else Joined(t, c.priority, AttemptOf(c, r))
  }

  /** The error of a call, and whether the loop must stop with it. */
  function CallResult(r: Round): (Option<string>, bool) {
    if r.reservation.Some? then (r.reservation, true)
    else if !r.settles then (Some("cost_record_unavailable"), true)
    else (Finished(r), Finished(r).Some? && !Retryable(Finished(r).value))
  }

  /** One iteration with a channel in hand: None to go on, otherwise the request's result. */
  function Tried(c: Candidate, r: Round, st: Standing): (after: (Option<Option<string>>, Standing))
    ensures after.1.taken == st.taken + {c.id}
  {
    var held := st.(taken := st.taken + {c.id});
    match Prepare(r)
    case TryAnother(e) => (None, if e.Some? then held.(lastErr := e.value) else held)
    case GiveUp(code) => (Some(Some(code)), held)
    case Ready =>
      var called := held.(tally := Called(st.tally, c, r));
      var (e, stop) := CallResult(r);
      if e.None? || stop then (Some(e), called) else (None, called.(lastErr := e.value))
  }

  /** The channel to try, or the error to end with when there is none. */
  function Offered(acquired: Acquired, cs: seq<Candidate>, lastErr: string): (Option<Candidate>, string) {
    match acquired
    case Overloaded => (None, "capacity_exceeded")
    case RpmExceeded => (None, "channel_rpm_exceeded")
    case Unavailable => (None, lastErr)
    case Leased(index, _, _) => (if index < |cs| then Some(cs[index]) else None, lastErr)
  }

  function AcquiredIn(cs: seq<Candidate>, settings: Settings, st: Standing, r: Round): (Option<Progress>, Acquired)
    requires ValidCandidates(cs) && IsDraw(r.draw)
  {
    var (_, progress, acquired) :=
      Acquire(r.routes, r.slotsFull, cs, settings, st.taken, r.now, r.draw, Some(st.tally.progress));
    (progress, acquired)
  }

  /** An iteration once the acquisition has answered. */
  function Continued(cs: seq<Candidate>, st: Standing, r: Round, progress: Option<Progress>, acquired: Acquired)
    : (Option<Option<string>>, Standing)
  {
    var planned := if progress.Some? then st.(tally := st.tally.(progress := progress.value)) else st;
    var (c, code) := Offered(acquired, cs, st.lastErr);
    if c.None? then (Some(Some(code)), planned) else Tried(c.value, r, planned)
  }

  /** One iteration of the loop. */
  function AfterRound(cs: seq<Candidate>, settings: Settings, st: Standing, r: Round)
    : (Option<Option<string>>, Standing)
    requires ValidCandidates(cs) && IsDraw(r.draw)
  {
    if r.cancelled then (Some(Some("audit_timeout")), st)
    else
      var (progress, acquired) := AcquiredIn(cs, settings, st, r);
      Continued(cs, st, r, progress, acquired)
  }

  lemma ContinuingUsesChannel(cs: seq<Candidate>, st: Standing, r: Round, progress: Option<Progress>,
                              acquired: Acquired)
    requires acquired.Leased? ==> acquired.index < |cs| && cs[acquired.index].id !in st.taken
    ensures var (result, next) := Continued(cs, st, r, progress, acquired);
            && (st.taken <= Names(cs) ==> next.taken <= Names(cs))
            && (result.None? ==> |Names(cs) - next.taken| < |Names(cs) - st.taken|)
  {
    if acquired.Leased? {
      UsingShrinks(cs, st.taken, cs[acquired.index].id);
    }
  }

  /** An iteration that goes on has used up one channel more. */
  lemma RoundUsesChannel(cs: seq<Candidate>, settings: Settings, st: Standing, r: Round)
    requires ValidCandidates(cs) && IsDraw(r.draw)
    ensures var (result, next) := AfterRound(cs, settings, st, r);
            && (st.taken <= Names(cs) ==> next.taken <= Names(cs))
            && (result.None? ==> |Names(cs) - next.taken| < |Names(cs) - st.taken|)
  {
    AcquiredIsUnused(r, cs, settings, st.taken, st.tally.progress);
    var (progress, acquired) := AcquiredIn(cs, settings, st, r);
    ContinuingUsesChannel(cs, st, r, progress, acquired);
  }

  /** One pass of the loop: its head, then an iteration on what the oracle says. */
  function Pass(cs: seq<Candidate>, settings: Settings, limit: int, env: nat -> Round)
    : (nat, Standing) -> (Option<Option<string>>, Standing)
    requires ValidCandidates(cs) && forall k :: IsDraw(env(k).draw)
  {
    (k: nat, st: Standing) =>
      if st.tally.count >= limit then (Some(Some(st.lastErr)), st) else AfterRound(cs, settings, st, env(k))
  }

  /** The channels still to be used. */
  function Left(cs: seq<Candidate>): Standing -> nat {
    (st: Standing) => |Names(cs) - st.taken|
  }

  lemma PassesShrink(cs: seq<Candidate>, settings: Settings, limit: int, env: nat -> Round)
    requires ValidCandidates(cs) && forall k :: IsDraw(env(k).draw)
    ensures Shrinks(Pass(cs, settings, limit, env), Left(cs))
  {
    var pass := Pass(cs, settings, limit, env);
    forall k: nat, st | pass(k, st).0.None?
      ensures Left(cs)(pass(k, st).1) < Left(cs)(st)
    {
      RoundUsesChannel(cs, settings, st, env(k));
    }
  }

  /** The whole loop as a function of what its iterations meet. */
  ghost function Routed(cs: seq<Candidate>, settings: Settings, limit: int, env: nat -> Round, round: nat, st: Standing)
    : (Option<string>, Standing)
    requires ValidCandidates(cs) && forall k :: IsDraw(env(k).draw)
  {
    PassesShrink(cs, settings, limit, env);
    Loop(Pass(cs, settings, limit, env), Left(cs), round, st)
  }

  lemma RoutedStep(cs: seq<Candidate>, settings: Settings, limit: int, env: nat -> Round, round: nat, st: Standing,
                   result: Option<Option<string>>, next: Standing)
    requires ValidCandidates(cs) && (forall k :: IsDraw(env(k).draw)) && st.tally.count < limit
    requires AfterRound(cs, settings, st, env(round)) == (result, next)
    ensures Routed(cs, settings, limit, env, round, st)
            == if result.Some? then (result.value, next) else Routed(cs, settings, limit, env, round + 1, next)
  {
  }

  ghost predicate IsRecord(attempts: seq<Attempt>, totals: Totals, trace: seq<Action>, used: set<string>) {
    TotalsMatch(totals, attempts)
    && DistinctAttempts(attempts)
    && Settlements(trace) == Booked(attempts)
    && forall i :: 0 <= i < |attempts| ==>
         attempts[i].channel in used && attempts[i].sent == attempts[i].usage.attempted
  }

  lemma RecordGrows(attempts: seq<Attempt>, totals: Totals, trace: seq<Action>, used: set<string>, a: Attempt)
    requires IsRecord(attempts, totals, trace, used) && a.channel !in used && a.sent == a.usage.attempted
    ensures IsRecord(attempts + [a], Totalled(totals, a.usage), trace + [SettleCost(a.channel, a.sent)],
                     used + {a.channel})
  {
    var booked, more := attempts + [a], trace + [SettleCost(a.channel, a.sent)];
    TotalsLast(totals, attempts, a);
    assert more[..|trace|] == trace;
    assert Booked(booked) == Booked(attempts) + [(a.channel, a.sent)];
    assert Settlements(more) == Settlements(trace) + [(a.channel, a.sent)];
  }

  /** A request's own record of the loop. */
  class AttemptLog {
    var attempts: seq<Attempt>
    var attemptCount: int
    var totals: Totals
    var progress: Progress
    var trace: seq<Action>

    constructor (limit: int, deadline: int)
      ensures attempts == [] && attemptCount == 0 && trace == []
      ensures totals == Totals(0, 0, 0, 0, true) && progress == Initial(limit, deadline)
    {
      attempts, attemptCount, trace := [], 0, [];
      totals, progress := Totals(0, 0, 0, 0, true), Initial(limit, deadline);
    }

    function View(): Tally
      reads `progress, `attempts, `attemptCount
    {
      Tally(progress, attempts, attemptCount)
    }

    /** The attempts so far are of different used channels, as settled in the trace and totalled. */
    ghost predicate Recorded(used: set<string>)
      reads `attempts, `totals, `trace
    {
      IsRecord(attempts, totals, trace, used)
    }

    ghost predicate Counted()
      reads `attempts, `attemptCount, `progress
    {
      attemptCount == Count(attempts, WasSent()) == progress.totalAttempts
    }

    /** What is true of the record between iterations. */
    ghost predicate Consistent(used: set<string>)
      reads this
    {
      Track(trace) == Idle(used) && Recorded(used) && Counted()
    }

    method Note(a: Action)
      modifies this`trace
      ensures trace == old(trace) + [a] && Track(trace) == Advance(old(Track(trace)), a)
      ensures Settlements(trace) == old(Settlements(trace)) + if a.SettleCost? then [(a.channel, a.sent)] else []
    {
      trace := trace + [a];
      TrackLast(old(trace), a);
      assert trace[..|trace| - 1] == old(trace);
    }

    /** A sent call counts against the request's limit and its priority level. */
    method CountCall(priority: int)
      modifies this`attemptCount, this`progress
      ensures attemptCount == old(attemptCount) + 1
      ensures progress == CalledOn(old(progress), priority)
    {
      attemptCount := attemptCount + 1;
      progress := progress.(totalAttempts := progress.totalAttempts + 1,
                            attempts := progress.attempts[priority := GetOr(progress.attempts, priority, 0) + 1]);
    }

    /** A finished attempt joins the log and the response's token totals. */
    method Append(a: Attempt)
      requires TotalsMatch(totals, attempts)
      modifies this`attempts, this`totals
      ensures attempts == old(attempts) + [a] && totals == Totalled(old(totals), a.usage)
              && TotalsMatch(totals, attempts)
      ensures Count(attempts, WasSent()) == Count(old(attempts), WasSent()) + One(a.sent)
      ensures Count(attempts, MayCost()) == Count(old(attempts), MayCost()) + One(a.sent || !a.settled)
    {
      TotalsLast(totals, attempts, a);
      CountLast(attempts, a, WasSent());
      CountLast(attempts, a, MayCost());
      attempts := attempts + [a];
      totals := Totalled(totals, a.usage);
    }

    /** Choosing the next channel, against the table as this iteration finds it. */
    method AcquireNext(cs: seq<Candidate>, settings: Settings, taken: set<string>, r: Round)
      returns (acquired: Acquired)
      requires ValidCandidates(cs) && IsDraw(r.draw)
      modifies this`progress
      ensures (Some(progress), acquired) == AcquiredIn(cs, settings, Standing(taken, "", old(View())), r)
      ensures progress.totalAttempts == old(progress.totalAttempts)
      ensures acquired.Leased? ==> acquired.index < |cs| && cs[acquired.index].id !in taken
    {
      AcquiredIsUnused(r, cs, settings, taken, progress);
      var (_, after, a) := Acquire(r.routes, r.slotsFull, cs, settings, taken, r.now, r.draw, Some(progress));
      progress, acquired := after.value, a;
    }

    /** The channel to try next, or the error to end with when there is none. */
    method NextCandidate(cs: seq<Candidate>, settings: Settings, taken: set<string>, r: Round, lastErr: string)
      returns (c: Option<Candidate>, code: string)
      requires ValidCandidates(cs) && IsDraw(r.draw)
      modifies this`progress
      ensures progress.totalAttempts == old(progress.totalAttempts)
      ensures c.Some? ==> c.value.id in Names(cs) && c.value.id !in taken
      ensures var (after, acquired) := AcquiredIn(cs, settings, Standing(taken, "", old(View())), r);
              after == Some(progress) && (c, code) == Offered(acquired, cs, lastErr)
    {
      var acquired := AcquireNext(cs, settings, taken, r);
      match acquired
      case Overloaded => return None, "capacity_exceeded";
      case RpmExceeded => return None, "channel_rpm_exceeded";
      case Unavailable => return None, lastErr;
      case Leased(index, _, _) => return Some(cs[index]), lastErr;
    }

    /** The settlement and the log entry. */
    method Settle(a: Attempt, ghost before: set<string>)
      requires Recorded(before) && a.channel !in before && a.sent == a.usage.attempted
      requires Track(trace) == Owing(a.channel, a.sent, before + {a.channel})
      modifies this`trace, this`attempts, this`totals
      ensures Recorded(before + {a.channel}) && attempts == old(attempts) + [a]
      ensures Track(trace) == Idle(before + {a.channel})
      ensures Count(attempts, WasSent()) == Count(old(attempts), WasSent()) + One(a.sent)
      ensures Count(attempts, MayCost()) == Count(old(attempts), MayCost()) + One(a.sent || !a.settled)
    {
      RecordGrows(attempts, totals, trace, before, a);
      Note(SettleCost(a.channel, a.sent));
      Append(a);
    }

    /** The call's end: the channel goes back, and a sent call counts. */
    method Close(c: Candidate, sent: bool, ghost before: set<string>)
      requires Recorded(before) && Track(trace) == Priced(c.id, before + {c.id})
      modifies this`trace, this`attemptCount, this`progress
      ensures Recorded(before) && Track(trace) == Owing(c.id, sent, before + {c.id})
      ensures attemptCount == old(attemptCount) + One(sent)
      ensures progress == if sent then CalledOn(old(progress), c.priority) else old(progress)
    {
      Note(GiveBack(c.id, sent));
      if sent {
        CountCall(c.priority);
      }
    }

    /** From the call's end to its settlement. */
    method Finish(c: Candidate, a: Attempt, ghost before: set<string>)
      requires Recorded(before) && Counted() && c.id !in before && attemptCount == Count(attempts, MayCost())
      requires Track(trace) == Priced(c.id, before + {c.id}) && a.channel == c.id && a.sent == a.usage.attempted
      modifies this
      ensures Consistent(before + {c.id})
      ensures View() == Joined(old(View()), c.priority, a)
      ensures Count(attempts, MayCost()) == old(attemptCount) + One(a.sent || !a.settled)
    {
      Close(c, a.sent, before);
      Settle(a, before);
    }

    /** One call from reservation to settlement, and how it ended: None for a verdict, otherwise the
        error and whether the loop must stop with it. */
    method Call(c: Candidate, r: Round, ghost before: set<string>) returns (error: Option<string>, stop: bool)
      requires Recorded(before) && Counted() && c.id !in before && attemptCount == Count(attempts, MayCost())
      requires Track(trace) == Holding(c.id, before + {c.id})
      modifies this
      ensures Consistent(before + {c.id}) && attemptCount <= old(attemptCount) + 1
      ensures Count(attempts, MayCost()) <= old(attemptCount) + 1
      ensures !stop ==> Count(attempts, MayCost()) == attemptCount
      ensures (error, stop) == CallResult(r)
      ensures View() == Called(old(View()), c, r)
    {
      if r.reservation.Some? {
        Decline(c, before);
        return r.reservation, true;
      }
      Note(ReserveCost(c.id));
      error := if r.requestOver then Some("audit_timeout") else r.error;
      Finish(c, Attempt(c.id, r.usage.attempted, r.settles, r.usage, error), before);
      if !r.settles {
        return Some("cost_record_unavailable"), true;
      }
      stop := error.Some? && !Retryable(error.value);
    }

    /** A channel taken and given back without a call. */
    method Decline(c: Candidate, ghost before: set<string>)
      requires Recorded(before) && Counted() && Track(trace) == Holding(c.id, before + {c.id})
      modifies this`trace
      ensures Consistent(before + {c.id})
    {
      Note(GiveBack(c.id, false));
    }

    /** The rest of an iteration whose channel passed its checks. */
    method Proceed(c: Candidate, r: Round, lastErr: string, ghost used: set<string>)
      returns (result: Option<Option<string>>, nextErr: string)
      requires Prepare(r).Ready? && Recorded(used) && Counted() && c.id !in used
               && attemptCount == Count(attempts, MayCost())
      requires Track(trace) == Holding(c.id, used + {c.id})
      modifies this
      ensures Consistent(used + {c.id}) && attemptCount <= old(attemptCount) + 1
      ensures Count(attempts, MayCost()) <= old(attemptCount) + 1
      ensures result.None? ==> Count(attempts, MayCost()) == attemptCount
      ensures (result, Standing(used + {c.id}, nextErr, View())) == Tried(c, r, Standing(used, lastErr, old(View())))
    {
      var e, stop := Call(c, r, used);
      if e.None? || stop {
        return Some(e), lastErr;
      }
      return None, e.value;
    }

    /** One iteration with a channel in hand: None to go on, otherwise the request's result. */
    method Try(c: Candidate, r: Round, lastErr: string, ghost used: set<string>)
      returns (result: Option<Option<string>>, nextErr: string)
      requires c.id !in used && Consistent(used) && attemptCount == Count(attempts, MayCost())
      modifies this
      ensures Consistent(used + {c.id}) && attemptCount <= old(attemptCount) + 1
      ensures Count(attempts, MayCost()) <= old(attemptCount) + 1
      ensures result.None? ==> Count(attempts, MayCost()) == attemptCount
      ensures (result, Standing(used + {c.id}, nextErr, View())) == Tried(c, r, Standing(used, lastErr, old(View())))
    {
      Note(TakeChannel(c.id));
      match Prepare(r) {
        case TryAnother(e) =>
          Decline(c, used);
          return None, if e.Some? then e.value else lastErr;
        case GiveUp(code) =>
          Decline(c, used);
          return Some(Some(code)), lastErr;
        case Ready =>
          result, nextErr := Proceed(c, r, lastErr, used);
      }
    }

    /** One iteration: None to go on with one channel more used up, otherwise the request's result. */
    method Iterate(cs: seq<Candidate>, settings: Settings, taken: set<string>, r: Round, lastErr: string)
      returns (result: Option<Option<string>>, nextTaken: set<string>, nextErr: string)
      requires ValidCandidates(cs) && IsDraw(r.draw) && taken <= Names(cs)
      requires Consistent(taken) && attemptCount == Count(attempts, MayCost())
      modifies this
      ensures nextTaken <= Names(cs) && Consistent(nextTaken) && attemptCount <= old(attemptCount) + 1
      ensures Count(attempts, MayCost()) <= old(attemptCount) + 1
      ensures result.None? ==> Count(attempts, MayCost()) == attemptCount
      ensures (result, Standing(nextTaken, nextErr, View()))
              == AfterRound(cs, settings, Standing(taken, lastErr, old(View())), r)
    {
      if r.cancelled {
        return Some(Some("audit_timeout")), taken, lastErr;
      }
      var next, code := NextCandidate(cs, settings, taken, r, lastErr);
      if next.None? {
        return Some(Some(code)), taken, lastErr;
      }
      var c := next.value;
      nextTaken := taken + {c.id};
      result, nextErr := Try(c, r, lastErr, taken);
    }
  }

  /** Where a request starts. */
  function Start(limit: int, deadline: int): Standing {
    Standing({}, "no_available_channel", Tally(Initial(limit, deadline), [], 0))
  }

  /** executeRoute's loop. The oracle env gives each iteration what it meets. On every exit, early or
      not, the trace is idle again: whatever was taken was given back and whatever was reserved was
      settled; no channel was used twice; and no more than limit attempts were sent or can cost. */
  method ExecuteRoute(cs: seq<Candidate>, settings: Settings, limit: int, deadline: int, env: nat -> Round)
    returns (error: Option<string>, log: AttemptLog, taken: set<string>)
    requires ValidCandidates(cs) && 1 <= limit && forall k :: IsDraw(env(k).draw)
    ensures fresh(log) && log.Consistent(taken) && taken <= Names(cs)
    ensures Count(log.attempts, MayCost()) <= limit && log.attemptCount <= limit
    ensures var (e, end) := Routed(cs, settings, limit, env, 0, Start(limit, deadline));
            error == e && Standing(taken, end.lastErr, log.View()) == end
  {
    log := new AttemptLog(limit, deadline);
    taken := {};
    var lastErr := "no_available_channel";
    var round := 0;
    ghost var routed := Routed(cs, settings, limit, env, 0, Start(limit, deadline));
    while log.attemptCount < limit
      invariant taken <= Names(cs) && fresh(log) && log.Consistent(taken)
      invariant log.attemptCount == Count(log.attempts, MayCost()) <= limit
      invariant Routed(cs, settings, limit, env, round, Standing(taken, lastErr, log.View())) == routed
      decreases |Names(cs) - taken|
    {
      ghost var st := Standing(taken, lastErr, log.View());
      RoundUsesChannel(cs, settings, st, env(round));
      var result;
      result, taken, lastErr := log.Iterate(cs, settings, taken, env(round), lastErr);
      RoutedStep(cs, settings, limit, env, round, st, result, Standing(taken, lastErr, log.View()));
      round := round + 1;
      if result.Some? {
        return result.value, log, taken;
      }
    }
    return Some(lastErr), log, taken;
  }

  lemma UsingShrinks(cs: seq<Candidate>, taken: set<string>, id: string)
    requires id in Names(cs) && id !in taken
    ensures |Names(cs) - (taken + {id})| < |Names(cs) - taken|
  {
    assert Names(cs) - (taken + {id}) == (Names(cs) - taken) - {id};
  }
}
