/** A run in which two half-open probes of one connection are out: resetChannel blanks a channel's signature
    (router.go:137-143) while tickets taken with that connection are still out. */
module RouterResets {
  import opened Base
  import opened Counting
  import opened Channel
  import opened Routing
  import opened RouteFailover
  import opened Router
  import opened RouterRuns
  import opened RouterHealth

  const DEFAULTS := Settings(1, 0, 0, 0, 0)
  const LIMITED := Failed("upstream_rate_limited", SECOND)

  /** An acquisition that has only c left to choose: the other candidate was used before. */
  function TakeStep(c: Candidate, d: Candidate, draw: int -> int, now: int): Step {
    AcquireStep(false, [c, d], DEFAULTS, {d.id}, now, draw, None)
  }

  lemma ScanAlone(routes: Routes, c: Candidate, d: Candidate, now: int)
    requires ValidCandidate(c) && ValidCandidate(d) && c.id != d.id
    requires Inspect(GetOr(routes, c.id, NEW), c, now, false).1.Usable?
    ensures var (s, verdict) := Inspect(GetOr(routes, c.id, NEW), c, now, false);
            Scan(routes, [c, d], {d.id}, now, 2) == Scanned(routes[c.id := s], [verdict.remaining, 0], [0], false)
  {
    var (s, verdict) := Inspect(GetOr(routes, c.id, NEW), c, now, false);
    var s0, s1 := Scanned(routes, [], [], false), Scanned(routes[c.id := s], [verdict.remaining], [0], false);
    assert Scan(routes, [c, d], {d.id}, now, 0) == s0;
    assert ScanStep(s0, c, {d.id}, now, false) == s1;
    assert Scan(routes, [c, d], {d.id}, now, 1) == s1;
  }

  lemma TierAlone(cs: seq<Candidate>)
    requires cs != [] && ValidCandidates(cs)
    ensures OnLevel(cs, [0], Highest(cs, [0], {})) == [0]
  {
    assert Highest(cs, [], {}) == LOWEST_PRIORITY + 1;
    assert Highest(cs, [0], {}) == cs[0].priority;
    assert OnLevel(cs, [], cs[0].priority) == [];
  }

  lemma AcquireAlone(routes: Routes, c: Candidate, d: Candidate, draw: int -> int, now: int)
    requires ValidCandidate(c) && ValidCandidate(d) && c.id != d.id && IsDraw(draw)
    requires Inspect(GetOr(routes, c.id, NEW), c, now, false).1.Usable?
    ensures ValidCandidates([c, d])
    ensures var s := Inspect(GetOr(routes, c.id, NEW), c, now, false).0;
            var t := TicketFor(c, s, DEFAULTS, now, false);
            Acquire(routes, false, [c, d], DEFAULTS, {d.id}, now, draw, None)
            == (routes[c.id := s][c.id := Take(s, t.probe)], None, Leased(0, t, ZERO_TIME))
  {
    ScanAlone(routes, c, d, now);
    TierAlone([c, d]);
  }

  /** Two channels of a policy, the first without an RPM limit and with three slots or more. */
  ghost predicate Sound(c: Candidate, d: Candidate, draw: int -> int) {
    ValidCandidate(c) && ValidCandidate(d) && c.id != d.id && IsDraw(draw)
    && c.rpm == 0 && 3 <= c.maxConcurrency && 0 <= c.revision && c.signature != ""
  }

  /** What the run is followed by: the connection, its health, the tickets out and the clock. */
  datatype Expected = Expected(signature: string, health: Health, tickets: seq<Ticket>, clock: int)

  predicate Stands(w: World, c: Candidate, e: Expected) {
    var s := StateOf(w, c.id);
    s.signature == e.signature && s.health == e.health && s.revision <= c.revision && s.inFlight == |e.tickets|
    && w.tickets == e.tickets && w.clock == e.clock && (e.tickets != [] ==> c.id in w.routes)
  }

  function TicketAt(c: Candidate, now: int, probe: bool): Ticket {
    Ticket(c.id, c.signature, now, probe, false, 3, 30 * MINUTE)
  }

  /** The connection's health as an acquisition finds it. */
  function Found(c: Candidate, e: Expected): Health {
    if e.signature == c.signature then e.health else FRESH
  }

  function AfterTaking(c: Candidate, e: Expected, now: int): Expected {
    var t := TicketAt(c, now, Found(c, e).until != ZERO_TIME);
    Expected(c.signature, if t.probe then Found(c, e).(probe := true) else Found(c, e), e.tickets + [t], now)
  }

  lemma InspectionFinds(s: State, c: Candidate, e: Expected, now: int)
    requires c.rpm == 0 && s.revision <= c.revision && s.inFlight < c.maxConcurrency
    requires s.signature == e.signature && s.health == e.health
    requires Found(c, e).until <= now && !Found(c, e).probe
    ensures var (s', verdict) := Inspect(s, c, now, false);
            verdict.Usable? && s'.signature == c.signature && s'.health == Found(c, e)
            && s'.revision <= c.revision && s'.inFlight == s.inFlight
  {
  }

  lemma AcquireStands(w: World, c: Candidate, d: Candidate, draw: int -> int, e: Expected, now: int)
    requires Sound(c, d, draw) && Stands(w, c, e) && e.clock <= now && 0 < now && |e.tickets| < 3
    requires Found(c, e).until <= now && !Found(c, e).probe
    ensures Stands(Next(w, TakeStep(c, d, draw, now)), c, AfterTaking(c, e, now))
  {
    InspectionFinds(StateOf(w, c.id), c, e, now);
    AcquireAlone(w.routes, c, d, draw, now);
    var s := Inspect(StateOf(w, c.id), c, now, false).0;
    var t := TicketFor(c, s, DEFAULTS, now, false);
    assert t == TicketAt(c, now, Found(c, e).until != ZERO_TIME);
    assert Enabled(w, TakeStep(c, d, draw, now));
    var next := Next(w, TakeStep(c, d, draw, now));
    assert next == World(w.routes[c.id := s][c.id := Take(s, t.probe)], w.tickets + [t], w.sent, now);
  }

  function AfterReturning(e: Expected, o: Outcome, sent: bool, at: int): Expected
    requires e.tickets != []
  {
    e.(health := Finish(e.health, e.tickets[0], o, sent, at), tickets := Without(e.tickets, 0))
  }

  lemma ReleaseStands(w: World, c: Candidate, e: Expected, o: Outcome, sent: bool, at: int)
    requires Stands(w, c, e) && e.tickets != []
    requires e.tickets[0].channel == c.id && e.tickets[0].signature == e.signature
    ensures Stands(Next(w, ReleaseStep(0, e.tickets[0].acquiredAt, o, sent, at)), c, AfterReturning(e, o, sent, at))
  {
  }

  lemma ResetStands(w: World, c: Candidate, e: Expected)
    requires Stands(w, c, e) && e.tickets != []
    ensures Stands(Next(w, ResetStep(c.id)), c, e.(signature := "", health := FRESH))
  {
  }

  /** One step leads from one expectation to the next. */
  ghost predicate Leads(c: Candidate, d: Candidate, draw: int -> int, e: Expected, s: Step, e': Expected) {
    match s
    case AcquireStep(_, _, _, _, now, _, _) =>
      s == TakeStep(c, d, draw, now) && e.clock <= now && 0 < now && |e.tickets| < 3
      && Found(c, e).until <= now && !Found(c, e).probe && e' == AfterTaking(c, e, now)
    case ReleaseStep(k, attemptAt, o, sent, at) =>
      k == 0 && e.tickets != [] && attemptAt == e.tickets[0].acquiredAt
      && e.tickets[0].channel == c.id && e.tickets[0].signature == e.signature
      && e' == AfterReturning(e, o, sent, at)
    case ResetStep(id) => id == c.id && e.tickets != [] && e' == e.(signature := "", health := FRESH)
    case _ => false
  }

  lemma StepFollows(w: World, c: Candidate, d: Candidate, draw: int -> int, e: Expected, s: Step, e': Expected)
    requires Sound(c, d, draw) && Stands(w, c, e) && Leads(c, d, draw, e, s, e')
    ensures Stands(Next(w, s), c, e')
  {
    match s
    case AcquireStep(_, _, _, _, now, _, _) => AcquireStands(w, c, d, draw, e, now);
    case ReleaseStep(_, _, o, sent, at) => ReleaseStands(w, c, e, o, sent, at);
    case ResetStep(_) => ResetStands(w, c, e);
    case _ =>
  }

  lemma {:induction false} RunFollows(steps: seq<Step>, c: Candidate, d: Candidate, draw: int -> int, es: seq<Expected>)
    requires Sound(c, d, draw) && |es| == |steps| + 1 && Stands(START, c, es[0])
    requires forall k :: 0 <= k < |steps| ==> Leads(c, d, draw, es[k], steps[k], es[k + 1])
    ensures Stands(Run(steps), c, es[|steps|])
  {
    if steps != [] {
      var n := |steps| - 1;
      RunFollows(steps[..n], c, d, draw, es[..n + 1]);
      StepFollows(Run(steps[..n]), c, d, draw, es[n], steps[n], es[n + 1]);
    }
  }

  /** Two attempts start; one is rate limited, so a probe goes out after the cooldown; an administrator
      resets the channel; the same connection is adopted again by a third attempt, the other old attempt is
      rate limited too, and after that cooldown a second probe goes out. */
  function ResetRun(c: Candidate, d: Candidate, draw: int -> int): seq<Step> {
    [TakeStep(c, d, draw, 1),
     TakeStep(c, d, draw, 2),
     ReleaseStep(0, 1, LIMITED, true, 3),
     TakeStep(c, d, draw, 2 * SECOND),
     ResetStep(c.id),
     TakeStep(c, d, draw, 3 * SECOND),
     ReleaseStep(0, 2, LIMITED, true, 3 * SECOND),
     TakeStep(c, d, draw, 5 * SECOND)]
  }

  /** The state after each step of the run. */
  function Reached(c: Candidate, k: nat): Expected {
    var (one, two, older) := (TicketAt(c, 1, false), TicketAt(c, 2, false), TicketAt(c, 2 * SECOND, true));
    var (three, younger) := (TicketAt(c, 3 * SECOND, false), TicketAt(c, 5 * SECOND, true));
    match k
    case 0 => Expected("", FRESH, [], ZERO_TIME)
    case 1 => Expected(c.signature, FRESH, [one], 1)
    case 2 => Expected(c.signature, FRESH, [one, two], 2)
    case 3 => Expected(c.signature, Finish(FRESH, one, LIMITED, true, 3), [two], 2)
    case 4 => Expected(c.signature, Finish(FRESH, one, LIMITED, true, 3).(probe := true), [two, older], 2 * SECOND)
    case 5 => Expected("", FRESH, [two, older], 2 * SECOND)
    case 6 => Expected(c.signature, FRESH, [two, older, three], 3 * SECOND)
    case 7 => Expected(c.signature, Finish(FRESH, two, LIMITED, true, 3 * SECOND), [older, three], 3 * SECOND)
    case _ => Expected(c.signature, Finish(FRESH, two, LIMITED, true, 3 * SECOND).(probe := true),
                       [older, three, younger], 5 * SECOND)
  }

  lemma ResetRunLeads(c: Candidate, d: Candidate, draw: int -> int, k: nat)
    requires k < 8 && c.signature != ""
    ensures Leads(c, d, draw, Reached(c, k), ResetRun(c, d, draw)[k], Reached(c, k + 1))
  {
    match k
    case 2 => assert Without(Reached(c, 2).tickets, 0) == Reached(c, 3).tickets;
    case 6 => assert Without(Reached(c, 6).tickets, 0) == Reached(c, 7).tickets;
    case _ =>
  }

  /** One probe at a time fails for this run of the engine, whatever the connection: two probes of the current
      connection are out, and handing in the older one, unsent, clears the mark while the younger is out. */
  lemma ResetAllowsTwoProbes(c: Candidate, d: Candidate, draw: int -> int)
    requires Sound(c, d, draw)
    ensures var w := Run(ResetRun(c, d, draw));
            StateOf(w, c.id).signature == c.signature && StateOf(w, c.id).health.probe
            && ProbesOut(w, c.id, c.signature) == 2
    ensures var w := Next(Run(ResetRun(c, d, draw)), ReleaseStep(0, 2 * SECOND, Cancelled, false, 6 * SECOND));
            StateOf(w, c.id).signature == c.signature && !StateOf(w, c.id).health.probe
            && ProbesOut(w, c.id, c.signature) == 1
    ensures !ProbesNeverReadopted(ResetRun(c, d, draw), c.id)
  {
    var steps, e, p := ResetRun(c, d, draw), Reached(c, 8), ProbeOn(c.id, c.signature);
    forall k | 0 <= k < 8
      ensures Leads(c, d, draw, Reached(c, k), steps[k], Reached(c, k + 1))
    {
      ResetRunLeads(c, d, draw, k);
    }
    RunFollows(steps, c, d, draw, seq(9, k requires 0 <= k < 9 => Reached(c, k)));
    CountOfThree(e.tickets[0], e.tickets[1], e.tickets[2], p);
    ReleaseStands(Run(steps), c, e, Cancelled, false, 6 * SECOND);
    MarkRightThroughout(steps, c.id);
  }

  lemma CountOfThree(a: Ticket, b: Ticket, c: Ticket, p: Ticket -> bool)
    ensures Count([a, b, c], p) == One(p(a)) + One(p(b)) + One(p(c))
    ensures Count(Without([a, b, c], 0), p) == One(p(b)) + One(p(c))
  {
    assert [a, b, c] == ([a] + [b]) + [c] && Without([a, b, c], 0) == [b] + [c];
    CountLast([], a, p);
    CountLast([a], b, p);
    CountLast([a] + [b], c, p);
    CountLast([], b, p);
    CountLast([b], c, p);
    assert [] + [a] == [a] && [] + [b] == [b];
  }
}
