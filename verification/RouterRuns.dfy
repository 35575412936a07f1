/** Runs of the shared channel table: acquires, releases in any order, refunds, edits (candidates that
    carry another connection), resets and health reports of any number of requests interleave. */
module RouterRuns {
  import opened Base
  import opened Counting
  import opened Channel
  import opened Routing
  import opened RouteFailover
  import opened Router

  /** A call that really went upstream. */
  datatype Call = Call(channel: string, at: int)

  /** The table, the tickets not yet released, every call ever sent, and the latest clock read. */
  datatype World = World(routes: Routes, tickets: seq<Ticket>, sent: seq<Call>, clock: int)

  const START := World(map[], [], [], ZERO_TIME)

  datatype Step =
    | AcquireStep(slotsFull: bool, cs: seq<Candidate>, settings: Settings, used: set<string>, now: int,
                  draw: int -> int, progress: Option<Progress>)
    | ReleaseStep(k: nat, attemptAt: int, o: Outcome, sent: bool, clock: int)
    | ResetStep(id: string)
    | ReportStep(id: string, now: int)

  /** A request's candidates are distinct channels (router.go:577-604). */
  predicate DistinctChannels(cs: seq<Candidate>) {
    forall i, j :: 0 <= i < j < |cs| ==> cs[i].id != cs[j].id
  }

  /** Clock reads never go backwards, and a call starts no earlier than its channel was acquired. */
  ghost predicate Enabled(w: World, s: Step) {
    match s
    case AcquireStep(_, cs, _, _, now, draw, _) =>
      ValidCandidates(cs) && DistinctChannels(cs) && IsDraw(draw) && w.clock <= now
    case ReleaseStep(k, attemptAt, _, _, _) =>
      k < |w.tickets| && w.tickets[k].acquiredAt <= attemptAt && w.tickets[k].channel in w.routes
    case ResetStep(_) => true
    case ReportStep(_, now) => w.clock <= now
  }

  ghost function Next(w: World, s: Step): World {
    if !Enabled(w, s) then w
    else
      match s
      case AcquireStep(slotsFull, cs, settings, used, now, draw, progress) =>
        var (routes, _, acquired) := Acquire(w.routes, slotsFull, cs, settings, used, now, draw, progress);
        World(routes, if acquired.Leased? then w.tickets + [acquired.ticket] else w.tickets, w.sent, now)
      case ReleaseStep(k, attemptAt, o, sent, clock) =>
        var t := w.tickets[k];
        World(w.routes[t.channel := Release(w.routes[t.channel], t, attemptAt, o, sent, clock)],
              Without(w.tickets, k), if sent then w.sent + [Call(t.channel, attemptAt)] else w.sent, w.clock)
      case ResetStep(id) =>
        if id in w.routes then w.(routes := w.routes[id := Reset(w.routes[id])]) else w
      case ReportStep(id, now) =>
        var trimmed := if id in w.routes then
                         w.routes[id := w.routes[id].(rpmCalls := Pruned(w.routes[id].rpmCalls, now))]
                       else w.routes;
        w.(routes := trimmed, clock := now)
  }

  ghost function Run(steps: seq<Step>): World {
    if steps == [] then START else Next(Run(steps[..|steps| - 1]), steps[|steps| - 1])
  }

  function StateOf(w: World, ch: string): State {
    GetOr(w.routes, ch, NEW)
  }

  // ---------- What one step does to one channel ----------

  datatype Move =
    | Quiet
    | Looked(c: Candidate, now: int, single: bool)
    | Taken(c: Candidate, now: int, single: bool, ticket: Ticket)
    | Returned(ticket: Ticket, attemptAt: int, o: Outcome, sent: bool, at: int)
    | Cleared
    | Trimmed(now: int)

  function Moved(s: State, m: Move): State {
    match m
    case Quiet => s
    case Looked(c, now, single) => Inspect(s, c, now, single).0
    case Taken(c, now, single, ticket) => Take(Inspect(s, c, now, single).0, ticket.probe)
    case Returned(ticket, attemptAt, o, sent, at) => Release(s, ticket, attemptAt, o, sent, at)
    case Cleared => Reset(s)
    case Trimmed(now) => s.(rpmCalls := Pruned(s.rpmCalls, now))
  }

  /** A channel is taken only when its inspection found it usable, with the ticket made for it. */
  predicate Fitting(s: State, m: Move) {
    m.Taken? ==>
      var (inspected, verdict) := Inspect(s, m.c, m.now, m.single);
      verdict.Usable?
      && m.ticket.channel == m.c.id && m.ticket.signature == m.c.signature && m.ticket.acquiredAt == m.now
      && m.ticket.single == m.single && (m.ticket.probe <==> !m.single && inspected.health.until != ZERO_TIME)
  }

  /** A channel's position among the candidates, or their number when it is not one. */
  function IndexOf(cs: seq<Candidate>, ch: string): (p: nat)
    ensures p <= |cs| && (p < |cs| ==> cs[p].id == ch)
    ensures forall i :: 0 <= i < p ==> cs[i].id != ch
  {
    if cs == [] || cs[0].id == ch then 0
    else
      var q := IndexOf(cs[1..], ch);
      assert forall i :: 1 <= i < q + 1 ==> cs[i] == cs[1..][i - 1];
      q + 1
  }

  /** The scan of the first k candidates has looked at a channel through its own candidate only. */
  ghost predicate Projected(routes: Routes, cs: seq<Candidate>, used: set<string>, now: int, k: nat, ch: string,
                            s: Scanned)
  {
    var p := IndexOf(cs, ch);
    if ch in used || p >= k || p >= |cs| then
      GetOr(s.routes, ch, NEW) == GetOr(routes, ch, NEW) && (ch in s.routes <==> ch in routes) && p !in s.eligible
    else
      var (state, verdict) := Inspect(GetOr(routes, ch, NEW), cs[p], now, |cs| == 1);
      ch in s.routes && s.routes[ch] == state && (p in s.eligible <==> verdict.Usable?)
  }

  lemma OwnScanStep(routes: Routes, cs: seq<Candidate>, used: set<string>, now: int, before: Scanned, ch: string)
    requires var p := IndexOf(cs, ch);
             p < |cs| && |before.remaining| == p && Projected(routes, cs, used, now, p, ch, before)
    ensures var p := IndexOf(cs, ch);
            Projected(routes, cs, used, now, p + 1, ch, ScanStep(before, cs[p], used, now, |cs| == 1))
  {
  }

  lemma OtherScanStep(routes: Routes, cs: seq<Candidate>, used: set<string>, now: int, k: nat, before: Scanned,
                      ch: string)
    requires k < |cs| && |before.remaining| == k && k != IndexOf(cs, ch) && cs[k].id != ch
    requires Projected(routes, cs, used, now, k, ch, before)
    ensures Projected(routes, cs, used, now, k + 1, ch, ScanStep(before, cs[k], used, now, |cs| == 1))
  {
    var after := ScanStep(before, cs[k], used, now, |cs| == 1);
    assert GetOr(after.routes, ch, NEW) == GetOr(before.routes, ch, NEW);
    assert ch in after.routes <==> ch in before.routes;
    assert forall i :: i != k ==> (i in after.eligible <==> i in before.eligible);
  }

  lemma {:induction false} ScanProjection(routes: Routes, cs: seq<Candidate>, used: set<string>, now: int, k: nat,
                                          ch: string)
    requires k <= |cs| && ValidCandidates(cs) && DistinctChannels(cs)
    ensures Projected(routes, cs, used, now, k, ch, Scan(routes, cs, used, now, k))
  {
    if k > 0 {
      ScanProjection(routes, cs, used, now, k - 1, ch);
      if IndexOf(cs, ch) == k - 1 {
        OwnScanStep(routes, cs, used, now, Scan(routes, cs, used, now, k - 1), ch);
      } else {
        OtherScanStep(routes, cs, used, now, k - 1, Scan(routes, cs, used, now, k - 1), ch);
      }
    }
  }

  /** The move an acquire makes on a channel, given how it ended. */
  function AcquireMove(cs: seq<Candidate>, used: set<string>, now: int, acquired: Acquired, ch: string): Move {
    var p := IndexOf(cs, ch);
    if ch in used || p == |cs| then Quiet
    else if acquired.Leased? && acquired.ticket.channel == ch then Taken(cs[p], now, |cs| == 1, acquired.ticket)
    else Looked(cs[p], now, |cs| == 1)
  }

  ghost function MoveOf(w: World, s: Step, ch: string): Move {
    if !Enabled(w, s) then Quiet
    else
      match s
      case AcquireStep(slotsFull, cs, settings, used, now, draw, progress) =>
        if slotsFull then Quiet
        else AcquireMove(cs, used, now, Acquire(w.routes, slotsFull, cs, settings, used, now, draw, progress).2, ch)
      case ReleaseStep(k, attemptAt, o, sent, clock) =>
        if w.tickets[k].channel == ch then Returned(w.tickets[k], attemptAt, o, sent, clock) else Quiet
      case ResetStep(id) => if id == ch && ch in w.routes then Cleared else Quiet
      case ReportStep(id, now) => if id == ch && ch in w.routes then Trimmed(now) else Quiet
  }

  /** Every step moves every channel by exactly one move. */
  lemma StepIsMove(w: World, s: Step, ch: string)
    ensures var m := MoveOf(w, s, ch);
            StateOf(Next(w, s), ch) == Moved(StateOf(w, ch), m) && Fitting(StateOf(w, ch), m)
  {
    if Enabled(w, s) && s.AcquireStep? && !s.slotsFull {
      AcquireIsMove(w, s, ch);
    }
  }

  /** The grant takes the ticket's channel and leaves every other one alone. */
  ghost predicate Granted(scanned: Scanned, cs: seq<Candidate>, routes: Routes, acquired: Acquired, now: int,
                          ch: string)
  {
    var p := IndexOf(cs, ch);
    if acquired.Leased? && acquired.ticket.channel == ch then
      var t := acquired.ticket;
      p < |cs| && p in scanned.eligible && ch in scanned.routes
      && GetOr(routes, ch, NEW) == Take(scanned.routes[ch], t.probe)
      && t.signature == cs[p].signature && t.acquiredAt == now && t.single == (|cs| == 1)
      && (t.probe <==> |cs| != 1 && scanned.routes[ch].health.until != ZERO_TIME)
    else GetOr(routes, ch, NEW) == GetOr(scanned.routes, ch, NEW)
  }

  lemma GrantIsLocal(scanned: Scanned, cs: seq<Candidate>, used: set<string>, tier: seq<nat>, deadline: int,
                     settings: Settings, now: int, draw: int -> int, ch: string)
    requires Drawable(cs, scanned.remaining, tier) && IsDraw(draw) && DistinctChannels(cs)
    requires forall i :: i in tier ==> i in scanned.eligible
    requires forall i :: i in scanned.eligible ==> i < |cs| && cs[i].id !in used && cs[i].id in scanned.routes
    ensures var (routes, acquired) :=
              Grant(scanned.routes, scanned.remaining, scanned.rpmBlocked, cs, tier, deadline, settings, now, draw);
            Granted(scanned, cs, routes, acquired, now, ch)
  {
    if tier != [] {
      WinnerIsOwnCandidate(cs, scanned, used, tier, draw, ch);
    }
  }

  lemma AcquireIsLocal(w: World, s: Step, ch: string)
    requires Enabled(w, s) && s.AcquireStep? && !s.slotsFull
    ensures var (routes, _, acquired) :=
              Acquire(w.routes, s.slotsFull, s.cs, s.settings, s.used, s.now, s.draw, s.progress);
            Granted(Scan(w.routes, s.cs, s.used, s.now, |s.cs|), s.cs, routes, acquired, s.now, ch)
  {
    var scanned := Scan(w.routes, s.cs, s.used, s.now, |s.cs|);
    TierIsUsable(s.progress, s.cs, scanned, s.settings, s.now);
    var (_, tier, deadline) := Narrow(s.progress, s.cs, scanned.eligible, s.settings, s.now);
    GrantIsLocal(scanned, s.cs, s.used, tier, deadline, s.settings, s.now, s.draw, ch);
  }

  lemma MoveFromParts(before: Routes, cs: seq<Candidate>, used: set<string>, now: int, scanned: Scanned,
                      after: Routes, acquired: Acquired, ch: string)
    requires Projected(before, cs, used, now, |cs|, ch, scanned) && Granted(scanned, cs, after, acquired, now, ch)
    ensures var m := AcquireMove(cs, used, now, acquired, ch);
            GetOr(after, ch, NEW) == Moved(GetOr(before, ch, NEW), m) && Fitting(GetOr(before, ch, NEW), m)
            && (acquired.Leased? && acquired.ticket.channel == ch <==> m.Taken?)
  {
  }

  lemma AcquireIsMove(w: World, s: Step, ch: string)
    requires Enabled(w, s) && s.AcquireStep? && !s.slotsFull
    ensures var m := MoveOf(w, s, ch);
            StateOf(Next(w, s), ch) == Moved(StateOf(w, ch), m) && Fitting(StateOf(w, ch), m)
            && var acquired := Acquire(w.routes, s.slotsFull, s.cs, s.settings, s.used, s.now, s.draw, s.progress).2;
               (acquired.Leased? && acquired.ticket.channel == ch <==> m.Taken?)
  {
    AcquireIsLocal(w, s, ch);
    ScanProjection(w.routes, s.cs, s.used, s.now, |s.cs|, ch);
    var (routes, _, acquired) := Acquire(w.routes, s.slotsFull, s.cs, s.settings, s.used, s.now, s.draw, s.progress);
    MoveFromParts(w.routes, s.cs, s.used, s.now, Scan(w.routes, s.cs, s.used, s.now, |s.cs|), routes, acquired, ch);
  }

  /** When the draw falls on a channel, it is that channel's own candidate that won. */
  lemma WinnerIsOwnCandidate(cs: seq<Candidate>, scanned: Scanned, used: set<string>, tier: seq<nat>,
                             draw: int -> int, ch: string)
    requires Drawable(cs, scanned.remaining, tier) && tier != [] && IsDraw(draw) && DistinctChannels(cs)
    requires forall i :: i in tier ==> i in scanned.eligible
    requires forall i :: i in scanned.eligible ==> i < |cs| && cs[i].id !in used
    ensures var i := Winner(cs, scanned.remaining, tier, draw);
            cs[i].id == ch ==> i == IndexOf(cs, ch) && ch !in used && i in scanned.eligible
  {
    var i := Winner(cs, scanned.remaining, tier, draw);
    assert i in tier;
    if cs[i].id == ch {
      var p := IndexOf(cs, ch);
      assert p <= i;
    }
  }

  // ---------- Counting tickets and calls of one channel ----------

  function On(ch: string): Ticket -> bool {
    (t: Ticket) => t.channel == ch
  }

  /** Tickets that could still be sent at or before x. */
  function HeldBy(ch: string, x: int): Ticket -> bool {
    (t: Ticket) => t.channel == ch && t.acquiredAt <= x
  }

  /** Calls that start after x. */
  function SentAfter(ch: string, x: int): Call -> bool {
    (c: Call) => c.channel == ch && x < c.at
  }

  /** Calls that start in the minute that ends with x. */
  function SentInMinute(ch: string, x: int): Call -> bool {
    (c: Call) => c.channel == ch && x - MINUTE < c.at <= x
  }

  function After(x: int): int -> bool {
    (at: int) => x < at
  }

  lemma AcquiredTicketCounted(w: World, s: Step, ch: string, p: Ticket -> bool)
    requires Enabled(w, s) && s.AcquireStep? && !s.slotsFull && forall t :: p(t) ==> t.channel == ch
    ensures var m := MoveOf(w, s, ch);
            !m.Returned? && Count(Next(w, s).tickets, p) == Count(w.tickets, p) + One(m.Taken? && p(m.ticket))
  {
    AcquireIsMove(w, s, ch);
    var acquired := Acquire(w.routes, s.slotsFull, s.cs, s.settings, s.used, s.now, s.draw, s.progress).2;
    if acquired.Leased? {
      CountLast(w.tickets, acquired.ticket, p);
    }
  }

  lemma TicketsCounted(w: World, s: Step, ch: string, p: Ticket -> bool)
    requires forall t :: p(t) ==> t.channel == ch
    ensures var m := MoveOf(w, s, ch);
            Count(Next(w, s).tickets, p)
            == Count(w.tickets, p) + One(m.Taken? && p(m.ticket)) - One(m.Returned? && p(m.ticket))
  {
    if Enabled(w, s) {
      if s.AcquireStep? && !s.slotsFull {
        AcquiredTicketCounted(w, s, ch, p);
      } else if s.ReleaseStep? {
        CountWithout(w.tickets, s.k, p);
      }
    }
  }

  lemma CallsCounted(w: World, s: Step, ch: string, p: Call -> bool)
    requires forall c :: p(c) ==> c.channel == ch
    ensures var m := MoveOf(w, s, ch);
            Count(Next(w, s).sent, p) == Count(w.sent, p) + One(m.Returned? && m.sent && p(Call(ch, m.attemptAt)))
  {
    if Enabled(w, s) && s.ReleaseStep? && s.sent {
      CountLast(w.sent, Call(w.tickets[s.k].channel, s.attemptAt), p);
    }
  }

  // ---------- The rolling window against the full history ----------

  ghost predicate Sorted(calls: seq<int>) {
    forall i, j :: 0 <= i < j < |calls| ==> calls[i] <= calls[j]
  }

  lemma CountFirst(calls: seq<int>, p: int -> bool)
    requires calls != []
    ensures Count(calls, p) == Count(calls[1..], p) + One(p(calls[0]))
  {
    SumSplit(calls, 0, Indicator(p));
  }

  /** Trimming at `now` forgets nothing that a later window counts. */
  lemma {:induction false} PruningForgetsNothing(calls: seq<int>, now: int, x: int)
    requires now - MINUTE <= x
    ensures Count(Pruned(calls, now), After(x)) == Count(calls, After(x))
  {
    if calls != [] && calls[0] <= now - MINUTE {
      CountFirst(calls, After(x));
      PruningForgetsNothing(calls[1..], now, x);
    }
  }

  lemma {:induction false} PrunedIsWindow(calls: seq<int>, now: int)
    requires Sorted(calls)
    ensures |Pruned(calls, now)| == Count(calls, After(now - MINUTE)) && Sorted(Pruned(calls, now))
  {
    if calls != [] && calls[0] <= now - MINUTE {
      CountFirst(calls, After(now - MINUTE));
      PrunedIsWindow(calls[1..], now);
    } else {
      CountBounds(calls, After(now - MINUTE));
    }
  }

  lemma {:induction false} InsertionSorts(calls: seq<int>, at: int)
    requires Sorted(calls)
    ensures Sorted(Inserted(calls, at))
    ensures forall k :: 0 <= k < |Inserted(calls, at)| ==>
      Inserted(calls, at)[k] in calls || Inserted(calls, at)[k] == at
  {
    if calls != [] && calls[0] < at {
      var rest := Inserted(calls[1..], at);
      InsertionSorts(calls[1..], at);
      forall k | 0 <= k < |rest|
        ensures calls[0] <= rest[k] && (rest[k] in calls || rest[k] == at)
      {
        assert rest[k] in calls[1..] || rest[k] == at;
      }
    }
  }

  lemma {:induction false} InsertionCounts(calls: seq<int>, at: int, p: int -> bool)
    ensures Count(Inserted(calls, at), p) == Count(calls, p) + One(p(at))
  {
    if calls != [] && calls[0] < at {
      var rest := Inserted(calls[1..], at);
      InsertionCounts(calls[1..], at, p);
      CountFirst(calls, p);
      CountFirst([calls[0]] + rest, p);
      assert ([calls[0]] + rest)[1..] == rest;
    } else {
      CountFirst([at] + calls, p);
      assert ([at] + calls)[1..] == calls;
    }
  }

  /** Quota bookkeeping of one channel: reservations and slots are the tickets out, and the trimmed list
      agrees with the full history on every window that can still be asked for. */
  ghost predicate QuotaKept(w: World, ch: string) {
    var s := StateOf(w, ch);
    Sorted(s.rpmCalls)
    && s.rpmPending == s.inFlight == Count(w.tickets, On(ch))
    && forall now :: w.clock <= now ==> WindowAgrees(w, ch, now)
  }

  predicate WindowAgrees(w: World, ch: string, now: int) {
    Count(StateOf(w, ch).rpmCalls, After(now - MINUTE)) == Count(w.sent, SentAfter(ch, now - MINUTE))
  }

  /** The clock read a move was made with, or no later than any. */
  function ReadAt(m: Move, otherwise: int): int {
    match m
    case Looked(_, now, _) => now
    case Taken(_, now, _, _) => now
    case Trimmed(now) => now
    case _ => otherwise
  }

  lemma ClockAdvances(w: World, s: Step, ch: string)
    ensures w.clock <= Next(w, s).clock && ReadAt(MoveOf(w, s, ch), w.clock) <= Next(w, s).clock
  {
  }

  lemma InspectionOnQuota(s: State, c: Candidate, now: int, single: bool)
    ensures var s' := Inspect(s, c, now, single).0;
            s'.rpmPending == s.rpmPending && s'.inFlight == s.inFlight
            && (s'.rpmCalls == s.rpmCalls || s'.rpmCalls == Pruned(s.rpmCalls, now))
  {
  }

  /** What a move does to the quota part of a channel. */
  lemma MoveOnQuota(s: State, m: Move, x: int)
    requires Sorted(s.rpmCalls) && ReadAt(m, x + MINUTE) - MINUTE <= x
    ensures var s' := Moved(s, m);
            Sorted(s'.rpmCalls)
            && Count(s'.rpmCalls, After(x))
               == Count(s.rpmCalls, After(x)) + One(m.Returned? && m.sent && x < m.attemptAt)
            && s'.rpmPending == s.rpmPending + One(m.Taken?) - One(m.Returned?)
            && s'.inFlight == s.inFlight + One(m.Taken?) - One(m.Returned?)
  {
    match m
    case Looked(c, now, single) =>
      InspectionOnQuota(s, c, now, single);
      TrimOnQuota(s.rpmCalls, now, x);
    case Taken(c, now, single, _) =>
      InspectionOnQuota(s, c, now, single);
      TrimOnQuota(s.rpmCalls, now, x);
    case Trimmed(now) => TrimOnQuota(s.rpmCalls, now, x);
    case Returned(_, attemptAt, _, _, _) => InsertOnQuota(s.rpmCalls, attemptAt, x);
    case _ =>
  }

  lemma InsertOnQuota(calls: seq<int>, at: int, x: int)
    requires Sorted(calls)
    ensures Sorted(Inserted(calls, at))
    ensures Count(Inserted(calls, at), After(x)) == Count(calls, After(x)) + One(x < at)
  {
    InsertionSorts(calls, at);
    InsertionCounts(calls, at, After(x));
  }

  lemma TrimOnQuota(calls: seq<int>, now: int, x: int)
    requires Sorted(calls) && now - MINUTE <= x
    ensures Sorted(Pruned(calls, now)) && Count(Pruned(calls, now), After(x)) == Count(calls, After(x))
  {
    PrunedIsWindow(calls, now);
    PruningForgetsNothing(calls, now, x);
  }

  lemma StepKeepsWindow(w: World, s: Step, ch: string, now: int)
    requires QuotaKept(w, ch) && Next(w, s).clock <= now
    ensures WindowAgrees(Next(w, s), ch, now)
  {
    StepIsMove(w, s, ch);
    ClockAdvances(w, s, ch);
    assert WindowAgrees(w, ch, now);
    CallsCounted(w, s, ch, SentAfter(ch, now - MINUTE));
    MoveOnQuota(StateOf(w, ch), MoveOf(w, s, ch), now - MINUTE);
  }

  lemma StepKeepsQuota(w: World, s: Step, ch: string)
    requires QuotaKept(w, ch)
    ensures QuotaKept(Next(w, s), ch)
  {
    StepIsMove(w, s, ch);
    ClockAdvances(w, s, ch);
    TicketsCounted(w, s, ch, On(ch));
    MoveOnQuota(StateOf(w, ch), MoveOf(w, s, ch), Next(w, s).clock - MINUTE);
    TakenTicketIsOurs(w, s, ch);
    forall now | Next(w, s).clock <= now
      ensures WindowAgrees(Next(w, s), ch, now)
    {
      StepKeepsWindow(w, s, ch, now);
    }
  }

  lemma TakenTicketIsOurs(w: World, s: Step, ch: string)
    ensures var m := MoveOf(w, s, ch);
            (m.Taken? ==> m.ticket.channel == ch && m.c.id == ch) && (m.Returned? ==> m.ticket.channel == ch)
  {
  }

  lemma {:induction false} QuotaAlwaysKept(steps: seq<Step>, ch: string)
    ensures QuotaKept(Run(steps), ch)
  {
    if steps != [] {
      QuotaAlwaysKept(steps[..|steps| - 1], ch);
      StepKeepsQuota(Run(steps[..|steps| - 1]), steps[|steps| - 1], ch);
    } else {
      assert Count(START.tickets, On(ch)) == 0;
    }
  }

  /** In every reachable state, what rpmUsed reports at any present or future time is exactly the number
      of calls in the full history of that window plus the reservations still out. */
  lemma RpmUsedIsExact(steps: seq<Step>, ch: string, now: int)
    requires Run(steps).clock <= now
    ensures var w := Run(steps);
            RpmUsed(StateOf(w, ch), now) == Count(w.sent, SentAfter(ch, now - MINUTE)) + Count(w.tickets, On(ch))
  {
    QuotaAlwaysKept(steps, ch);
    assert WindowAgrees(Run(steps), ch, now);
    PrunedIsWindow(StateOf(Run(steps), ch).rpmCalls, now);
  }

  // ---------- Limits that hold over whole runs ----------

  /** An acquire finds the channel with a limit in force that is at most this one. */
  predicate LimitedTo(s: Step, ch: string, rpm: int) {
    s.AcquireStep? ==> forall i :: 0 <= i < |s.cs| && s.cs[i].id == ch ==> 0 < s.cs[i].rpm <= rpm
  }

  /** An acquire finds the channel with at most this many slots. */
  predicate SlottedTo(s: Step, ch: string, slots: int) {
    s.AcquireStep? ==> forall i :: 0 <= i < |s.cs| && s.cs[i].id == ch ==> s.cs[i].maxConcurrency <= slots
  }

  lemma UsableHasRoom(s: State, c: Candidate, now: int, single: bool)
    requires Inspect(s, c, now, single).1.Usable?
    ensures s.inFlight < c.maxConcurrency
    ensures c.rpm > 0 ==> |Pruned(s.rpmCalls, now)| + s.rpmPending < c.rpm
  {
  }

  /** A taken channel is one of the acquire's candidates, at a time the clock has reached. */
  lemma TakenIsCandidate(w: World, s: Step, ch: string)
    requires MoveOf(w, s, ch).Taken?
    ensures var m := MoveOf(w, s, ch);
            s.AcquireStep? && w.clock <= m.now && exists i :: 0 <= i < |s.cs| && s.cs[i] == m.c && m.c.id == ch
  {
  }

  lemma ReturnedNotEarly(w: World, s: Step, ch: string)
    requires MoveOf(w, s, ch).Returned?
    ensures MoveOf(w, s, ch).ticket.acquiredAt <= MoveOf(w, s, ch).attemptAt
  {
  }

  /** What the limits need to know of a move, apart from how it was computed. */
  ghost predicate Lawful(w: World, ch: string, m: Move) {
    Fitting(StateOf(w, ch), m)
    && (m.Taken? ==> m.ticket.channel == ch && w.clock <= m.now)
    && (m.Returned? ==> m.ticket.channel == ch && m.ticket.acquiredAt <= m.attemptAt)
  }

  lemma StepIsLawful(w: World, s: Step, ch: string)
    ensures Lawful(w, ch, MoveOf(w, s, ch))
  {
    StepIsMove(w, s, ch);
    TakenTicketIsOurs(w, s, ch);
    if MoveOf(w, s, ch).Taken? {
      TakenIsCandidate(w, s, ch);
    } else if MoveOf(w, s, ch).Returned? {
      ReturnedNotEarly(w, s, ch);
    }
  }

  /** A taken channel had a free slot and, when limited, room in its window for all that is out. */
  lemma TakenHadRoom(w: World, ch: string, m: Move)
    requires QuotaKept(w, ch) && Lawful(w, ch, m) && m.Taken?
    ensures Count(w.tickets, On(ch)) < m.c.maxConcurrency
    ensures m.c.rpm > 0 ==> Count(w.sent, SentAfter(ch, m.now - MINUTE)) + Count(w.tickets, On(ch)) < m.c.rpm
  {
    UsableHasRoom(StateOf(w, ch), m.c, m.now, m.single);
    assert WindowAgrees(w, ch, m.now);
    PrunedIsWindow(StateOf(w, ch).rpmCalls, m.now);
  }

  /** Calls in the minute ending at x, plus every reservation that might still become one of them. */
  predicate WindowHolds(w: World, ch: string, rpm: int, x: int) {
    Count(w.sent, SentInMinute(ch, x)) + Count(w.tickets, HeldBy(ch, x)) <= rpm
  }

  lemma MoveKeepsWindowLimit(w: World, w': World, ch: string, m: Move, rpm: int, x: int)
    requires QuotaKept(w, ch) && Lawful(w, ch, m) && (m.Taken? ==> 0 < m.c.rpm <= rpm) && WindowHolds(w, ch, rpm, x)
    requires Count(w'.tickets, HeldBy(ch, x))
             == Count(w.tickets, HeldBy(ch, x)) + One(m.Taken? && HeldBy(ch, x)(m.ticket))
                - One(m.Returned? && HeldBy(ch, x)(m.ticket))
    requires Count(w'.sent, SentInMinute(ch, x))
             == Count(w.sent, SentInMinute(ch, x))
                + One(m.Returned? && m.sent && SentInMinute(ch, x)(Call(ch, m.attemptAt)))
    ensures WindowHolds(w', ch, rpm, x)
  {
    if m.Taken? && m.now <= x {
      TakenHadRoom(w, ch, m);
      CountImplies(w.tickets, HeldBy(ch, x), On(ch));
      CountImplies(w.sent, SentInMinute(ch, x), SentAfter(ch, m.now - MINUTE));
    }
  }

  lemma StepKeepsWindowLimit(w: World, s: Step, ch: string, rpm: int, x: int)
    requires QuotaKept(w, ch) && LimitedTo(s, ch, rpm) && WindowHolds(w, ch, rpm, x)
    ensures WindowHolds(Next(w, s), ch, rpm, x)
  {
    StepIsLawful(w, s, ch);
    if MoveOf(w, s, ch).Taken? {
      TakenIsCandidate(w, s, ch);
    }
    TicketsCounted(w, s, ch, HeldBy(ch, x));
    CallsCounted(w, s, ch, SentInMinute(ch, x));
    MoveKeepsWindowLimit(w, Next(w, s), ch, MoveOf(w, s, ch), rpm, x);
  }

  lemma {:induction false} WindowAlwaysHolds(steps: seq<Step>, ch: string, rpm: int, x: int)
    requires 0 <= rpm && forall k :: 0 <= k < |steps| ==> LimitedTo(steps[k], ch, rpm)
    ensures WindowHolds(Run(steps), ch, rpm, x)
  {
    if steps != [] {
      var front := steps[..|steps| - 1];
      WindowAlwaysHolds(front, ch, rpm, x);
      QuotaAlwaysKept(front, ch);
      StepKeepsWindowLimit(Run(front), steps[|steps| - 1], ch, rpm, x);
    }
  }

  /** The rate limit: whatever the interleaving of acquires, out-of-order or stale completions, refunds,
      resets and edits, of the limit itself too, no more calls of the channel start within any one minute
      than the largest limit that was in force. */
  lemma RateLimitHolds(steps: seq<Step>, ch: string, rpm: int, x: int)
    requires 0 <= rpm && forall k :: 0 <= k < |steps| ==> LimitedTo(steps[k], ch, rpm)
    ensures Count(Run(steps).sent, SentInMinute(ch, x)) <= rpm
  {
    WindowAlwaysHolds(steps, ch, rpm, x);
    CountBounds(Run(steps).tickets, HeldBy(ch, x));
  }

  /** The slot limit: a channel's concurrent attempts are its tickets out, never more than the most slots it
      had, whatever is edited meanwhile. */
  lemma {:induction false} SlotLimitHolds(steps: seq<Step>, ch: string, slots: int)
    requires 0 <= slots && forall k :: 0 <= k < |steps| ==> SlottedTo(steps[k], ch, slots)
    ensures StateOf(Run(steps), ch).inFlight == Count(Run(steps).tickets, On(ch)) <= slots
  {
    QuotaAlwaysKept(steps, ch);
    if steps != [] {
      var front := steps[..|steps| - 1];
      var w, s := Run(front), steps[|steps| - 1];
      SlotLimitHolds(front, ch, slots);
      QuotaAlwaysKept(front, ch);
      TicketsCounted(w, s, ch, On(ch));
      StepIsLawful(w, s, ch);
      if MoveOf(w, s, ch).Taken? {
        TakenIsCandidate(w, s, ch);
        TakenHadRoom(w, ch, MoveOf(w, s, ch));
      }
    }
  }
}
