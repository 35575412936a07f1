/** Many requests on one channel table: each follows the protocol of the attempt loop (router.go:666-775), and what
    it takes and gives back are the table's own acquisitions and releases. */
module RouterRequests {
  import opened Base
  import opened Counting
  import opened Channel
  import opened Routing
  import opened RouteFailover
  import opened Router
  import opened RouterRuns
  import opened UsageReports
  import A = AttemptLoop

  /** The table with its tickets out, the request each ticket belongs to, and every request's trace so far. */
  datatype Joint = Joint(world: World, owners: seq<nat>, traces: map<nat, seq<A.Action>>)

  const IDLE := Joint(START, [], map[])

  /** What requests and administrators do. A request acquires with the channels it has used up and hands in
      the ticket it holds; reservations and settlements do not touch the table. */
  datatype Event =
    | Acquiring(q: nat, s: Step)
    | Reserving(q: nat)
    | GivingBack(q: nat, attemptAt: int, o: Outcome, sent: bool, clock: int)
    | Settling(q: nat)
    | Managing(s: Step)

  function TraceOf(j: Joint, q: nat): seq<A.Action> {
    GetOr(j.traces, q, [])
  }

  function PhaseOf(j: Joint, q: nat): A.Phase {
    A.Track(TraceOf(j, q))
  }

  function Noted(j: Joint, q: nat, a: A.Action): Joint {
    j.(traces := j.traces[q := TraceOf(j, q) + [a]])
  }

  predicate Holds(p: A.Phase) {
    p.Holding? || p.Priced?
  }

  /** The first ticket of a request, or the number of tickets when it has none. */
  function TicketOf(owners: seq<nat>, q: nat): (k: nat)
    ensures k <= |owners| && (k < |owners| ==> owners[k] == q)
    ensures k == |owners| ==> forall i :: 0 <= i < |owners| ==> owners[i] != q
  {
    if owners == [] || owners[0] == q then 0
    else
      var k := TicketOf(owners[1..], q);
      assert forall i :: 1 <= i < |owners| ==> owners[i] == owners[1..][i - 1];
      k + 1
  }

  ghost predicate Allowed(j: Joint, e: Event) {
    match e
    case Acquiring(q, s) =>
      PhaseOf(j, q).Idle? && s.AcquireStep? && s.used == PhaseOf(j, q).used && s.progress.Some? && Enabled(j.world, s)
    case Reserving(q) => PhaseOf(j, q).Holding?
    case GivingBack(q, attemptAt, o, sent, clock) =>
      Holds(PhaseOf(j, q)) && (PhaseOf(j, q).Holding? ==> !sent)
      && Enabled(j.world, ReleaseStep(TicketOf(j.owners, q), attemptAt, o, sent, clock))
    case Settling(q) => PhaseOf(j, q).Owing?
    case Managing(s) => !s.AcquireStep? && !s.ReleaseStep?
  }

  ghost function Handled(j: Joint, e: Event): Joint {
    if !Allowed(j, e) then j
    else
      match e
      case Acquiring(q, s) =>
        var acquired := Acquire(j.world.routes, s.slotsFull, s.cs, s.settings, s.used, s.now, s.draw, s.progress).2;
        var next := j.(world := Next(j.world, s));
        if acquired.Leased? then Noted(next.(owners := j.owners + [q]), q, A.TakeChannel(acquired.ticket.channel))
        else next
      case Reserving(q) => Noted(j, q, A.ReserveCost(PhaseOf(j, q).channel))
      case GivingBack(q, attemptAt, o, sent, clock) =>
        var k := TicketOf(j.owners, q);
        var next := j.(world := Next(j.world, ReleaseStep(k, attemptAt, o, sent, clock)),
                       owners := if k < |j.owners| then Without(j.owners, k) else j.owners);
        Noted(next, q, A.GiveBack(PhaseOf(j, q).channel, sent))
      case Settling(q) => Noted(j, q, A.SettleCost(PhaseOf(j, q).channel, PhaseOf(j, q).sent))
      case Managing(s) => j.(world := Next(j.world, s))
  }

  ghost function Together(events: seq<Event>): Joint {
    if events == [] then IDLE else Handled(Together(events[..|events| - 1]), events[|events| - 1])
  }

  // ---------- What every interleaving keeps ----------

  /** Ticket k belongs to a request that holds just its channel. */
  predicate Owned(j: Joint, k: nat)
    requires k < |j.owners| && k < |j.world.tickets|
  {
    var p := PhaseOf(j, j.owners[k]);
    Holds(p) && p.channel == j.world.tickets[k].channel
  }

  /** Tickets out and requests holding a channel are one to one, and no request left the protocol. */
  ghost predicate Matched(j: Joint) {
    |j.owners| == |j.world.tickets| && Distinct(j.owners)
    && (forall k :: 0 <= k < |j.owners| ==> Owned(j, k))
    && (forall q: nat :: Holds(PhaseOf(j, q)) ==> TicketOf(j.owners, q) < |j.owners|)
    && forall q: nat :: !PhaseOf(j, q).Broken?
  }

  lemma NotedPhase(j: Joint, q: nat, a: A.Action, other: nat)
    ensures PhaseOf(Noted(j, q, a), other) == if other == q then A.Advance(PhaseOf(j, q), a) else PhaseOf(j, other)
  {
    A.TrackLast(TraceOf(j, q), a);
  }

  lemma HolderFound(owners: seq<nat>, q: nat, k: nat)
    requires k < |owners| && owners[k] == q
    ensures TicketOf(owners, q) < |owners|
  {
  }

  /** A step of a request's own trace that leaves the tickets alone. */
  lemma NotingKeeps(j: Joint, q: nat, a: A.Action)
    requires Matched(j) && !A.Advance(PhaseOf(j, q), a).Broken?
    requires var (p, p') := (PhaseOf(j, q), A.Advance(PhaseOf(j, q), a));
             (Holds(p) <==> Holds(p')) && (Holds(p) ==> p.channel == p'.channel)
    ensures Matched(Noted(j, q, a))
  {
    var next := Noted(j, q, a);
    forall other: nat
      ensures PhaseOf(next, other) == if other == q then A.Advance(PhaseOf(j, q), a) else PhaseOf(j, other)
    {
      NotedPhase(j, q, a, other);
    }
    forall k | 0 <= k < |j.owners|
      ensures Owned(next, k)
    {
      assert Owned(j, k);
    }
  }

  lemma TakingKeeps(j: Joint, world: World, q: nat, t: Ticket)
    requires Matched(j) && PhaseOf(j, q).Idle? && t.channel !in PhaseOf(j, q).used
    requires world.tickets == j.world.tickets + [t]
    ensures Matched(Noted(Joint(world, j.owners + [q], j.traces), q, A.TakeChannel(t.channel)))
  {
    var before, a := Joint(world, j.owners + [q], j.traces), A.TakeChannel(t.channel);
    var next := Noted(before, q, a);
    forall other: nat
      ensures PhaseOf(next, other) == if other == q then A.Advance(PhaseOf(j, q), a) else PhaseOf(j, other)
    {
      NotedPhase(before, q, a, other);
    }
    forall k | 0 <= k < |next.owners|
      ensures Owned(next, k) && (k < |j.owners| ==> next.owners[k] != q)
    {
      assert k < |j.owners| ==> Owned(j, k);
    }
    forall other: nat | Holds(PhaseOf(next, other))
      ensures TicketOf(next.owners, other) < |next.owners|
    {
      HolderFound(next.owners, other, if other == q then |j.owners| else TicketOf(j.owners, other));
    }
  }

  lemma DistinctWithout(owners: seq<nat>, k: nat)
    requires Distinct(owners) && k < |owners|
    ensures Distinct(Without(owners, k))
  {
  }

  /** What is left of tickets and requests once one of them gave its ticket back. */
  ghost predicate WithoutRequest(j: Joint, next: Joint, q: nat) {
    TicketOf(j.owners, q) < |j.owners| == |j.world.tickets|
    && next.owners == Without(j.owners, TicketOf(j.owners, q))
    && next.world.tickets == Without(j.world.tickets, TicketOf(j.owners, q))
    && !Holds(PhaseOf(next, q)) && forall other: nat :: other != q ==> PhaseOf(next, other) == PhaseOf(j, other)
  }

  lemma OthersStayOwned(j: Joint, next: Joint, q: nat, i: nat)
    requires Matched(j) && WithoutRequest(j, next, q) && i < |next.owners|
    ensures Owned(next, i)
  {
    var k := TicketOf(j.owners, q);
    var m := if i < k then i else i + 1;
    assert next.owners[i] == j.owners[m] && next.world.tickets[i] == j.world.tickets[m];
    assert Owned(j, m) && j.owners[m] != j.owners[k];
  }

  lemma OthersKeepTickets(j: Joint, next: Joint, q: nat, other: nat)
    requires Matched(j) && WithoutRequest(j, next, q) && Holds(PhaseOf(next, other))
    ensures TicketOf(next.owners, other) < |next.owners|
  {
    var k, m := TicketOf(j.owners, q), TicketOf(j.owners, other);
    assert other != q && m != k;
    HolderFound(next.owners, other, if m < k then m else m - 1);
  }

  lemma GivingKeeps(j: Joint, world: World, q: nat, sent: bool)
    requires Matched(j) && Holds(PhaseOf(j, q)) && (PhaseOf(j, q).Holding? ==> !sent)
    requires world.tickets == Without(j.world.tickets, TicketOf(j.owners, q))
    ensures Matched(Noted(Joint(world, Without(j.owners, TicketOf(j.owners, q)), j.traces), q,
                          A.GiveBack(PhaseOf(j, q).channel, sent)))
  {
    var k, a := TicketOf(j.owners, q), A.GiveBack(PhaseOf(j, q).channel, sent);
    var before := Joint(world, Without(j.owners, k), j.traces);
    var next := Noted(before, q, a);
    forall other: nat
      ensures PhaseOf(next, other) == if other == q then A.Advance(PhaseOf(j, q), a) else PhaseOf(j, other)
    {
      NotedPhase(before, q, a, other);
    }
    DistinctWithout(j.owners, k);
    forall i | 0 <= i < |next.owners|
      ensures Owned(next, i)
    {
      OthersStayOwned(j, next, q, i);
    }
    forall other: nat | Holds(PhaseOf(next, other))
      ensures TicketOf(next.owners, other) < |next.owners|
    {
      OthersKeepTickets(j, next, q, other);
    }
  }

  lemma AcquisitionIsUnused(w: World, s: Step)
    requires Enabled(w, s) && s.AcquireStep? && s.progress.Some?
    ensures var acquired := Acquire(w.routes, s.slotsFull, s.cs, s.settings, s.used, s.now, s.draw, s.progress).2;
            acquired.Leased? ==> acquired.ticket.channel !in s.used
  {
    var r := A.Round(false, w.routes, s.slotsFull, s.now, s.draw, A.StillActive, A.SameKey, None,
                     NO_USAGE, None, false, true);
    A.AcquiredIsUnused(r, s.cs, s.settings, s.used, s.progress.value);
  }

  lemma EventKeeps(j: Joint, e: Event)
    requires Matched(j)
    ensures Matched(Handled(j, e))
  {
    if Allowed(j, e) {
      match e
      case Acquiring(q, s) =>
        AcquisitionIsUnused(j.world, s);
        var acquired := Acquire(j.world.routes, s.slotsFull, s.cs, s.settings, s.used, s.now, s.draw, s.progress).2;
        if acquired.Leased? {
          TakingKeeps(j, Next(j.world, s), q, acquired.ticket);
        } else {
          SameTickets(j, Next(j.world, s));
        }
      case Reserving(q) => NotingKeeps(j, q, A.ReserveCost(PhaseOf(j, q).channel));
      case GivingBack(q, attemptAt, o, sent, clock) =>
        GivingKeeps(j, Next(j.world, ReleaseStep(TicketOf(j.owners, q), attemptAt, o, sent, clock)), q, sent);
      case Settling(q) => NotingKeeps(j, q, A.SettleCost(PhaseOf(j, q).channel, PhaseOf(j, q).sent));
      case Managing(s) => SameTickets(j, Next(j.world, s));
    }
  }

  lemma SameTickets(j: Joint, world: World)
    requires Matched(j) && world.tickets == j.world.tickets
    ensures Matched(j.(world := world))
  {
    var next := j.(world := world);
    assert forall q: nat :: PhaseOf(next, q) == PhaseOf(j, q);
    forall k | 0 <= k < |j.owners|
      ensures Owned(next, k)
    {
      assert Owned(j, k);
    }
  }

  lemma QuotaStaysKept(j: Joint, e: Event, ch: string)
    requires QuotaKept(j.world, ch)
    ensures QuotaKept(Handled(j, e).world, ch)
  {
    if Allowed(j, e) {
      match e
      case Acquiring(_, s) => StepKeepsQuota(j.world, s, ch);
      case GivingBack(q, attemptAt, o, sent, clock) =>
        StepKeepsQuota(j.world, ReleaseStep(TicketOf(j.owners, q), attemptAt, o, sent, clock), ch);
      case Managing(s) => StepKeepsQuota(j.world, s, ch);
      case _ =>
    }
  }

  /** Whatever requests run together: none leaves the protocol, and the tickets out are one to one those of the
      requests that hold a channel. */
  lemma {:induction false} TicketsMatchRequests(events: seq<Event>)
    ensures Matched(Together(events))
  {
    if events != [] {
      TicketsMatchRequests(events[..|events| - 1]);
      EventKeeps(Together(events[..|events| - 1]), events[|events| - 1]);
    }
  }

  lemma {:induction false} QuotaKeptTogether(events: seq<Event>, ch: string)
    ensures QuotaKept(Together(events).world, ch)
  {
    if events != [] {
      QuotaKeptTogether(events[..|events| - 1], ch);
      QuotaStaysKept(Together(events[..|events| - 1]), events[|events| - 1], ch);
    } else {
      QuotaAlwaysKept([], ch);
    }
  }

  // ---------- In-flight counts are the requests' own ----------

  /** The requests among the first n owners whose ticket is the channel's. */
  function HoldersAmong(owners: seq<nat>, tickets: seq<Ticket>, ch: string, n: nat): (qs: set<nat>)
    requires n <= |owners| == |tickets|
  {
    if n == 0 then {}
    else HoldersAmong(owners, tickets, ch, n - 1) + if tickets[n - 1].channel == ch then {owners[n - 1]} else {}
  }

  lemma {:induction false} AmongHolders(owners: seq<nat>, tickets: seq<Ticket>, ch: string, n: nat, q: nat)
    requires n <= |owners| == |tickets|
    ensures q in HoldersAmong(owners, tickets, ch, n)
            <==> exists k :: 0 <= k < n && owners[k] == q && tickets[k].channel == ch
  {
    if n > 0 {
      AmongHolders(owners, tickets, ch, n - 1, q);
    }
  }

  /** The requests that hold the channel. */
  ghost predicate AreHolders(j: Joint, ch: string, qs: set<nat>) {
    forall q: nat :: q in qs <==> Holds(PhaseOf(j, q)) && PhaseOf(j, q).channel == ch
  }

  lemma {:induction false} HoldersCounted(owners: seq<nat>, tickets: seq<Ticket>, ch: string, n: nat)
    requires n <= |owners| == |tickets| && Distinct(owners)
    ensures |HoldersAmong(owners, tickets, ch, n)| == Count(tickets[..n], On(ch))
  {
    if n > 0 {
      HoldersCounted(owners, tickets, ch, n - 1);
      AmongHolders(owners, tickets, ch, n - 1, owners[n - 1]);
      CountPrefix(tickets, n - 1, On(ch));
    }
  }

  lemma HoldersAreThose(j: Joint, ch: string)
    requires Matched(j)
    ensures AreHolders(j, ch, HoldersAmong(j.owners, j.world.tickets, ch, |j.owners|))
  {
    var qs := HoldersAmong(j.owners, j.world.tickets, ch, |j.owners|);
    forall q: nat
      ensures q in qs <==> Holds(PhaseOf(j, q)) && PhaseOf(j, q).channel == ch
    {
      AmongHolders(j.owners, j.world.tickets, ch, |j.owners|, q);
      if k :| 0 <= k < |j.owners| && j.owners[k] == q && j.world.tickets[k].channel == ch {
        assert Owned(j, k);
      }
      if Holds(PhaseOf(j, q)) {
        assert Owned(j, TicketOf(j.owners, q));
      }
    }
  }

  /** The counts of a channel, in-flight and pending alike, are the number of requests that hold it, whatever requests
      and administrators did together. */
  lemma InFlightIsHolders(events: seq<Event>, ch: string) returns (holders: set<nat>)
    ensures AreHolders(Together(events), ch, holders)
    ensures var s := StateOf(Together(events).world, ch); s.inFlight == s.rpmPending == |holders|
  {
    var j := Together(events);
    TicketsMatchRequests(events);
    QuotaKeptTogether(events, ch);
    holders := HoldersAmong(j.owners, j.world.tickets, ch, |j.owners|);
    HoldersAreThose(j, ch);
    HoldersCounted(j.owners, j.world.tickets, ch, |j.owners|);
    assert j.world.tickets[..|j.owners|] == j.world.tickets;
  }

  /** When every request stands where the attempt loop leaves it, no channel has a slot or a reservation out. */
  lemma NothingLeftBehind(events: seq<Event>, ch: string)
    requires forall q: nat :: PhaseOf(Together(events), q).Idle?
    ensures var s := StateOf(Together(events).world, ch); s.inFlight == s.rpmPending == 0
  {
    var holders := InFlightIsHolders(events, ch);
    forall q: nat
      ensures q !in holders
    {
    }
    assert holders == {};
  }
}
