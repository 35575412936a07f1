/** The circuit breaker over whole runs (router.go:205-219, 273-340): exactly when at most one half-open probe
    is out, and exactly when its state is that of the current connection alone. */
module RouterHealth {
  import opened Base
  import opened Counting
  import opened Channel
  import opened Routing
  import opened Router
  import opened RouterRuns

  // ---------- Connections come and go ----------

  /** The signature a move leaves: an adopted candidate's, none after a reset, otherwise the same. */
  function NewSignature(s: State, m: Move): string {
    match m
    case Looked(c, _, _) => if c.revision < s.revision then s.signature else c.signature
    case Taken(c, _, _, _) => if c.revision < s.revision then s.signature else c.signature
    case Cleared => ""
    case _ => s.signature
  }

  /** The move starts the channel's health afresh. */
  predicate Renews(s: State, m: Move) {
    m.Cleared? || NewSignature(s, m) != s.signature
  }

  lemma InspectionOfHealth(s: State, c: Candidate, now: int, single: bool)
    ensures var (s', verdict) := Inspect(s, c, now, single);
            s'.signature == (if c.revision < s.revision then s.signature else c.signature)
            && s'.health == (if s'.signature == s.signature then s.health else FRESH)
            && (verdict.Usable? ==>
                  s'.signature == c.signature && (!single ==> s'.health.until <= now && !s'.health.probe))
  {
  }

  /** What a move does to signature and health. */
  lemma MoveOnHealth(s: State, m: Move)
    requires Fitting(s, m)
    ensures Moved(s, m).signature == NewSignature(s, m)
    ensures Renews(s, m) ==> Moved(s, m).health == FRESH && (m.Taken? ==> !m.ticket.probe)
    ensures !Renews(s, m) ==>
      Moved(s, m).health
      == (match m
          case Taken(_, _, _, t) => if t.probe then s.health.(probe := true) else s.health
          case Returned(t, _, o, sent, at) =>
            if t.signature == s.signature then Finish(s.health, t, o, sent, at) else s.health
          case _ => s.health)
    ensures m.Taken? ==> m.ticket.signature == NewSignature(s, m) && (m.ticket.probe ==> !s.health.probe)
  {
    match m
    case Looked(c, now, single) => InspectionOfHealth(s, c, now, single);
    case Taken(c, now, single, _) => InspectionOfHealth(s, c, now, single);
    case _ =>
  }

  lemma FinishProbe(h: Health, t: Ticket, o: Outcome, sent: bool, clock: int)
    ensures Finish(h, t, o, sent, clock).probe == (h.probe && !t.probe)
  {
  }

  // ---------- One probe at a time ----------

  function ProbeOn(ch: string, signature: string): Ticket -> bool {
    (t: Ticket) => t.channel == ch && t.signature == signature && t.probe
  }

  function ProbesOut(w: World, ch: string, signature: string): int {
    Count(w.tickets, ProbeOn(ch, signature))
  }

  /** The probe mark is set exactly while one probe of the current connection is out, and there is never a
      second. */
  predicate MarkRight(w: World, ch: string) {
    ProbesOut(w, ch, StateOf(w, ch).signature) == One(StateOf(w, ch).health.probe)
  }

  /** What can be checked before a step: it starts no connection, or none with a probe still out. */
  ghost predicate NoProbeReadopted(w: World, s: Step, ch: string) {
    var m := MoveOf(w, s, ch);
    Renews(StateOf(w, ch), m) ==> ProbesOut(w, ch, NewSignature(StateOf(w, ch), m)) == 0
  }

  lemma MarkAfterMove(s: State, m: Move, ch: string, held: int, after: int)
    requires Fitting(s, m) && (m.Taken? || m.Returned? ==> m.ticket.channel == ch)
    requires var p := ProbeOn(ch, NewSignature(s, m));
             after == held + One(m.Taken? && p(m.ticket)) - One(m.Returned? && p(m.ticket)) && 0 <= after
    requires !Renews(s, m) ==> held == One(s.health.probe)
    ensures after == One(Moved(s, m).health.probe) <==> (Renews(s, m) ==> held == 0)
  {
    MoveOnHealth(s, m);
    if m.Returned? {
      FinishProbe(s.health, m.ticket, m.o, m.sent, m.at);
    }
  }

  /** The exact condition, for every step of the engine, resets and recurring signatures included: a right
      mark stays right if and only if the step does not start a connection that has a probe out. */
  lemma MarkStaysRight(w: World, s: Step, ch: string)
    requires MarkRight(w, ch)
    ensures MarkRight(Next(w, s), ch) <==> NoProbeReadopted(w, s, ch)
  {
    var st, m := StateOf(w, ch), MoveOf(w, s, ch);
    var p := ProbeOn(ch, NewSignature(st, m));
    StepIsMove(w, s, ch);
    TakenTicketIsOurs(w, s, ch);
    TicketsCounted(w, s, ch, p);
    CountBounds(Next(w, s).tickets, p);
    MoveOnHealth(st, m);
    MarkAfterMove(st, m, ch, Count(w.tickets, p), Count(Next(w, s).tickets, p));
  }

  /** The mark is right in every state of the run. */
  ghost predicate MarkAlwaysRight(steps: seq<Step>, ch: string) {
    MarkRight(Run(steps), ch) && (steps != [] ==> MarkAlwaysRight(steps[..|steps| - 1], ch))
  }

  /** No step of the run starts a connection that has a probe out. */
  ghost predicate ProbesNeverReadopted(steps: seq<Step>, ch: string) {
    steps != [] ==>
      var front := steps[..|steps| - 1];
      ProbesNeverReadopted(front, ch) && NoProbeReadopted(Run(front), steps[|steps| - 1], ch)
  }

  /** Over a whole run: the mark is right in every state if and only if no step starts a connection that
      has a probe out. */
  lemma {:induction false} MarkRightThroughout(steps: seq<Step>, ch: string)
    ensures MarkAlwaysRight(steps, ch) <==> ProbesNeverReadopted(steps, ch)
  {
    if steps != [] {
      var front := steps[..|steps| - 1];
      MarkRightThroughout(front, ch);
      if MarkAlwaysRight(front, ch) {
        MarkStaysRight(Run(front), steps[|steps| - 1], ch);
      }
    }
  }

  // ---------- Only its own attempts count ----------

  /** A run seen from one channel: how many connections it has started, with which of them each ticket out
      was taken, and the health its current connection's own attempts amount to. */
  datatype Chronicle = Chronicle(world: World, tenure: nat, births: seq<nat>, own: Health)

  ghost function BirthsAfter(c: Chronicle, next: World, s: Step, tenure: nat): seq<nat> {
    if |next.tickets| > |c.world.tickets| then c.births + [tenure]
    else if |next.tickets| < |c.world.tickets| && s.ReleaseStep? && s.k < |c.births| then Without(c.births, s.k)
    else c.births
  }

  /** Probes taken and attempts handed in, as far as they were taken with the current connection. */
  function OwnAfter(own: Health, m: Move, ours: bool): Health {
    match m
    case Taken(_, _, _, t) => if t.probe then own.(probe := true) else own
    case Returned(t, _, o, sent, at) => if ours then Finish(own, t, o, sent, at) else own
    case _ => own
  }

  predicate Ours(c: Chronicle, s: Step) {
    s.ReleaseStep? && s.k < |c.births| && c.births[s.k] == c.tenure
  }

  ghost function Noted(c: Chronicle, s: Step, ch: string): Chronicle {
    var st, m, next := StateOf(c.world, ch), MoveOf(c.world, s, ch), Next(c.world, s);
    var tenure := if Renews(st, m) then c.tenure + 1 else c.tenure;
    Chronicle(next, tenure, BirthsAfter(c, next, s, tenure),
              if Renews(st, m) then FRESH else OwnAfter(c.own, m, Ours(c, s)))
  }

  ghost function Chronicled(steps: seq<Step>, ch: string): (c: Chronicle)
    ensures c.world == Run(steps)
  {
    if steps == [] then Chronicle(START, 0, [], FRESH)
    else Noted(Chronicled(steps[..|steps| - 1], ch), steps[|steps| - 1], ch)
  }

  /** The channel's health is what its current connection's own attempts amount to. */
  predicate OwnOnly(c: Chronicle, ch: string) {
    StateOf(c.world, ch).health == c.own
  }

  /** Tickets keep their birth, and those of the current connection carry its signature. */
  predicate BirthsFit(tickets: seq<Ticket>, births: seq<nat>, tenure: nat, ch: string, signature: string) {
    |births| == |tickets|
    && forall k :: 0 <= k < |births| ==>
         births[k] <= tenure
         && (tickets[k].channel == ch && births[k] == tenure ==> tickets[k].signature == signature)
  }

  predicate BirthsKept(c: Chronicle, ch: string) {
    BirthsFit(c.world.tickets, c.births, c.tenure, ch, StateOf(c.world, ch).signature)
  }

  lemma TicketsMove(w: World, s: Step)
    ensures var next := Next(w, s).tickets;
            || next == w.tickets
            || (s.AcquireStep? && |next| == |w.tickets| + 1 && next[..|w.tickets|] == w.tickets)
            || (s.ReleaseStep? && s.k < |w.tickets| && next == Without(w.tickets, s.k))
  {
  }

  /** The ticket an acquisition adds is the one of its move, when it is the channel's. */
  lemma NewTicketIsTaken(w: World, s: Step, ch: string)
    requires |Next(w, s).tickets| == |w.tickets| + 1
    ensures var t := Next(w, s).tickets[|w.tickets|];
            var m := MoveOf(w, s, ch);
            t.channel == ch ==> m.Taken? && m.ticket == t
  {
    AcquireIsMove(w, s, ch);
  }

  lemma FitAppended(tickets: seq<Ticket>, births: seq<nat>, tenure: nat, ch: string, signature: string, t: Ticket)
    requires BirthsFit(tickets, births, tenure, ch, signature) && (t.channel == ch ==> t.signature == signature)
    ensures BirthsFit(tickets + [t], births + [tenure], tenure, ch, signature)
  {
  }

  lemma FitWithout(tickets: seq<Ticket>, births: seq<nat>, tenure: nat, ch: string, signature: string, k: nat)
    requires BirthsFit(tickets, births, tenure, ch, signature) && k < |tickets|
    ensures BirthsFit(Without(tickets, k), Without(births, k), tenure, ch, signature)
  {
  }

  lemma BirthsStayKept(c: Chronicle, s: Step, ch: string)
    requires BirthsKept(c, ch)
    ensures BirthsKept(Noted(c, s, ch), ch)
  {
    var w, st, m, next := c.world, StateOf(c.world, ch), MoveOf(c.world, s, ch), Next(c.world, s);
    var tenure, signature := Noted(c, s, ch).tenure, StateOf(next, ch).signature;
    StepIsMove(w, s, ch);
    MoveOnHealth(st, m);
    TicketsMove(w, s);
    assert BirthsFit(w.tickets, c.births, tenure, ch, signature);
    if |next.tickets| == |w.tickets| + 1 {
      NewTicketIsTaken(w, s, ch);
      var t := next.tickets[|w.tickets|];
      assert next.tickets == w.tickets + [t];
      FitAppended(w.tickets, c.births, tenure, ch, signature, t);
    } else if |next.tickets| < |w.tickets| {
      FitWithout(w.tickets, c.births, tenure, ch, signature, s.k);
    }
  }

  /** A completion that intrudes: taken with an earlier connection of the same signature, and changing the
      health of the current one. */
  ghost predicate Intrudes(c: Chronicle, s: Step, ch: string) {
    var m, st := MoveOf(c.world, s, ch), StateOf(c.world, ch);
    m.Returned? && !Ours(c, s) && m.ticket.signature == st.signature
    && Finish(st.health, m.ticket, m.o, m.sent, m.at) != st.health
  }

  /** The exact condition for one step of the engine: health stays the connection's own if and only if the
      step is not an intruding completion. */
  lemma HealthStaysOwn(c: Chronicle, s: Step, ch: string)
    requires BirthsKept(c, ch) && OwnOnly(c, ch)
    ensures OwnOnly(Noted(c, s, ch), ch) <==> !Intrudes(c, s, ch)
  {
    var st, m := StateOf(c.world, ch), MoveOf(c.world, s, ch);
    StepIsMove(c.world, s, ch);
    TakenTicketIsOurs(c.world, s, ch);
    MoveOnHealth(st, m);
    if m.Returned? {
      assert s.ReleaseStep? && m.ticket == c.world.tickets[s.k];
    }
  }

  lemma {:induction false} BirthsAlwaysKept(steps: seq<Step>, ch: string)
    ensures BirthsKept(Chronicled(steps, ch), ch)
  {
    if steps != [] {
      var front := steps[..|steps| - 1];
      BirthsAlwaysKept(front, ch);
      BirthsStayKept(Chronicled(front, ch), steps[|steps| - 1], ch);
    }
  }

  /** Health is the connection's own in every state of the run. */
  ghost predicate AlwaysOwn(steps: seq<Step>, ch: string) {
    OwnOnly(Chronicled(steps, ch), ch) && (steps != [] ==> AlwaysOwn(steps[..|steps| - 1], ch))
  }

  ghost predicate NeverIntruded(steps: seq<Step>, ch: string) {
    steps != [] ==>
      var front := steps[..|steps| - 1];
      NeverIntruded(front, ch) && !Intrudes(Chronicled(front, ch), steps[|steps| - 1], ch)
  }

  /** Over a whole run: health is the connection's own in every state if and only if no completion
      intrudes. */
  lemma {:induction false} OwnThroughout(steps: seq<Step>, ch: string)
    ensures AlwaysOwn(steps, ch) <==> NeverIntruded(steps, ch)
  {
    if steps != [] {
      var front := steps[..|steps| - 1];
      OwnThroughout(front, ch);
      BirthsAlwaysKept(front, ch);
      if AlwaysOwn(front, ch) {
        HealthStaysOwn(Chronicled(front, ch), steps[|steps| - 1], ch);
      }
    }
  }

  // ---------- The condition at adoption ----------

  /** The channel has a ticket out that carries this signature. */
  predicate TicketOut(tickets: seq<Ticket>, ch: string, signature: string) {
    exists k :: 0 <= k < |tickets| && tickets[k].channel == ch && tickets[k].signature == signature
  }

  /** What can be checked before a step: it starts no connection, or none whose signature a ticket still
      out carries. */
  ghost predicate NoTicketReadopted(w: World, s: Step, ch: string) {
    var m := MoveOf(w, s, ch);
    Renews(StateOf(w, ch), m) ==> !TicketOut(w.tickets, ch, NewSignature(StateOf(w, ch), m))
  }

  /** Every ticket out with the current signature was taken with the current connection. */
  predicate NoneForeign(tickets: seq<Ticket>, births: seq<nat>, tenure: nat, ch: string, signature: string)
    requires |births| == |tickets|
  {
    forall k :: 0 <= k < |tickets| && tickets[k].channel == ch && tickets[k].signature == signature ==>
      births[k] == tenure
  }

  predicate NoStrangerOut(c: Chronicle, ch: string)
    requires BirthsKept(c, ch)
  {
    NoneForeign(c.world.tickets, c.births, c.tenure, ch, StateOf(c.world, ch).signature)
  }

  lemma ForeignAppended(tickets: seq<Ticket>, births: seq<nat>, tenure: nat, ch: string, signature: string, t: Ticket)
    requires |births| == |tickets|
    ensures NoneForeign(tickets + [t], births + [tenure], tenure, ch, signature)
            <==> NoneForeign(tickets, births, tenure, ch, signature)
  {
    var more, bs := tickets + [t], births + [tenure];
    assert forall k :: 0 <= k < |tickets| ==> more[k] == tickets[k] && bs[k] == births[k];
  }

  lemma ForeignWithout(tickets: seq<Ticket>, births: seq<nat>, tenure: nat, ch: string, signature: string, k: nat)
    requires |births| == |tickets| && k < |tickets| && NoneForeign(tickets, births, tenure, ch, signature)
    ensures NoneForeign(Without(tickets, k), Without(births, k), tenure, ch, signature)
  {
  }

  /** Starting a connection makes strangers of all tickets out that carry its signature. */
  lemma RenewalMakesStrangers(c: Chronicle, s: Step, ch: string)
    requires BirthsKept(c, ch) && Renews(StateOf(c.world, ch), MoveOf(c.world, s, ch))
    requires BirthsKept(Noted(c, s, ch), ch)
    ensures NoStrangerOut(Noted(c, s, ch), ch) <==> NoTicketReadopted(c.world, s, ch)
  {
    var w, st, m, next := c.world, StateOf(c.world, ch), MoveOf(c.world, s, ch), Next(c.world, s);
    var signature := NewSignature(st, m);
    StepIsMove(w, s, ch);
    MoveOnHealth(st, m);
    TicketsMove(w, s);
    assert NoneForeign(w.tickets, c.births, c.tenure + 1, ch, signature) <==> !TicketOut(w.tickets, ch, signature);
    if |next.tickets| == |w.tickets| + 1 {
      var t := next.tickets[|w.tickets|];
      assert next.tickets == w.tickets + [t];
      ForeignAppended(w.tickets, c.births, c.tenure + 1, ch, signature, t);
    }
  }

  lemma OtherStepsMakeNone(c: Chronicle, s: Step, ch: string)
    requires BirthsKept(c, ch) && NoStrangerOut(c, ch) && !Renews(StateOf(c.world, ch), MoveOf(c.world, s, ch))
    requires BirthsKept(Noted(c, s, ch), ch)
    ensures NoStrangerOut(Noted(c, s, ch), ch)
  {
    var w, st, m, next := c.world, StateOf(c.world, ch), MoveOf(c.world, s, ch), Next(c.world, s);
    StepIsMove(w, s, ch);
    MoveOnHealth(st, m);
    TicketsMove(w, s);
    if |next.tickets| == |w.tickets| + 1 {
      var t := next.tickets[|w.tickets|];
      assert next.tickets == w.tickets + [t];
      ForeignAppended(w.tickets, c.births, c.tenure, ch, st.signature, t);
    } else if |next.tickets| < |w.tickets| {
      ForeignWithout(w.tickets, c.births, c.tenure, ch, st.signature, s.k);
    }
  }

  /** Whatever completion is handed in next, the health stays the connection's own. */
  ghost predicate CompletionsSafe(c: Chronicle, ch: string) {
    forall k: nat, attemptAt, o, sent, clock ::
      OwnOnly(Noted(c, ReleaseStep(k, attemptAt, o, sent, clock), ch), ch)
  }

  /** With no stranger out no completion intrudes, and a stranger's failure would: in every reachable state
      the two are the same. */
  lemma StrangersWouldIntrude(c: Chronicle, ch: string)
    requires BirthsKept(c, ch) && OwnOnly(c, ch) && QuotaKept(c.world, ch)
    ensures CompletionsSafe(c, ch) <==> NoStrangerOut(c, ch)
  {
    var tickets, st := c.world.tickets, StateOf(c.world, ch);
    if NoStrangerOut(c, ch) {
      forall k: nat, attemptAt, o, sent, clock
        ensures OwnOnly(Noted(c, ReleaseStep(k, attemptAt, o, sent, clock), ch), ch)
      {
        HealthStaysOwn(c, ReleaseStep(k, attemptAt, o, sent, clock), ch);
      }
    } else {
      var k :| 0 <= k < |tickets| && tickets[k].channel == ch && tickets[k].signature == st.signature
               && c.births[k] != c.tenure;
      var s := ReleaseStep(k, tickets[k].acquiredAt, Failed("upstream_rejected", 0), true, 0);
      assert On(ch)(tickets[k]);
      CountBounds(tickets, On(ch));
      assert Enabled(c.world, s);
      HealthStaysOwn(c, s, ch);
      assert !OwnOnly(Noted(c, s, ch), ch);
    }
  }

  /** At the end of a run the health is the connection's own, and stays so whatever completes next. */
  ghost predicate HealthSafe(steps: seq<Step>, ch: string) {
    OwnOnly(Chronicled(steps, ch), ch) && CompletionsSafe(Chronicled(steps, ch), ch)
  }

  lemma SafeMeansNoStranger(steps: seq<Step>, ch: string)
    ensures var c := Chronicled(steps, ch);
            BirthsKept(c, ch) && (HealthSafe(steps, ch) <==> OwnOnly(c, ch) && NoStrangerOut(c, ch))
  {
    BirthsAlwaysKept(steps, ch);
    QuotaAlwaysKept(steps, ch);
    if OwnOnly(Chronicled(steps, ch), ch) {
      StrangersWouldIntrude(Chronicled(steps, ch), ch);
    }
  }

  /** One step of a chronicle in which no ticket out is a stranger. */
  lemma StaysWithoutStrangers(c: Chronicle, s: Step, ch: string)
    requires BirthsKept(c, ch) && OwnOnly(c, ch) && NoStrangerOut(c, ch)
    ensures var next := Noted(c, s, ch);
            BirthsKept(next, ch) && OwnOnly(next, ch)
            && (NoStrangerOut(next, ch) <==> NoTicketReadopted(c.world, s, ch))
  {
    BirthsStayKept(c, s, ch);
    HealthStaysOwn(c, s, ch);
    if Renews(StateOf(c.world, ch), MoveOf(c.world, s, ch)) {
      RenewalMakesStrangers(c, s, ch);
    } else {
      OtherStepsMakeNone(c, s, ch);
    }
  }

  lemma SafeAfterStep(steps: seq<Step>, ch: string)
    requires steps != [] && HealthSafe(steps[..|steps| - 1], ch)
    ensures HealthSafe(steps, ch) <==> NoTicketReadopted(Run(steps[..|steps| - 1]), steps[|steps| - 1], ch)
  {
    var front := steps[..|steps| - 1];
    SafeMeansNoStranger(front, ch);
    SafeMeansNoStranger(steps, ch);
    StaysWithoutStrangers(Chronicled(front, ch), steps[|steps| - 1], ch);
  }

  ghost predicate AlwaysSafe(steps: seq<Step>, ch: string) {
    HealthSafe(steps, ch) && (steps != [] ==> AlwaysSafe(steps[..|steps| - 1], ch))
  }

  /** No step of the run starts a connection whose signature a ticket still out carries. */
  ghost predicate NeverReadopts(steps: seq<Step>, ch: string) {
    steps != [] ==>
      var front := steps[..|steps| - 1];
      NeverReadopts(front, ch) && NoTicketReadopted(Run(front), steps[|steps| - 1], ch)
  }

  /** The exact condition over a whole run, checked at adoptions only: in every state the health is the
      connection's own, and stays so whatever completes next, if and only if no step starts a connection
      whose signature a ticket still out carries. */
  lemma {:induction false} HealthIsOwnReplay(steps: seq<Step>, ch: string)
    ensures AlwaysSafe(steps, ch) <==> NeverReadopts(steps, ch)
  {
    if steps == [] {
      SafeMeansNoStranger(steps, ch);
    } else {
      var front := steps[..|steps| - 1];
      HealthIsOwnReplay(front, ch);
      if AlwaysSafe(front, ch) {
        SafeAfterStep(steps, ch);
      }
    }
  }

  /** One probe at a time, with the same condition: it leaves no probe out that could be readopted. */
  lemma {:induction false} OneProbeAtATime(steps: seq<Step>, ch: string)
    requires NeverReadopts(steps, ch)
    ensures MarkAlwaysRight(steps, ch)
  {
    if steps != [] {
      var front, s := steps[..|steps| - 1], steps[|steps| - 1];
      OneProbeAtATime(front, ch);
      CountBounds(Run(front).tickets, ProbeOn(ch, NewSignature(StateOf(Run(front), ch), MoveOf(Run(front), s, ch))));
      MarkStaysRight(Run(front), s, ch);
    }
  }

  // ---------- Edits alone never bring a signature back ----------

  /** Connection signatures that determine the channel's revision one to one, as when every edit that changes
      the connection raises the revision. */
  ghost predicate Numbering(rev: string -> int) {
    forall a, b :: rev(a) == rev(b) ==> a == b
  }

  /** A step that does not reset the channel, and whose candidates carry the revision of their signature. */
  ghost predicate Numbered(s: Step, ch: string, rev: string -> int) {
    match s
    case AcquireStep(_, cs, _, _, _, _, _) =>
      forall i :: 0 <= i < |cs| && cs[i].id == ch ==> cs[i].signature != "" && cs[i].revision == rev(cs[i].signature)
    case ResetStep(id) => id != ch
    case _ => true
  }

  /** Tickets out carry signatures up to the current one, which is the current revision's. */
  ghost predicate RevisionsKept(w: World, ch: string, rev: string -> int) {
    var s := StateOf(w, ch);
    (s.signature != "" ==> s.revision == rev(s.signature))
    && forall k :: 0 <= k < |w.tickets| && w.tickets[k].channel == ch ==>
         s.signature != "" && rev(w.tickets[k].signature) <= s.revision
  }

  lemma MoveOnRevision(s: State, m: Move)
    requires Fitting(s, m)
    ensures Moved(s, m).revision
            == if !Renews(s, m) || m.Cleared? then s.revision else if m.Looked? || m.Taken? then m.c.revision else 0
    ensures Renews(s, m) ==> m.Cleared? || ((m.Looked? || m.Taken?) && s.revision <= m.c.revision)
  {
  }

  lemma NumberedStepReadoptsNothing(w: World, s: Step, ch: string, rev: string -> int)
    requires Numbering(rev) && Numbered(s, ch, rev) && RevisionsKept(w, ch, rev)
    ensures NoTicketReadopted(w, s, ch)
  {
    var m := MoveOf(w, s, ch);
    StepIsMove(w, s, ch);
    MoveOnRevision(StateOf(w, ch), m);
  }

  lemma RevisionsStayKept(w: World, s: Step, ch: string, rev: string -> int)
    requires Numbering(rev) && Numbered(s, ch, rev) && RevisionsKept(w, ch, rev)
    ensures RevisionsKept(Next(w, s), ch, rev)
  {
    var st, m, next := StateOf(w, ch), MoveOf(w, s, ch), Next(w, s);
    StepIsMove(w, s, ch);
    MoveOnHealth(st, m);
    MoveOnRevision(st, m);
    assert !m.Cleared?;
    var st' := StateOf(next, ch);
    assert st.revision <= st'.revision || st.signature == "";
    forall k | 0 <= k < |next.tickets| && next.tickets[k].channel == ch
      ensures st'.signature != "" && rev(next.tickets[k].signature) <= st'.revision
    {
      var t := next.tickets[k];
      TicketIsOldOrTaken(w, s, ch, k);
    }
  }

  lemma TicketIsOldOrTaken(w: World, s: Step, ch: string, k: nat)
    requires k < |Next(w, s).tickets| && Next(w, s).tickets[k].channel == ch
    ensures var t, m := Next(w, s).tickets[k], MoveOf(w, s, ch);
            (m.Taken? && m.ticket == t) || exists j :: 0 <= j < |w.tickets| && w.tickets[j] == t
  {
    var next := Next(w, s).tickets;
    TicketsMove(w, s);
    if |next| == |w.tickets| + 1 {
      NewTicketIsTaken(w, s, ch);
      assert k < |w.tickets| ==> next[..|w.tickets|][k] == w.tickets[k];
    } else if |next| < |w.tickets| {
      assert next[k] == w.tickets[if k < s.k then k else k + 1];
    }
  }

  /** A run without resets whose revisions number its signatures meets the condition at every step. */
  lemma {:induction false} NumberedRunsReadoptNothing(steps: seq<Step>, ch: string, rev: string -> int)
    requires Numbering(rev) && forall k :: 0 <= k < |steps| ==> Numbered(steps[k], ch, rev)
    ensures RevisionsKept(Run(steps), ch, rev)
    ensures NeverReadopts(steps, ch)
  {
    if steps != [] {
      var front, last := steps[..|steps| - 1], steps[|steps| - 1];
      NumberedRunsReadoptNothing(front, ch, rev);
      NumberedStepReadoptsNothing(Run(front), last, ch, rev);
      RevisionsStayKept(Run(front), last, ch, rev);
    }
  }

  // ---------- Cooldowns ----------

  /** A cooldown ends early only by a success of the current connection, a new connection or a reset. */
  lemma CooldownNeverShortened(w: World, s: Step, ch: string)
    requires StateOf(Next(w, s), ch).health.until < StateOf(w, ch).health.until
    ensures var m := MoveOf(w, s, ch);
            m.Cleared?
            || StateOf(Next(w, s), ch).signature != StateOf(w, ch).signature
            || (m.Returned? && m.sent && m.o.Succeeded? && m.ticket.signature == StateOf(w, ch).signature)
  {
    StepIsMove(w, s, ch);
    MoveOnCooldown(StateOf(w, ch), MoveOf(w, s, ch));
  }

  lemma MoveOnCooldown(s: State, m: Move)
    requires Moved(s, m).health.until < s.health.until
    ensures m.Cleared? || Moved(s, m).signature != s.signature
            || (m.Returned? && m.sent && m.o.Succeeded? && m.ticket.signature == s.signature)
  {
  }
}
