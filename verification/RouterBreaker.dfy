/** What a channel's state says of its past (router.go:273-340): every counter, the cooldown and the error shown are
    those of the attempts that ended, and so whether the channel can be called is a question to the history. */
module RouterBreaker {
  import opened Base
  import opened Counting
  import opened Channel
  import opened Routing
  import opened RouteFailover
  import opened Router
  import opened RouterRuns
  import opened RouterHealth
  import opened RouterChoice

  /** A sent attempt that ended, and when. */
  datatype Ended = Ended(t: Ticket, o: Outcome, at: int)

  /** The sent attempts of a channel that ended during a run, in the order they were handed in. */
  ghost function AllEnded(steps: seq<Step>, ch: string): seq<Ended> {
    if steps == [] then []
    else
      var front := steps[..|steps| - 1];
      var m := MoveOf(Run(front), steps[|steps| - 1], ch);
      AllEnded(front, ch) + if m.Returned? && m.sent then [Ended(m.ticket, m.o, m.at)] else []
  }

  /** Those made with the current connection's signature, since the connection was started. */
  ghost function OwnEnded(steps: seq<Step>, ch: string): seq<Ended> {
    if steps == [] then []
    else
      var front := steps[..|steps| - 1];
      var st, m := StateOf(Run(front), ch), MoveOf(Run(front), steps[|steps| - 1], ch);
      if Renews(st, m) then []
      else
        OwnEnded(front, ch)
        + if m.Returned? && m.sent && m.ticket.signature == st.signature then [Ended(m.ticket, m.o, m.at)] else []
  }

  // ---------- What the history amounts to ----------

  /** No attempt from the k-th on succeeded. */
  predicate NoSuccessFrom(es: seq<Ended>, k: int)
    requires 0 <= k
  {
    forall i :: k <= i < |es| ==> !es[i].o.Succeeded?
  }

  /** The failures since the last success; cancelled and timed out requests are none of the channel's. */
  function Failures(es: seq<Ended>): nat {
    if es == [] then 0
    else
      var o := es[|es| - 1].o;
      if o.Succeeded? then 0 else Failures(es[..|es| - 1]) + if o.Failed? then 1 else 0
  }

  /** How long the k-th attempt keeps the channel out of use: a failure among several channels does so for as long as
      the upstream asked, and when it was a probe or reached the threshold, at least for the policy's cooldown. */
  function Pause(es: seq<Ended>, k: nat): int
    requires k < |es|
  {
    var e := es[k];
    if !e.o.Failed? || e.t.single then 0
    else if e.t.probe || e.t.threshold <= Failures(es[..k + 1]) then Max(e.o.cooldown, e.t.cooldown)
    else e.o.cooldown
  }

  /** At this time the k-th attempt still keeps the channel out of use: no success came after it. */
  predicate KeepsOut(es: seq<Ended>, k: nat, now: int)
    requires k < |es|
  {
    NoSuccessFrom(es, k) && 0 < Pause(es, k) && now < es[k].at + Pause(es, k)
  }

  predicate Cooling(es: seq<Ended>, now: int) {
    exists k :: 0 <= k < |es| && KeepsOut(es, k, now)
  }

  /** The time of the last attempt that ended one way or the other, or the zero time. */
  function LastEnd(es: seq<Ended>, succeeded: bool): int {
    if es == [] then ZERO_TIME
    else if es[|es| - 1].o.Succeeded? == succeeded then es[|es| - 1].at
    else LastEnd(es[..|es| - 1], succeeded)
  }

  /** What the health page shows as the last error. */
  function ErrorShown(es: seq<Ended>): string {
    if es == [] then ""
    else
      match es[|es| - 1].o
      case Succeeded => ""
      case Cancelled => "request_cancelled"
      case TimedOut => "audit_timeout"
      case Failed(code, _) => code
  }

  /** Health as the history has it. Times after the zero time are those of real clocks. */
  ghost predicate Told(h: Health, es: seq<Ended>) {
    h.consecutive == Failures(es)
    && (forall now :: ZERO_TIME <= now ==> (now < h.until <==> Cooling(es, now)))
    && h.lastSuccess == LastEnd(es, true) && h.lastFailure == LastEnd(es, false) && h.lastError == ErrorShown(es)
    && ZERO_TIME <= h.until
  }

  lemma PauseOfFront(es: seq<Ended>, e: Ended, k: nat)
    requires k < |es|
    ensures Pause(es + [e], k) == Pause(es, k)
  {
    assert (es + [e])[..k + 1] == es[..k + 1];
  }

  lemma CoolingAfter(es: seq<Ended>, e: Ended, now: int)
    ensures var pause := Pause(es + [e], |es|);
            Cooling(es + [e], now)
            <==> !e.o.Succeeded? && (Cooling(es, now) || (0 < pause && now < e.at + pause))
  {
    var more := es + [e];
    forall k | 0 <= k < |es|
      ensures KeepsOut(more, k, now) <==> !e.o.Succeeded? && KeepsOut(es, k, now)
    {
      PauseOfFront(es, e, k);
      assert more[|es|] == e && forall i :: 0 <= i < |es| ==> more[i] == es[i];
    }
    assert more[|es|] == e;
    assert KeepsOut(more, |es|, now)
           <==> !e.o.Succeeded? && 0 < Pause(more, |es|) && now < e.at + Pause(more, |es|);
  }

  lemma LastPause(es: seq<Ended>, e: Ended)
    ensures var failures := Failures(es) + 1;
            Pause(es + [e], |es|)
            == if !e.o.Failed? || e.t.single then 0
               else if e.t.probe || e.t.threshold <= failures then Max(e.o.cooldown, e.t.cooldown) else e.o.cooldown
  {
    assert (es + [e])[..|es| + 1] == es + [e] && (es + [e])[..|es|] == es;
  }

  /** One more own attempt. */
  lemma FinishTold(h: Health, es: seq<Ended>, t: Ticket, o: Outcome, at: int)
    requires Told(h, es)
    ensures Told(Finish(h, t, o, true, at), es + [Ended(t, o, at)])
  {
    var e, more := Ended(t, o, at), es + [Ended(t, o, at)];
    assert more[..|es|] == es && more[|es|] == e;
    LastPause(es, e);
    var h' := Finish(h, t, o, true, at);
    forall now | ZERO_TIME <= now
      ensures now < h'.until <==> Cooling(more, now)
    {
      CoolingAfter(es, e, now);
    }
  }

  // ---------- Over whole runs ----------

  lemma OwnEndedTold(steps: seq<Step>, ch: string, h: Health, es: seq<Ended>)
    requires steps != []
    requires es == OwnEnded(steps[..|steps| - 1], ch)
    requires h == StateOf(Run(steps[..|steps| - 1]), ch).health && Told(h, es)
    ensures Told(StateOf(Run(steps), ch).health, OwnEnded(steps, ch))
  {
    var front, s := steps[..|steps| - 1], steps[|steps| - 1];
    var st, m := StateOf(Run(front), ch), MoveOf(Run(front), s, ch);
    StepIsMove(Run(front), s, ch);
    MoveOnHealth(st, m);
    if Renews(st, m) {
      assert Told(FRESH, []);
    } else if m.Returned? && m.sent && m.ticket.signature == st.signature {
      FinishTold(h, es, m.ticket, m.o, m.at);
    } else {
      assert es + [] == es;
    }
  }

  /** In every run, resets, edits and stale completions included, a channel's health is what the sent attempts with
      its current signature amount to since its connection was started: the failures in a row, the time it is kept
      out of use, the last success and failure, and the error shown. */
  lemma {:induction false} HealthIsHistory(steps: seq<Step>, ch: string)
    ensures Told(StateOf(Run(steps), ch).health, OwnEnded(steps, ch))
  {
    if steps == [] {
      assert StateOf(START, ch) == NEW;
    } else {
      var front := steps[..|steps| - 1];
      HealthIsHistory(front, ch);
      OwnEndedTold(steps, ch, StateOf(Run(front), ch).health, OwnEnded(front, ch));
    }
  }

  function NotSucceeded(): Ended -> bool {
    (e: Ended) => !e.o.Succeeded?
  }

  lemma MoveOnCounters(s: State, m: Move)
    ensures var s' := Moved(s, m);
            s'.calls == s.calls + One(m.Returned? && m.sent)
            && s'.failures == s.failures + One(m.Returned? && m.sent && !m.o.Succeeded?)
  {
  }

  /** Calls and failures shown are all sent attempts and those that did not succeed, across edits and resets. */
  lemma {:induction false} CountersAreHistory(steps: seq<Step>, ch: string)
    ensures var s := StateOf(Run(steps), ch);
            s.calls == |AllEnded(steps, ch)| && s.failures == Count(AllEnded(steps, ch), NotSucceeded())
  {
    if steps != [] {
      var front, s := steps[..|steps| - 1], steps[|steps| - 1];
      var m := MoveOf(Run(front), s, ch);
      CountersAreHistory(front, ch);
      StepIsMove(Run(front), s, ch);
      MoveOnCounters(StateOf(Run(front), ch), m);
      if m.Returned? && m.sent {
        CountLast(AllEnded(front, ch), Ended(m.ticket, m.o, m.at), NotSucceeded());
      } else {
        assert AllEnded(front, ch) + [] == AllEnded(front, ch);
      }
    }
  }

  // ---------- Who can be called ----------

  /** Of several channels, one with this connection is kept out of use by its cooldown or by a probe out. */
  ghost predicate KeptOut(steps: seq<Step>, c: Candidate, now: int) {
    var s := StateOf(Run(steps), c.id);
    c.signature == s.signature && (Cooling(OwnEnded(steps, c.id), now) || s.health.probe)
  }

  /** The calls of the last minute and the reservations that may still become calls leave one. */
  ghost predicate RoomInWindow(steps: seq<Step>, c: Candidate, now: int) {
    var w := Run(steps);
    0 < c.rpm ==> Count(w.sent, SentAfter(c.id, now - MINUTE)) + Count(w.tickets, On(c.id)) < c.rpm
  }

  /** Whether a channel can be called, asked of the history: the request has not tried it and knows its newest
      connection, it is the only channel or not kept out of use, fewer tickets than slots are out, and the last
      minute has room. */
  lemma CallableExactly(steps: seq<Step>, cs: seq<Candidate>, used: set<string>, now: int, i: nat)
    requires i < |cs| && ZERO_TIME < now && Run(steps).clock <= now
    ensures var c, w := cs[i], Run(steps);
            Callable(w.routes, cs, used, now, i)
            <==> c.id !in used && StateOf(w, c.id).revision <= c.revision
                 && (|cs| == 1 || !KeptOut(steps, c, now))
                 && Count(w.tickets, On(c.id)) < c.maxConcurrency && RoomInWindow(steps, c, now)
  {
    var c := cs[i];
    HealthIsHistory(steps, c.id);
    QuotaAlwaysKept(steps, c.id);
    RpmUsedIsExact(steps, c.id, now);
  }

  lemma TakenAsAsked(w: World, s: Step, ch: string)
    requires MoveOf(w, s, ch).Taken?
    ensures s.AcquireStep? && MoveOf(w, s, ch).now == s.now && MoveOf(w, s, ch).single == (|s.cs| == 1)
  {
  }

  lemma HeldOut(st: State, m: Move)
    requires Fitting(st, m) && m.Taken? && !m.single && m.now < st.health.until
    ensures Renews(st, m)
  {
    InspectionOfHealth(st, m.c, m.now, m.single);
  }

  /** A failure that opens the breaker: of several channels, a probe, or the threshold reached. */
  predicate Opens(es: seq<Ended>, k: nat)
    requires k < |es|
  {
    es[k].o.Failed? && !es[k].t.single && (es[k].t.probe || es[k].t.threshold <= Failures(es[..k + 1]))
  }

  lemma OpenedIsCooling(es: seq<Ended>, k: nat, now: int)
    requires k < |es| && Opens(es, k) && NoSuccessFrom(es, k) && 0 < es[k].t.cooldown
    requires now < es[k].at + es[k].t.cooldown
    ensures Cooling(es, now)
  {
    assert KeepsOut(es, k, now);
  }

  lemma CoolingIsOutOfUse(h: Health, es: seq<Ended>, now: int)
    requires Told(h, es) && ZERO_TIME <= now && Cooling(es, now)
    ensures now < h.until
  {
  }

  lemma OutOfUse(steps: seq<Step>, ch: string, k: nat, now: int)
    requires k < |OwnEnded(steps, ch)| && Opens(OwnEnded(steps, ch), k) && NoSuccessFrom(OwnEnded(steps, ch), k)
    requires var e := OwnEnded(steps, ch)[k]; 0 < e.t.cooldown && ZERO_TIME <= now < e.at + e.t.cooldown
    ensures now < StateOf(Run(steps), ch).health.until
  {
    HealthIsHistory(steps, ch);
    OpenedIsCooling(OwnEnded(steps, ch), k, now);
    CoolingIsOutOfUse(StateOf(Run(steps), ch).health, OwnEnded(steps, ch), now);
  }

  lemma OutOfUseIsPassedOver(w: World, s: Step, ch: string)
    requires s.AcquireStep? && |s.cs| > 1 && s.now < StateOf(w, ch).health.until && MoveOf(w, s, ch).Taken?
    ensures Renews(StateOf(w, ch), MoveOf(w, s, ch))
  {
    StepIsMove(w, s, ch);
    TakenAsAsked(w, s, ch);
    HeldOut(StateOf(w, ch), MoveOf(w, s, ch));
  }

  /** The breaker holds: once own failures in a row reach the threshold, or a probe failed, the channel is passed over
      among several until the policy's cooldown is over, whatever else happens, unless a success of its own or
      another connection comes first. */
  lemma BreakerHolds(steps: seq<Step>, s: Step, ch: string, k: nat)
    requires k < |OwnEnded(steps, ch)| && Opens(OwnEnded(steps, ch), k) && NoSuccessFrom(OwnEnded(steps, ch), k)
    requires var e := OwnEnded(steps, ch)[k];
             s.AcquireStep? && |s.cs| > 1 && ZERO_TIME <= s.now < e.at + e.t.cooldown && 0 < e.t.cooldown
    ensures MoveOf(Run(steps), s, ch).Taken? ==> Renews(StateOf(Run(steps), ch), MoveOf(Run(steps), s, ch))
  {
    OutOfUse(steps, ch, k, s.now);
    if MoveOf(Run(steps), s, ch).Taken? {
      OutOfUseIsPassedOver(Run(steps), s, ch);
    }
  }

  /** And it opens no earlier: below the threshold and off a probe, a failure keeps the channel out of use only for as
      long as the upstream asked. */
  lemma BelowThreshold(es: seq<Ended>, k: nat)
    requires k < |es| && !es[k].t.probe && Failures(es[..k + 1]) < es[k].t.threshold
    ensures Pause(es, k) == if es[k].o.Failed? && !es[k].t.single then es[k].o.cooldown else 0
  {
  }
}
