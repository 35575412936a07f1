/** One channel's shared state (router.go:34-46, channel_rpm.go): circuit breaker, concurrency slots
    and the sliding one-minute window of sent calls. */
module Channel {
  import opened Base

  /** What the circuit breaker and the health page know of the current connection. */
  datatype Health = Health(
    until: int, probe: bool, consecutive: int, lastSuccess: int, lastFailure: int, lastError: string)

  const FRESH := Health(ZERO_TIME, false, 0, ZERO_TIME, ZERO_TIME, "")

  datatype State = State(
    revision: int, signature: string, health: Health,
    inFlight: int, calls: int, failures: int, rpmPending: int, rpmCalls: seq<int>)

  const NEW := State(0, "", FRESH, 0, 0, 0, 0, [])

  /** How an attempt ended, as release tells errors apart. */
  datatype Outcome =
    | Succeeded
    | Cancelled
    | TimedOut
    | Failed(code: string, cooldown: int)

  /** The variables a release closure captured when the channel was acquired. */
  datatype Ticket = Ticket(
    channel: string, signature: string, acquiredAt: int, probe: bool, single: bool,
    threshold: int, cooldown: int)

  // ---------- The rolling window ----------

  /** The calls that still count at `now`: the leading ones that are a minute old are dropped. */
  function Pruned(calls: seq<int>, now: int): seq<int> {
    if calls != [] && calls[0] <= now - MINUTE then Pruned(calls[1..], now) else calls
  }

  function RpmUsed(s: State, now: int): int {
    |Pruned(s.rpmCalls, now)| + s.rpmPending
  }

  /** slices.BinarySearch followed by slices.Insert: before the first call that is not earlier. */
  function Inserted(calls: seq<int>, at: int): seq<int> {
    if calls != [] && calls[0] < at then [calls[0]] + Inserted(calls[1..], at) else [at] + calls
  }

  // ---------- Acquire and release ----------

  /** A candidate with another signature is a new connection: health starts afresh, quota stays. */
  function Adopt(s: State, revision: int, signature: string): State {
    if s.signature == signature then s
    else s.(revision := revision, signature := signature, health := FRESH)
  }

  function Reset(s: State): State {
    s.(signature := "", health := FRESH)
  }

  /** A chosen channel: a slot, a reservation in the window, and the probe mark when half open. */
  function Take(s: State, probe: bool): State {
    s.(inFlight := s.inFlight + 1, rpmPending := s.rpmPending + 1,
       health := if probe then s.health.(probe := true) else s.health)
  }

  /** What a finished attempt of the current connection does to its health. */
  function Finish(h: Health, t: Ticket, o: Outcome, sent: bool, clock: int): Health {
    var h1 := if t.probe then h.(probe := false) else h;
    if !sent then h1
    else
      match o
      case Succeeded => h1.(lastSuccess := clock, lastError := "", consecutive := 0, until := ZERO_TIME)
      case Cancelled => h1.(lastFailure := clock, lastError := "request_cancelled")
      case TimedOut => h1.(lastFailure := clock, lastError := "audit_timeout")
      case Failed(code, upstreamCooldown) =>
        var h2 := h1.(lastFailure := clock, lastError := code, consecutive := h1.consecutive + 1);
        if t.single then h2
        else
          var cooldown := if t.probe || h2.consecutive >= t.threshold then Max(upstreamCooldown, t.cooldown)
                          else upstreamCooldown;
          if cooldown > 0 then h2.(until := Max(h2.until, clock + cooldown)) else h2
  }

  function Release(s: State, t: Ticket, attemptAt: int, o: Outcome, sent: bool, clock: int): State {
    var s1 := s.(inFlight := s.inFlight - 1, rpmPending := s.rpmPending - 1);
    var s2 := if !sent then s1
              else s1.(rpmCalls := Inserted(s1.rpmCalls, attemptAt), calls := s1.calls + 1,
                       failures := s1.failures + if o.Succeeded? then 0 else 1);
    if s2.signature != t.signature then s2
    else s2.(health := Finish(s2.health, t, o, sent, clock))
  }

  class ChannelState {
    var revision: int
    var signature: string
    var inFlight: int
    var consecutive: int
    var calls: int
    var failures: int
    var until: int
    var probe: bool
    var rpmPending: int
    var rpmCalls: seq<int>
    var lastSuccess: int
    var lastFailure: int
    var lastError: string

    function View(): State
      reads this
    {
      State(revision, signature, Health(until, probe, consecutive, lastSuccess, lastFailure, lastError),
            inFlight, calls, failures, rpmPending, rpmCalls)
    }

    constructor ()
      ensures View() == NEW
    {
      revision, signature, inFlight, consecutive := 0, "", 0, 0;
      calls, failures, until, probe := 0, 0, ZERO_TIME, false;
      rpmPending, rpmCalls := 0, [];
      lastSuccess, lastFailure, lastError := ZERO_TIME, ZERO_TIME, "";
    }

    /** rpmUsed: trims the window in place and counts it together with outstanding reservations. */
    method TrimWindow(now: int) returns (used: int)
      modifies this`rpmCalls
      ensures rpmCalls == Pruned(old(rpmCalls), now)
      ensures used == |rpmCalls| + rpmPending
    {
      var cutoff := now - MINUTE;
      var n := 0;
      while n < |rpmCalls| && rpmCalls[n] <= cutoff
        invariant 0 <= n <= |rpmCalls|
        invariant Pruned(rpmCalls, now) == Pruned(rpmCalls[n..], now)
      {
        assert rpmCalls[n..][1..] == rpmCalls[n + 1..];
        n := n + 1;
      }
      rpmCalls := rpmCalls[n..];
      used := |rpmCalls| + rpmPending;
    }

    method ForgetHealth()
      modifies this`until, this`probe, this`consecutive, this`lastSuccess, this`lastFailure, this`lastError
      ensures View() == old(View()).(health := FRESH)
    {
      until, probe, consecutive := ZERO_TIME, false, 0;
      lastSuccess, lastFailure, lastError := ZERO_TIME, ZERO_TIME, "";
    }

    method AdoptConnection(newRevision: int, newSignature: string)
      modifies this
      ensures View() == Adopt(old(View()), newRevision, newSignature)
    {
      if signature != newSignature {
        revision, signature := newRevision, newSignature;
        ForgetHealth();
      }
    }

    method ResetConnection()
      modifies this
      ensures View() == Reset(old(View()))
    {
      signature := "";
      ForgetHealth();
    }

    method TakeSlot(isProbe: bool)
      modifies this`inFlight, this`rpmPending, this`probe
      ensures View() == Take(old(View()), isProbe)
    {
      inFlight := inFlight + 1;
      rpmPending := rpmPending + 1;
      if isProbe {
        probe := true;
      }
    }

    /** The release closure of acquireRoute: quota is kept across edits and resets, but a stale
        completion does not reach the health of a newer connection. */
    method ReleaseSlot(t: Ticket, attemptAt: int, o: Outcome, sent: bool, clock: int)
      modifies this
      ensures View() == Release(old(View()), t, attemptAt, o, sent, clock)
    {
      inFlight := inFlight - 1;
      rpmPending := rpmPending - 1;
      if sent {
        rpmCalls := Inserted(rpmCalls, attemptAt);
        calls := calls + 1;
        if !o.Succeeded? {
          failures := failures + 1;
        }
      }
      if signature != t.signature {
        return;
      }
      RecordOutcome(t, o, sent, clock);
    }

    /** The part of release that only the current connection's completions reach. */
    method RecordOutcome(t: Ticket, o: Outcome, sent: bool, clock: int)
      modifies this`until, this`probe, this`consecutive, this`lastSuccess, this`lastFailure, this`lastError
      ensures View() == old(View()).(health := Finish(old(View()).health, t, o, sent, clock))
    {
      if t.probe {
        probe := false;
      }
      if !sent {
        return;
      }
      if o.Succeeded? {
        lastSuccess, lastError, consecutive, until := clock, "", 0, ZERO_TIME;
        return;
      }
      lastFailure := clock;
      if o.Cancelled? {
        lastError := "request_cancelled";
        return;
      }
      if o.TimedOut? {
        lastError := "audit_timeout";
        return;
      }
      lastError := o.code;
      consecutive := consecutive + 1;
      if t.single {
        return;
      }
      var pause := o.cooldown;
      if t.probe || consecutive >= t.threshold {
        pause := Max(pause, t.cooldown);
      }
      if pause > 0 {
        var newUntil := clock + pause;
        if newUntil > until {
          until := newUntil;
        }
      }
    }
  }
}
