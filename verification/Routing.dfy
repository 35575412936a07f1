/** Candidates and policy settings as the router sees them (model.go). */
module Routing {
  import opened Base

  /** A channel bound to the policy: its shared limits, its place in the policy and the signature of
      its connection. */
  datatype Candidate = Candidate(
    id: string, revision: int, signature: string, rpm: int, maxConcurrency: int, priority: int, weight: int)

  datatype Settings = Settings(
    maxAttempts: int, attemptsPerPriority: int, priorityTimeoutMs: int,
    failures: int, cooldownMinutes: int)
  {
    /** The bounds PolicySettings.Validate enforces; zero stands for a default. */
    predicate Valid() {
      1 <= maxAttempts <= 5 && 0 <= attemptsPerPriority <= 5
      && (priorityTimeoutMs == 0 || 100 <= priorityTimeoutMs <= 25000)
      && 0 <= failures <= 100 && 0 <= cooldownMinutes <= 1440
    }

    function MaxAttemptsPerPriority(): int {
      if attemptsPerPriority == 0 then 2 else attemptsPerPriority
    }

    function PriorityTimeout(): int {
      (if priorityTimeoutMs == 0 then 4000 else priorityTimeoutMs) * (SECOND / 1000)
    }

    function FailureThreshold(): int {
      if failures == 0 then 3 else failures
    }

    function FailureCooldown(): int {
      (if cooldownMinutes == 0 then 30 else cooldownMinutes) * MINUTE
    }
  }

  const LOWEST_PRIORITY := 100

  /** Bindings and channels as validated when they were saved. */
  predicate ValidCandidate(c: Candidate) {
    1 <= c.priority <= LOWEST_PRIORITY && 1 <= c.weight <= 1000 && 0 <= c.rpm && 1 <= c.maxConcurrency
  }

  predicate ValidCandidates(cs: seq<Candidate>) {
    forall i :: 0 <= i < |cs| ==> ValidCandidate(cs[i])
  }

  /** Positions of candidates, as the router passes them around. */
  predicate Positions(eligible: seq<nat>, cs: seq<Candidate>) {
    forall k :: 0 <= k < |eligible| ==> eligible[k] < |cs|
  }

  /** The positions on one priority level, in order. */
  function OnLevel(cs: seq<Candidate>, eligible: seq<nat>, level: int): (tier: seq<nat>)
    requires Positions(eligible, cs)
    ensures Positions(tier, cs)
    ensures forall i :: i in tier <==> i in eligible && cs[i].priority == level
  {
    if eligible == [] then []
    else
      var front, last := eligible[..|eligible| - 1], eligible[|eligible| - 1];
      OnLevel(cs, front, level) + if cs[last].priority == level then [last] else []
  }
}
