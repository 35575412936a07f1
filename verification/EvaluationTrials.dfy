/** Where the trials of an evaluation run come from: each is made of the attempts of one attempt loop, and so
    meets what the run's limits ask of it. */
module EvaluationTrials {
  import opened Base
  import opened Counting
  import opened AttemptLoop
  import opened EvaluationPlan
  import opened EvaluationBudget
  import opened EvaluationSteps
  import Limits = EvaluationLimits

  /** The channels of the attempts that were sent, in order. */
  function SentChannels(attempts: seq<Attempt>): seq<string> {
    if attempts == [] then []
    else
      var last := attempts[|attempts| - 1];
      SentChannels(attempts[..|attempts| - 1]) + if last.sent then [last.channel] else []
  }

  lemma {:induction false} SentFrom(attempts: seq<Attempt>, c: string) returns (i: nat)
    requires c in SentChannels(attempts)
    ensures i < |attempts| && attempts[i].channel == c
  {
    var last := |attempts| - 1;
    if c in SentChannels(attempts[..last]) {
      i := SentFrom(attempts[..last], c);
    } else {
      i := last;
    }
  }

  lemma {:induction false} SentDiffer(attempts: seq<Attempt>)
    requires DistinctAttempts(attempts)
    ensures Distinct(SentChannels(attempts))
  {
    if attempts != [] {
      var front, last := attempts[..|attempts| - 1], attempts[|attempts| - 1];
      SentDiffer(front);
      forall k | 0 <= k < |SentChannels(front)|
        ensures SentChannels(front)[k] != last.channel
      {
        var i := SentFrom(front, SentChannels(front)[k]);
        assert front[i] == attempts[i];
      }
    }
  }

  /** A trial whose calls are the sent attempts of a fair attempt loop and whose cost is their bill. */
  ghost predicate MadeOf(plan: Plan, cell: Cell, t: Trial, times: Times, attempts: seq<Attempt>) {
    FairTrial(plan, cell.target, cell.sample, t.terms, attempts)
    && |t.calls| == |SentChannels(attempts)|
    && (forall k :: 0 <= k < |t.calls| ==> t.calls[k].0 == SentChannels(attempts)[k])
    && (t.cost.Some? ==> t.cost.value == Sum(attempts, BillOf(t.terms, times)))
  }

  /** A trial made of the attempts of one attempt loop meets both conditions a run relies on. */
  lemma AttemptsMakeTrial(plan: Plan, cell: Cell, t: Trial, times: Times, attempts: seq<Attempt>)
    requires MadeOf(plan, cell, t, times, attempts)
    ensures CallsAllowed(plan, cell, t.calls) && CostWithinEstimate(plan, cell, t)
  {
    if Estimate(plan, cell.target, cell.sample, t.terms).Success? {
      TrialWithinEstimate(plan, cell.target, cell.sample, t.terms, times, attempts);
    }
    SentDiffer(attempts);
    forall k | 0 <= k < |t.calls|
      ensures Reaches(plan, cell.target, t.calls[k].0)
    {
      var i := SentFrom(attempts, SentChannels(attempts)[k]);
      QuotedIsRoutable(plan, cell.target, attempts[i].channel);
    }
  }

  ghost predicate FairAttempts(plan: Plan, cell: Cell, t: Trial) {
    exists times, attempts :: MadeOf(plan, cell, t, times, attempts)
  }

  /** Attempts, trials and runs together: when every trial is made of a fair attempt loop, the run never
      spends more than its budget, and never sends a channel more than its RPM in any minute. */
  lemma FairRunKeepsItsLimits(plan: Plan, env: (nat, nat) -> Trial)
    requires DistinctIds(plan.channels) && 0 <= plan.maxCost
    requires forall q, retry: nat :: 0 <= q < |Cells(plan)| && retry <= plan.retries ==>
      FairAttempts(plan, Cells(plan)[q], env(q, retry))
    ensures Limits.CallsFitAll(plan, env) && Limits.CostsFitAll(plan, env)
    ensures Executed(plan, env).1.spent <= plan.maxCost && Limits.Paced(plan, Executed(plan, env).1)
    ensures forall c, start :: c in plan.channels && 0 < c.rpm ==>
      Count(Executed(plan, env).1.sends, Limits.InMinute(c.id, start)) <= c.rpm
  {
    forall q, retry: nat | 0 <= q < |Cells(plan)| && retry <= plan.retries
      ensures CallsAllowed(plan, Cells(plan)[q], env(q, retry).calls)
              && CostWithinEstimate(plan, Cells(plan)[q], env(q, retry))
    {
      var cell, t := Cells(plan)[q], env(q, retry);
      var times, attempts :| MadeOf(plan, cell, t, times, attempts);
      AttemptsMakeTrial(plan, cell, t, times, attempts);
    }
    Limits.BudgetKept(plan, env);
    Limits.SendsStayPaced(plan, env);
    forall c, start | c in plan.channels && 0 < c.rpm
      ensures Count(Executed(plan, env).1.sends, Limits.InMinute(c.id, start)) <= c.rpm
    {
      Limits.RunWithinRpm(plan, env, c, start);
    }
  }
}
