/** The evaluation executor (evaluation_runs.go:365-517): every sample against every target, repeated and
    retried, one trial at a time, under a budget and paced per channel. */
module Evaluation {
  import opened Base
  import opened EvaluationPlan
  import opened EvaluationBudget
  import opened EvaluationSteps

  class EvaluationRun {
    const plan: Plan
    var clock: int
    var waited: int
    var pacer: map<string, int>
    var sends: seq<Send>
    var spent: int
    var results: seq<RowStatus>
    var sequence: nat

    function View(): Journal
      reads this
    {
      Journal(clock, waited, pacer, sends, spent, results, sequence)
    }

    constructor (plan: Plan)
      ensures this.plan == plan && View() == Start(plan)
    {
      this.plan := plan;
      clock, waited, spent, sequence := 0, 0, 0, 0;
      pacer, sends := map[], [];
      results := seq(|Cells(plan)|, _ => RowPending);
    }

    method MarkRow(status: RowStatus)
      modifies `results
      ensures View() == Marked(old(View()), status)
    {
      if sequence < |results| {
        results := results[sequence := status];
      }
    }

    /** The pacing and retry wait before a trial: the clock moves by exactly the idle time, the wait and
        the time overslept. */
    method Wait(cell: Cell, retry: nat, t: Trial) returns (halt: Option<Halt>)
      modifies `clock, `waited
      ensures (halt, View()) == Waited(plan, cell, retry, t, old(View()))
      ensures waited == old(waited) + DelayBefore(plan, cell, retry, t, old(View()))
      ensures clock == old(clock) + t.idle + (waited - old(waited)) + if waited > old(waited) then t.oversleep else 0
    {
      clock := clock + t.idle;
      var delay := Delay(pacer, plan, cell.target, cell.sample, clock);
      if retry > 0 {
        delay := Max(delay, retry * SECOND);
      }
      if delay > 0 {
        waited := waited + delay;
        clock := clock + delay + t.oversleep;
        if t.waitFails {
          return Some(Interrupted);
        }
      }
      return None;
    }

    /** The checks before a trial: nothing is called unless its estimate still fits the budget. */
    method Admit(cell: Cell, t: Trial) returns (halt: Option<Halt>)
      ensures halt == Admitted(plan, cell, t, spent)
    {
      if t.barred.Some? {
        return t.barred;
      }
      var estimate := EstimateTrial(plan, cell.target, cell.sample, t.terms);
      if estimate.Failure? {
        return Some(Interrupted);
      }
      if spent + estimate.value > plan.maxCost {
        return Some(BudgetExhausted);
      }
      if t.rateRefused {
        return Some(Interrupted);
      }
      return None;
    }

    /** The upstream calls of a trial, in order, each moving the pacer to its start. */
    method Route(calls: seq<(string, nat)>)
      modifies `clock, `pacer, `sends
      ensures View() == Routed(old(View()), calls)
    {
      for i := 0 to |calls|
        invariant View() == Routed(old(View()), calls[..i])
      {
        assert calls[..i + 1][..i] == calls[..i];
        clock := clock + calls[i].1;
        sends := sends + [Send(calls[i].0, clock)];
        pacer := pacer[calls[i].0 := clock];
      }
      assert calls[..|calls|] == calls;
    }

    /** The row is marked running, and the calls go out. */
    method Launch(t: Trial) returns (halt: Option<Halt>)
      modifies `clock, `pacer, `sends, `results
      ensures (halt, View()) == Launched(t, old(View()))
    {
      if t.progressFails {
        return Some(Interrupted);
      }
      MarkRow(RowRunning);
      Route(t.calls);
      clock := clock + t.tail;
      return None;
    }

    /** The result row is written, and the trial's cost joins what was spent. */
    method Record(t: Trial) returns (halt: Option<Halt>)
      modifies `spent, `results
      ensures (halt, View()) == Recorded(plan, t, old(View()))
    {
      if t.recordFails {
        return Some(Interrupted);
      }
      MarkRow(if t.error.None? then RowCompleted else RowError);
      if t.cost.None? {
        return Some(Interrupted);
      }
      spent := spent + t.cost.value;
      if spent > plan.maxCost {
        return Some(BudgetExhausted);
      }
      if t.error.Some? && AccountingError(t.error.value) {
        return Some(Interrupted);
      }
      return None;
    }

    /** A trial once it is admitted. */
    method Perform(cell: Cell, retry: nat, t: Trial) returns (halt: Option<Halt>)
      modifies this
      ensures (halt, View()) == Performed(plan, cell, retry, t, old(View()))
    {
      halt := Wait(cell, retry, t);
      if halt.Some? {
        return;
      }
      halt := Launch(t);
      if halt.Some? {
        return;
      }
      halt := Record(t);
    }

    /** One trial of a cell. */
    method Try(cell: Cell, retry: nat, t: Trial) returns (halt: Option<Halt>)
      modifies this
      ensures (halt, View()) == Tried(plan, cell, retry, t, old(View()))
    {
      halt := Admit(cell, t);
      if halt.Some? {
        return;
      }
      halt := Perform(cell, retry, t);
    }

    /** The retry loop of one cell: the first trial without an error ends it, and so does the last retry. */
    method Retry(cell: Cell, env: (nat, nat) -> Trial) returns (halt: Option<Halt>)
      modifies this
      ensures (halt, View()) == Retried(plan, cell, env, old(sequence), 0, old(View()))
    {
      var row, retry := sequence, 0;
      ghost var done := Retried(plan, cell, env, row, 0, View());
      while true
        invariant retry <= plan.retries && Retried(plan, cell, env, row, retry, View()) == done
        decreases plan.retries - retry
      {
        var t := env(row, retry);
        halt := Try(cell, retry, t);
        if halt.Some? || t.error.None? || retry == plan.retries {
          return;
        }
        retry := retry + 1;
      }
    }

    /** The next row, and on to the row after it. */
    method RunCell(cell: Cell, env: (nat, nat) -> Trial) returns (halt: Option<Halt>)
      modifies this
      ensures (halt, View()) == CellDone(plan, cell, env, old(View()))
    {
      halt := Retry(cell, env);
      if halt.None? {
        sequence := sequence + 1;
      }
    }

    /** The run stands where the cells done leave it. */
    ghost predicate At(env: (nat, nat) -> Trial, done: seq<Cell>, halt: Option<Halt>)
      reads this
    {
      done <= Cells(plan) && (halt, View()) == After(plan, env, done)
    }

    ghost predicate Over(env: (nat, nat) -> Trial, halt: Option<Halt>)
      reads this
    {
      (halt, View()) == After(plan, env, Cells(plan))
    }

    /** The next cell in the order of the rows. */
    method Advance(cell: Cell, env: (nat, nat) -> Trial, ghost done: seq<Cell>) returns (halt: Option<Halt>)
      requires At(env, done, None) && done + [cell] <= Cells(plan)
      modifies this
      ensures if halt.None? then At(env, done + [cell], None) else Over(env, halt)
    {
      assert (done + [cell])[..|done|] == done;
      halt := RunCell(cell, env);
      if halt.Some? {
        HaltIsFinal(plan, env, done + [cell], Cells(plan));
      }
    }

    method RunIterations(s: nat, t: nat, env: (nat, nat) -> Trial) returns (halt: Option<Halt>)
      requires s < |plan.samples| && t < |plan.targets| && At(env, UpTo(plan, s, t), None)
      modifies this
      ensures if halt.None? then At(env, UpTo(plan, s, t + 1), None) else Over(env, halt)
    {
      BeforeEnds(plan, s, t);
      for iteration := 0 to plan.repetitions
        invariant At(env, Before(plan, s, t, iteration), None)
      {
        CellInPlace(plan, s, t, iteration);
        BeforeStep(plan, s, t, iteration);
        halt := Advance(Cell(plan.samples[s], plan.targets[t], iteration + 1), env, Before(plan, s, t, iteration));
        if halt.Some? {
          return;
        }
      }
      return None;
    }

    method RunTargets(s: nat, env: (nat, nat) -> Trial) returns (halt: Option<Halt>)
      requires s < |plan.samples| && At(env, UpTo(plan, s, 0), None)
      modifies this
      ensures if halt.None? then At(env, UpTo(plan, s, |plan.targets|), None) else Over(env, halt)
    {
      for t := 0 to |plan.targets|
        invariant At(env, UpTo(plan, s, t), None)
      {
        halt := RunIterations(s, t, env);
        if halt.Some? {
          return;
        }
      }
      return None;
    }

    method RunSample(s: nat, env: (nat, nat) -> Trial) returns (halt: Option<Halt>)
      requires s < |plan.samples| && At(env, UpToSample(plan, s), None)
      modifies this
      ensures if halt.None? then At(env, UpToSample(plan, s + 1), None) else Over(env, halt)
    {
      UpToEnds(plan, s);
      halt := RunTargets(s, env);
    }

    /** The nested loops over samples, targets and repetitions. */
    method Execute(env: (nat, nat) -> Trial) returns (halt: Option<Halt>)
      requires View() == Start(plan)
      modifies this
      ensures Over(env, halt)
    {
      assert plan.samples[..|plan.samples|] == plan.samples;
      SamplesGrow(plan, 0);
      for s := 0 to |plan.samples|
        invariant At(env, UpToSample(plan, s), None)
      {
        halt := RunSample(s, env);
        if halt.Some? {
          return;
        }
      }
      return None;
    }

    /** finishEvaluation: rows left pending or running are closed, the settled ones stay as they are. */
    method Finish()
      modifies `results
      ensures View() == old(View()).(results := ClosedRows(old(results)))
    {
      results := ClosedRows(results);
    }
  }

  /** A run from its creation to its final sweep: its books are exactly those of its trials. */
  method ExecuteEvaluation(plan: Plan, env: (nat, nat) -> Trial) returns (run: EvaluationRun, halt: Option<Halt>)
    ensures fresh(run) && run.plan == plan && (halt, run.View()) == Executed(plan, env)
  {
    run := new EvaluationRun(plan);
    halt := run.Execute(env);
    run.Finish();
  }
}
