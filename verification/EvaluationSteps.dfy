/** The evaluation executor as a function of what its trials meet (evaluation_runs.go:365-517): what one
    trial, one cell and a whole run do to the run's books. */
module EvaluationSteps {
  import opened Base
  import opened Counting
  import opened EvaluationPlan
  import opened EvaluationBudget

  // ---------- The cells of a run ----------

  datatype Cell = Cell(sample: Sample, target: string, iteration: nat)

  function Iterations(sample: Sample, target: string, n: nat): seq<Cell> {
    if n == 0 then [] else Iterations(sample, target, n - 1) + [Cell(sample, target, n)]
  }

  function TargetCells(sample: Sample, targets: seq<string>, repetitions: nat): seq<Cell> {
    if targets == [] then []
    else
      var last := |targets| - 1;
      TargetCells(sample, targets[..last], repetitions) + Iterations(sample, targets[last], repetitions)
  }

  function SampleCells(samples: seq<Sample>, targets: seq<string>, repetitions: nat): seq<Cell> {
    if samples == [] then []
    else
      var last := |samples| - 1;
      SampleCells(samples[..last], targets, repetitions) + TargetCells(samples[last], targets, repetitions)
  }

  /** The result rows of the run, in the order they are created and worked off. */
  function Cells(plan: Plan): seq<Cell> {
    SampleCells(plan.samples, plan.targets, plan.repetitions)
  }

  // ---------- The order of the rows ----------

  /** The cells before sample s, before target t of that sample, and before iteration p + 1 of that target. */
  function UpToSample(plan: Plan, s: nat): seq<Cell>
    requires s <= |plan.samples|
  {
    SampleCells(plan.samples[..s], plan.targets, plan.repetitions)
  }

  function UpTo(plan: Plan, s: nat, t: nat): seq<Cell>
    requires s < |plan.samples| && t <= |plan.targets|
  {
    UpToSample(plan, s) + TargetCells(plan.samples[s], plan.targets[..t], plan.repetitions)
  }

  function Before(plan: Plan, s: nat, t: nat, p: nat): seq<Cell>
    requires s < |plan.samples| && t < |plan.targets|
  {
    UpTo(plan, s, t) + Iterations(plan.samples[s], plan.targets[t], p)
  }

  lemma BeforeStep(plan: Plan, s: nat, t: nat, p: nat)
    requires s < |plan.samples| && t < |plan.targets|
    ensures Before(plan, s, t, p + 1) == Before(plan, s, t, p) + [Cell(plan.samples[s], plan.targets[t], p + 1)]
  {
  }

  lemma BeforeEnds(plan: Plan, s: nat, t: nat)
    requires s < |plan.samples| && t < |plan.targets|
    ensures Before(plan, s, t, 0) == UpTo(plan, s, t) && Before(plan, s, t, plan.repetitions) == UpTo(plan, s, t + 1)
  {
    assert plan.targets[..t + 1][..t] == plan.targets[..t];
  }

  lemma UpToEnds(plan: Plan, s: nat)
    requires s < |plan.samples|
    ensures UpTo(plan, s, 0) == UpToSample(plan, s) && UpTo(plan, s, |plan.targets|) == UpToSample(plan, s + 1)
  {
    assert plan.targets[..|plan.targets|] == plan.targets;
    assert plan.samples[..s + 1][..s] == plan.samples[..s];
  }

  lemma {:induction false} IterationsPrefix(sample: Sample, target: string, i: nat, j: nat)
    requires i <= j
    ensures Iterations(sample, target, i) <= Iterations(sample, target, j)
    decreases j
  {
    if i < j {
      IterationsPrefix(sample, target, i, j - 1);
    }
  }

  lemma {:induction false} UpToGrows(plan: Plan, s: nat, t: nat)
    requires s < |plan.samples| && t <= |plan.targets|
    ensures UpTo(plan, s, t) <= UpToSample(plan, s + 1)
    decreases |plan.targets| - t
  {
    if t < |plan.targets| {
      BeforeEnds(plan, s, t);
      UpToGrows(plan, s, t + 1);
    } else {
      UpToEnds(plan, s);
    }
  }

  lemma {:induction false} SamplesGrow(plan: Plan, s: nat)
    requires s <= |plan.samples|
    ensures UpToSample(plan, s) <= Cells(plan)
    decreases |plan.samples| - s
  {
    if s < |plan.samples| {
      UpToEnds(plan, s);
      UpToGrows(plan, s, 0);
      SamplesGrow(plan, s + 1);
    } else {
      assert plan.samples[..s] == plan.samples;
    }
  }

  /** The nested loops meet the rows in the order of Cells. */
  lemma CellInPlace(plan: Plan, s: nat, t: nat, p: nat)
    requires s < |plan.samples| && t < |plan.targets| && p < plan.repetitions
    ensures Before(plan, s, t, p + 1) <= Cells(plan)
  {
    IterationsPrefix(plan.samples[s], plan.targets[t], p + 1, plan.repetitions);
    assert Before(plan, s, t, p + 1) <= Before(plan, s, t, plan.repetitions);
    BeforeEnds(plan, s, t);
    UpToGrows(plan, s, t + 1);
    SamplesGrow(plan, s + 1);
  }

  // ---------- What one trial meets ----------

  /** Why a run ends early; Withdrawn when its row is no longer running. */
  datatype Halt = Interrupted | BudgetExhausted | Withdrawn

  /** Everything a trial learns from outside: the checks before it, how much time passes at each point,
      the upstream calls its routing sends and when, what its cost rows add up to, and its outcome. */
  datatype Trial = Trial(
    barred: Option<Halt>, terms: string -> Result<Terms, string>, rateRefused: bool,
    idle: nat, waitFails: bool, oversleep: nat, progressFails: bool,
    calls: seq<(string, nat)>, tail: nat, error: Option<string>, recordFails: bool,
    cost: Option<int>)

  predicate AccountingError(code: string) {
    code == "record_unavailable" || (5 <= |code| && code[..5] == "cost_")
  }

  predicate Reaches(plan: Plan, target: string, id: string) {
    exists c :: c in plan.channels && Routable(plan, target, c) && c.id == id
  }

  /** What routing guarantees about the calls of a trial: none when a keyword rule answers, and otherwise
      different channels among those the trial may be routed to. */
  ghost predicate CallsAllowed(plan: Plan, cell: Cell, calls: seq<(string, nat)>) {
    (cell.sample.SkipsRouting() ==> calls == [])
    && (forall i, j :: 0 <= i < j < |calls| ==> calls[i].0 != calls[j].0)
    && (forall i :: 0 <= i < |calls| ==> Reaches(plan, cell.target, calls[i].0))
  }

  /** What the pricing bound guarantees about the cost of a trial (TrialWithinEstimate). */
  predicate CostWithinEstimate(plan: Plan, cell: Cell, t: Trial) {
    var estimate := Estimate(plan, cell.target, cell.sample, t.terms);
    estimate.Success? && t.cost.Some? ==> 0 <= t.cost.value <= estimate.value
  }

  ghost predicate CallsFit(plan: Plan, cell: Cell, env: (nat, nat) -> Trial, sequence: nat) {
    forall retry: nat :: retry <= plan.retries ==> CallsAllowed(plan, cell, env(sequence, retry).calls)
  }

  ghost predicate CostsFit(plan: Plan, cell: Cell, env: (nat, nat) -> Trial, sequence: nat) {
    forall retry: nat :: retry <= plan.retries ==> CostWithinEstimate(plan, cell, env(sequence, retry))
  }

  datatype RowStatus = RowPending | RowRunning | RowCompleted | RowError | RowInterrupted | RowSkipped

  datatype Send = Send(channel: string, at: int)

  /** The books of a run: its clock, the waiting it has done, the last send of each channel, every call that
      went out, what was spent, the result rows, and the row it is at. */
  datatype Journal = Journal(
    clock: int, waited: int, pacer: map<string, int>, sends: seq<Send>, spent: int,
    results: seq<RowStatus>, sequence: nat)

  function Start(plan: Plan): Journal {
    Journal(0, 0, map[], [], 0, seq(|Cells(plan)|, _ => RowPending), 0)
  }

  function Marked(j: Journal, status: RowStatus): Journal {
    if j.sequence < |j.results| then j.(results := j.results[j.sequence := status]) else j
  }

  // ---------- One trial ----------

  /** The checks before a trial, up to the budget and the rate gate. */
  function Admitted(plan: Plan, cell: Cell, t: Trial, spent: int): Option<Halt> {
    var estimate := Estimate(plan, cell.target, cell.sample, t.terms);
    if t.barred.Some? then t.barred
    else if estimate.Failure? then Some(Interrupted)
    else if spent + estimate.value > plan.maxCost then Some(BudgetExhausted)
    else if t.rateRefused then Some(Interrupted)
    else None
  }

  /** How long a trial waits: for its channels to be due, and for its retry pause. */
  function DelayBefore(plan: Plan, cell: Cell, retry: nat, t: Trial, j: Journal): (d: int)
    ensures 0 <= d
  {
    var pacing := PacingDelay(j.pacer, plan, cell.target, cell.sample, j.clock + t.idle);
    if retry > 0 then Max(pacing, retry * SECOND) else pacing
  }

  function Waited(plan: Plan, cell: Cell, retry: nat, t: Trial, j: Journal): (Option<Halt>, Journal) {
    var delay := DelayBefore(plan, cell, retry, t, j);
    if delay > 0 then
      (if t.waitFails then Some(Interrupted) else None,
       j.(clock := j.clock + t.idle + delay + t.oversleep, waited := j.waited + delay))
    else (None, j.(clock := j.clock + t.idle))
  }

  function Called(j: Journal, id: string, after: nat): Journal {
    j.(clock := j.clock + after, sends := j.sends + [Send(id, j.clock + after)],
      pacer := j.pacer[id := j.clock + after])
  }

  function Routed(j: Journal, calls: seq<(string, nat)>): Journal {
    if calls == [] then j
    else Called(Routed(j, calls[..|calls| - 1]), calls[|calls| - 1].0, calls[|calls| - 1].1)
  }

  function Launched(t: Trial, j: Journal): (Option<Halt>, Journal) {
    if t.progressFails then (Some(Interrupted), j)
    else
      var routed := Routed(Marked(j, RowRunning), t.calls);
      (None, routed.(clock := routed.clock + t.tail))
  }

  function Settled(t: Trial): RowStatus {
    if t.error.None? then RowCompleted else RowError
  }

  function Recorded(plan: Plan, t: Trial, j: Journal): (Option<Halt>, Journal) {
    if t.recordFails then (Some(Interrupted), j)
    else
      var written := Marked(j, Settled(t));
      if t.cost.None? then (Some(Interrupted), written)
      else
        var paid := written.(spent := written.spent + t.cost.value);
        (if paid.spent > plan.maxCost then Some(BudgetExhausted)
         else if t.error.Some? && AccountingError(t.error.value) then Some(Interrupted)
         else None, paid)
  }

  function LaunchedAndRecorded(plan: Plan, t: Trial, j: Journal): (Option<Halt>, Journal) {
    var (failed, launched) := Launched(t, j);
    if failed.Some? then (failed, launched) else Recorded(plan, t, launched)
  }

  /** A trial that was admitted: wait, calls, record. */
  function Performed(plan: Plan, cell: Cell, retry: nat, t: Trial, j: Journal): (Option<Halt>, Journal) {
    var (cut, waited) := Waited(plan, cell, retry, t, j);
    if cut.Some? then (cut, waited) else LaunchedAndRecorded(plan, t, waited)
  }

  function Tried(plan: Plan, cell: Cell, retry: nat, t: Trial, j: Journal): (Option<Halt>, Journal) {
    var refused := Admitted(plan, cell, t, j.spent);
    if refused.Some? then (refused, j) else Performed(plan, cell, retry, t, j)
  }

  // ---------- Cells and runs ----------

  /** The trials of one cell from a given retry on: up to the first success, or the last retry. */
  function Retried(plan: Plan, cell: Cell, env: (nat, nat) -> Trial, sequence: nat, retry: nat, j: Journal)
    : (Option<Halt>, Journal)
    requires retry <= plan.retries
    decreases plan.retries - retry
  {
    var t := env(sequence, retry);
    var (halt, next) := Tried(plan, cell, retry, t, j);
    if halt.Some? || t.error.None? || retry == plan.retries then (halt, next)
    else Retried(plan, cell, env, sequence, retry + 1, next)
  }

  /** The next row, and on to the row after it. */
  function CellDone(plan: Plan, cell: Cell, env: (nat, nat) -> Trial, j: Journal): (Option<Halt>, Journal) {
    var (halt, next) := Retried(plan, cell, env, j.sequence, 0, j);
    (halt, if halt.Some? then next else next.(sequence := next.sequence + 1))
  }

  /** The run over some cells, unless a trial halts it before. */
  function After(plan: Plan, env: (nat, nat) -> Trial, cells: seq<Cell>): (Option<Halt>, Journal) {
    if cells == [] then (None, Start(plan))
    else
      var (halt, j) := After(plan, env, cells[..|cells| - 1]);
      if halt.Some? then (halt, j) else CellDone(plan, cells[|cells| - 1], env, j)
  }

  lemma {:induction false} HaltIsFinal(plan: Plan, env: (nat, nat) -> Trial, done: seq<Cell>, cells: seq<Cell>)
    requires done <= cells && After(plan, env, done).0.Some?
    ensures After(plan, env, cells) == After(plan, env, done)
    decreases |cells|
  {
    if |done| < |cells| {
      HaltIsFinal(plan, env, done, cells[..|cells| - 1]);
    } else {
      assert done == cells;
    }
  }

  /** finishEvaluation's sweep over the rows. */
  function Closed(status: RowStatus): RowStatus {
    if status == RowRunning then RowInterrupted else if status == RowPending then RowSkipped else status
  }

  function ClosedRows(results: seq<RowStatus>): (r: seq<RowStatus>)
    ensures |r| == |results| && forall k :: 0 <= k < |r| ==> r[k] == Closed(results[k])
  {
    seq(|results|, k requires 0 <= k < |results| => Closed(results[k]))
  }

  /** The whole run, with the final sweep over its rows. */
  function Executed(plan: Plan, env: (nat, nat) -> Trial): (Option<Halt>, Journal) {
    var (halt, j) := After(plan, env, Cells(plan));
    (halt, j.(results := ClosedRows(j.results)))
  }
}
