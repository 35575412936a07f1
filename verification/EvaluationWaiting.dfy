/** The time an evaluation run is given against the waiting its cells may cost (evaluation_pacing.go:63-77). */
module EvaluationWaiting {
  import opened Base
  import opened Counting
  import opened EvaluationPlan
  import opened EvaluationSteps
  import opened EvaluationLimits

  // ---------- The waiting of a whole run ----------

  /** A product as a repeated sum, so that sums over cells stay linear. */
  function Mul(a: int, n: nat): int {
    if n == 0 then 0 else Mul(a, n - 1) + a
  }

  lemma {:induction false} MulIsTimes(a: int, n: nat)
    ensures Mul(a, n) == a * n
  {
    if n > 0 {
      MulIsTimes(a, n - 1);
    }
  }

  lemma {:induction false} MulAdd(a: int, b: int, n: nat)
    ensures Mul(a + b, n) == Mul(a, n) + Mul(b, n)
  {
    if n > 0 {
      MulAdd(a, b, n - 1);
    }
  }

  lemma {:induction false} MulZero(n: nat)
    ensures Mul(0, n) == 0
  {
    if n > 0 {
      MulZero(n - 1);
    }
  }

  /** The retry pauses of one cell. */
  function Pauses(retries: nat): int {
    if retries == 0 then 0 else Pauses(retries - 1) + Pause(retries)
  }

  lemma {:induction false} AllowanceFormula(interval: int, retries: nat)
    ensures WaitAllowance(interval, retries + 1) == Mul(interval, retries + 1) + Pauses(retries)
  {
    if retries > 0 {
      AllowanceFormula(interval, retries - 1);
    } else {
      assert WaitAllowance(interval, 0) == 0 && Mul(interval, 0) == 0;
    }
  }

  function TargetAllowance(plan: Plan): string -> int {
    (target: string) => WaitAllowance(LongestInterval(plan, target), plan.retries + 1)
  }

  /** Sums over cells of something that depends only on the target. */
  ghost predicate ByTarget(f: Cell -> int, g: string -> int) {
    forall cell :: f(cell) == g(cell.target)
  }

  lemma {:induction false} SumIterations(sample: Sample, target: string, n: nat, f: Cell -> int, g: string -> int)
    requires ByTarget(f, g)
    ensures Sum(Iterations(sample, target, n), f) == Mul(g(target), n)
  {
    if n > 0 {
      SumIterations(sample, target, n - 1, f, g);
      SumLast(Iterations(sample, target, n - 1), Cell(sample, target, n), f);
    }
  }

  lemma SumJoined(front: seq<Cell>, last: seq<Cell>, f: Cell -> int, a: int, b: int, n: nat)
    requires Sum(front, f) == Mul(a, n) && Sum(last, f) == Mul(b, n)
    ensures Sum(front + last, f) == Mul(a + b, n)
  {
    SumConcat(front, last, f);
    MulAdd(a, b, n);
  }

  lemma {:induction false} SumTargets(sample: Sample, targets: seq<string>, n: nat, f: Cell -> int, g: string -> int)
    requires ByTarget(f, g)
    ensures Sum(TargetCells(sample, targets, n), f) == Mul(Sum(targets, g), n)
  {
    if targets == [] {
      MulZero(n);
    } else {
      var front, last := targets[..|targets| - 1], targets[|targets| - 1];
      SumTargets(sample, front, n, f, g);
      SumIterations(sample, last, n, f, g);
      SumJoined(TargetCells(sample, front, n), Iterations(sample, last, n), f, Sum(front, g), g(last), n);
    }
  }

  lemma {:induction false} SumSamples(samples: seq<Sample>, targets: seq<string>, n: nat, f: Cell -> int,
                                      g: string -> int)
    requires ByTarget(f, g)
    ensures Sum(SampleCells(samples, targets, n), f) == Mul(Mul(Sum(targets, g), n), |samples|)
  {
    if samples != [] {
      var front, last := samples[..|samples| - 1], samples[|samples| - 1];
      SumSamples(front, targets, n, f, g);
      SumTargets(last, targets, n, f, g);
      SumConcat(SampleCells(front, targets, n), TargetCells(last, targets, n), f);
    }
  }

  lemma {:induction false} SumScaled(targets: seq<string>, g: string -> int, h: string -> int, k: nat, p: int)
    requires forall target :: g(target) == Mul(h(target), k) + p
    ensures Sum(targets, g) == Mul(Sum(targets, h), k) + Mul(p, |targets|)
  {
    if targets != [] {
      var front, last := targets[..|targets| - 1], targets[|targets| - 1];
      SumScaled(front, g, h, k, p);
      MulAdd(Sum(front, h), h(last), k);
    } else {
      MulZero(k);
    }
  }

  lemma TargetsFormula(plan: Plan)
    ensures Sum(plan.targets, TargetAllowance(plan))
            == Mul(Sum(plan.targets, IntervalOfTarget(plan)), plan.retries + 1)
               + Mul(Pauses(plan.retries), |plan.targets|)
  {
    forall target: string
      ensures TargetAllowance(plan)(target)
              == Mul(IntervalOfTarget(plan)(target), plan.retries + 1) + Pauses(plan.retries)
    {
      AllowanceFormula(LongestInterval(plan, target), plan.retries);
    }
    SumScaled(plan.targets, TargetAllowance(plan), IntervalOfTarget(plan), plan.retries + 1, Pauses(plan.retries));
  }

  lemma AllowanceByTarget(plan: Plan)
    ensures ByTarget(CellAllowance(plan), TargetAllowance(plan))
  {
  }

  /** All the waiting the cells may cost, as repeated sums. */
  lemma AllWaiting(plan: Plan, each: int)
    requires each == Sum(plan.targets, TargetAllowance(plan))
    ensures Sum(Cells(plan), CellAllowance(plan)) == Mul(Mul(each, plan.repetitions), |plan.samples|)
  {
    AllowanceByTarget(plan);
    SumSamples(plan.samples, plan.targets, plan.repetitions, CellAllowance(plan), TargetAllowance(plan));
  }

  // ---------- The same as products ----------

  lemma {:induction false} PausesFormula(n: nat)
    ensures n * (n + 1) % 2 == 0 && Pauses(n) == n * (n + 1) / 2 * SECOND
  {
    if n > 0 {
      PausesFormula(n - 1);
      PauseInSeconds(n);
      assert n * (n + 1) == (n - 1) * n + 2 * n;
    }
  }

  lemma Regroup(i: int, k: int, pauses: int, t: int, p: int, s: int)
    ensures (i * k + pauses * t) * p * s == i * (s * p * k) + (s * t * p) * pauses
  {
    assert (i * k + pauses * t) * p == i * k * p + pauses * t * p;
    assert (i * k * p + pauses * t * p) * s == i * k * p * s + pauses * t * p * s;
    assert i * k * p * s == i * (s * p * k);
    assert pauses * t * p * s == (s * t * p) * pauses;
  }

  lemma Expanded(each: int, i: int, k: nat, pauses: int, t: nat, p: nat, s: nat, trials: int, cells: int)
    requires each == Mul(i, k) + Mul(pauses, t) && trials == s * p * k && cells == s * t * p
    ensures Mul(Mul(each, p), s) == i * trials + cells * pauses
  {
    MulIsTimes(i, k);
    MulIsTimes(pauses, t);
    MulIsTimes(each, p);
    MulIsTimes(each * p, s);
    Regroup(i, k, pauses, t, p, s);
  }

  lemma HalfOfProduct(cells: int, r: int, half: int, second: int)
    requires r * (r + 1) == 2 * half
    ensures cells * r * (r + 1) / 2 * second == cells * (half * second)
  {
    assert cells * r * (r + 1) == cells * (r * (r + 1)) == 2 * (cells * half);
    assert cells * half * second == cells * (half * second);
  }

  lemma PausesTogether(plan: Plan, cells: int, pauses: int)
    requires cells == |plan.samples| * |plan.targets| * plan.repetitions && pauses == Pauses(plan.retries)
    ensures cells * pauses == RetryPauses(plan)
  {
    var r := plan.retries;
    PausesFormula(r);
    HalfOfProduct(cells, r, r * (r + 1) / 2, SECOND);
  }

  lemma AllWaitingAsProducts(plan: Plan, interval: int, pauses: int, trials: int, cells: int)
    requires interval == Sum(plan.targets, IntervalOfTarget(plan)) && pauses == Pauses(plan.retries)
    requires trials == |plan.samples| * plan.repetitions * (plan.retries + 1)
    requires cells == |plan.samples| * |plan.targets| * plan.repetitions
    ensures Sum(Cells(plan), CellAllowance(plan)) == interval * trials + cells * pauses
  {
    var each := Sum(plan.targets, TargetAllowance(plan));
    AllWaiting(plan, each);
    TargetsFormula(plan);
    Expanded(each, interval, plan.retries + 1, pauses, |plan.targets|, plan.repetitions, |plan.samples|, trials, cells);
  }

  /** The time a run is given is half an hour beyond all the waiting its cells may cost. */
  lemma AllowanceIsTimeout(plan: Plan)
    ensures Sum(Cells(plan), CellAllowance(plan)) == TimeoutOf(plan) - 30 * MINUTE
  {
    var pauses, cells := Pauses(plan.retries), |plan.samples| * |plan.targets| * plan.repetitions;
    AllWaitingAsProducts(plan, Sum(plan.targets, IntervalOfTarget(plan)), pauses, TrialsPerTarget(plan), cells);
    PausesTogether(plan, cells, pauses);
  }

  /** One row for every sample, target and repetition. */
  lemma CellCount(plan: Plan)
    ensures |Cells(plan)| == |plan.samples| * (|plan.targets| * plan.repetitions)
  {
    var one := (cell: Cell) => 1;
    var each := (target: string) => 1;
    SumSamples(plan.samples, plan.targets, plan.repetitions, one, each);
    SumOnes(Cells(plan), one);
    SumOnes(plan.targets, each);
    MulIsTimes(|plan.targets|, plan.repetitions);
    MulIsTimes(|plan.targets| * plan.repetitions, |plan.samples|);
  }

  lemma {:induction false} SumOnes<T>(s: seq<T>, one: T -> int)
    requires forall x :: x in s ==> one(x) == 1
    ensures Sum(s, one) == |s|
  {
    if s != [] {
      SumOnes(s[..|s| - 1], one);
    }
  }
}
