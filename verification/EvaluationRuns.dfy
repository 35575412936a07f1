/** What every evaluation run guarantees: its books are those of the trials that ran, its sends stay paced,
    its waiting is within its cells' allowance, and its spending within its budget. */
module EvaluationRuns {
  import opened Base
  import opened Counting
  import opened EvaluationPlan
  import opened EvaluationBudget
  import opened EvaluationSteps

  // ---------- What the trials of a cell amount to ----------

  /** How many trials a cell takes: up to the first success, or all of them. */
  function Trials(env: (nat, nat) -> Trial, sequence: nat, retry: nat, retries: nat): (n: nat)
    requires retry <= retries
    ensures retry < n <= retries + 1
    decreases retries - retry
  {
    if env(sequence, retry).error.None? || retry == retries then retry + 1
    else Trials(env, sequence, retry + 1, retries)
  }

  /** No trial before the last succeeded, and the last did unless the retries were used up. */
  lemma {:induction false} TrialsStopAtSuccess(env: (nat, nat) -> Trial, sequence: nat, retry: nat, retries: nat)
    requires retry <= retries
    ensures var n := Trials(env, sequence, retry, retries);
            (forall r :: retry <= r < n - 1 ==> env(sequence, r).error.Some?)
            && (env(sequence, n - 1).error.None? || n == retries + 1)
    decreases retries - retry
  {
    if env(sequence, retry).error.Some? && retry < retries {
      TrialsStopAtSuccess(env, sequence, retry + 1, retries);
    }
  }

  /** How a cell ends when its trials run: as its last trial does. */
  function Outcome(env: (nat, nat) -> Trial, sequence: nat, retries: nat): (status: RowStatus)
    ensures status == RowCompleted || status == RowError
  {
    if env(sequence, Trials(env, sequence, 0, retries) - 1).error.None? then RowCompleted else RowError
  }

  /** What the first n trials of a cell cost. */
  function PaidFor(env: (nat, nat) -> Trial, sequence: nat, n: nat): int {
    if n == 0 then 0
    else
      var t := env(sequence, n - 1);
      PaidFor(env, sequence, n - 1) + if t.cost.Some? then t.cost.value else 0
  }

  /** What the first n cells of a run cost. */
  function PaidThrough(env: (nat, nat) -> Trial, n: nat, retries: nat): int {
    if n == 0 then 0
    else PaidThrough(env, n - 1, retries) + PaidFor(env, n - 1, Trials(env, n - 1, 0, retries))
  }

  /** The channels of the calls a trial sends, and of the sends of a run. */
  function Names(calls: seq<(string, nat)>): (r: seq<string>)
    ensures |r| == |calls| && forall i :: 0 <= i < |r| ==> r[i] == calls[i].0
  {
    seq(|calls|, i requires 0 <= i < |calls| => calls[i].0)
  }

  function Channels(sends: seq<Send>): (r: seq<string>)
    ensures |r| == |sends| && forall i :: 0 <= i < |r| ==> r[i] == sends[i].channel
  {
    seq(|sends|, i requires 0 <= i < |sends| => sends[i].channel)
  }

  /** The channels the first n trials of a cell call, in order. */
  function CalledFor(env: (nat, nat) -> Trial, sequence: nat, n: nat): seq<string> {
    if n == 0 then [] else CalledFor(env, sequence, n - 1) + Names(env(sequence, n - 1).calls)
  }

  /** The channels the first n cells of a run call, in order. */
  function CalledThrough(env: (nat, nat) -> Trial, n: nat, retries: nat): seq<string> {
    if n == 0 then []
    else CalledThrough(env, n - 1, retries) + CalledFor(env, n - 1, Trials(env, n - 1, 0, retries))
  }

  // ---------- What one trial does ----------

  /** The checks before a trial let it pass: nothing bars it, its estimate exists and fits the budget on top of what was
      spent, and the rate gate is open. */
  predicate Cleared(plan: Plan, cell: Cell, t: Trial, spent: int) {
    var estimate := Estimate(plan, cell.target, cell.sample, t.terms);
    t.barred == None && estimate.Success? && spent + estimate.value <= plan.maxCost && !t.rateRefused
  }

  /** Its calls go out: it was not cut off in a wait it had to make, and its row could be marked. */
  predicate CallsOut(plan: Plan, cell: Cell, t: Trial, spent: int, waits: bool) {
    Cleared(plan, cell, t, spent) && !(waits && t.waitFails) && !t.progressFails
  }

  /** Its outcome is written to its row. */
  predicate Written(plan: Plan, cell: Cell, t: Trial, spent: int, waits: bool) {
    CallsOut(plan, cell, t, spent, waits) && !t.recordFails
  }

  /** Its cost is known and booked. */
  predicate Paid(plan: Plan, cell: Cell, t: Trial, spent: int, waits: bool) {
    Written(plan, cell, t, spent, waits) && t.cost.Some?
  }

  predicate OverBudget(plan: Plan, cell: Cell, t: Trial, spent: int, waits: bool) {
    var estimate := Estimate(plan, cell.target, cell.sample, t.terms);
    || t.barred == Some(BudgetExhausted)
    || (t.barred == None && estimate.Success? && plan.maxCost < spent + estimate.value)
    || (Paid(plan, cell, t, spent, waits) && plan.maxCost < spent + t.cost.value)
  }

  /** The run goes on after the trial: it was paid within the budget and did not fail over its own accounts. */
  predicate GoesOn(plan: Plan, cell: Cell, t: Trial, spent: int, waits: bool) {
    Paid(plan, cell, t, spent, waits) && spent + t.cost.value <= plan.maxCost
    && (t.error.Some? ==> t.error.value != "record_unavailable" && !("cost_" <= t.error.value))
  }

  /** How the trial ends the run, if it does. */
  predicate Ends(plan: Plan, cell: Cell, t: Trial, spent: int, waits: bool, halt: Option<Halt>) {
    match halt
    case None => GoesOn(plan, cell, t, spent, waits)
    case Some(Withdrawn) => t.barred == Some(Withdrawn)
    case Some(BudgetExhausted) => OverBudget(plan, cell, t, spent, waits)
    case Some(Interrupted) =>
      t.barred != Some(Withdrawn)
      && !OverBudget(plan, cell, t, spent, waits) && !GoesOn(plan, cell, t, spent, waits)
  }

  /** After a pause of d its retry pause is over and every channel it may be routed to is due. */
  ghost predicate ReadyAfter(plan: Plan, cell: Cell, retry: nat, pacer: map<string, int>, now: int, d: int) {
    retry * 1_000_000_000 <= d && (cell.sample.SkipsRouting() || AllDue(plan, cell.target, pacer, now + d))
  }

  /** A trial has to wait when it is not ready at once. */
  ghost predicate Waits(plan: Plan, cell: Cell, retry: nat, t: Trial, j: Journal) {
    !ReadyAfter(plan, cell, retry, j.pacer, j.clock + t.idle, 0)
  }

  /** The time its calls take, one after the other. */
  function Duration(calls: seq<(string, nat)>): nat {
    if calls == [] then 0 else Duration(calls[..|calls| - 1]) + calls[|calls| - 1].1
  }

  /** Its calls as the log has them when they begin at some time. */
  function SendsFrom(calls: seq<(string, nat)>, start: int): seq<Send> {
    if calls == [] then []
    else
      SendsFrom(calls[..|calls| - 1], start) + [Send(calls[|calls| - 1].0, start + Duration(calls))]
  }

  /** The wait is the shortest one. */
  ghost predicate Rested(plan: Plan, cell: Cell, retry: nat, pacer: map<string, int>, now: int, rest: int) {
    0 <= rest && forall d :: 0 <= d ==> (rest <= d <==> ReadyAfter(plan, cell, retry, pacer, now, d))
  }

  /** Clock, waiting and log after a trial: a trial not let through takes no time; otherwise it idles, waits, perhaps
      oversleeps, and then its calls go out one after the other, if they do. */
  ghost predicate TrialTimed(plan: Plan, cell: Cell, retry: nat, t: Trial, j: Journal, next: Journal) {
    if !Cleared(plan, cell, t, j.spent) then
      (next.clock, next.waited, next.sends, next.pacer) == (j.clock, j.waited, j.sends, j.pacer)
    else
      var waits := Waits(plan, cell, retry, t, j);
      var rest := next.waited - j.waited;
      var start := j.clock + t.idle + rest + if waits then t.oversleep else 0;
      (waits <==> 0 < rest) && Rested(plan, cell, retry, j.pacer, j.clock + t.idle, rest)
      && if CallsOut(plan, cell, t, j.spent, waits) then
           next.clock == start + Duration(t.calls) + t.tail && next.sends == j.sends + SendsFrom(t.calls, start)
         else next.clock == start && next.sends == j.sends && next.pacer == j.pacer
  }

  /** One row may have changed, nothing else of the results. */
  ghost predicate SameRest(j: Journal, next: Journal) {
    next.sequence == j.sequence && |next.results| == |j.results|
    && forall k :: 0 <= k < |j.results| && k != j.sequence ==> next.results[k] == j.results[k]
  }

  /** The row, the spending, the channels called and the end of the run after a trial. */
  ghost predicate TrialBooked(plan: Plan, cell: Cell, t: Trial, j: Journal, waits: bool, halt: Option<Halt>,
                              next: Journal)
    requires j.sequence < |j.results|
  {
    SameRest(j, next) && Ends(plan, cell, t, j.spent, waits, halt)
    && next.results[j.sequence]
       == (if Written(plan, cell, t, j.spent, waits) then if t.error.None? then RowCompleted else RowError
           else if CallsOut(plan, cell, t, j.spent, waits) then RowRunning
           else j.results[j.sequence])
    && next.spent == j.spent + (if Paid(plan, cell, t, j.spent, waits) then t.cost.value else 0)
    && Channels(next.sends)
       == Channels(j.sends) + if CallsOut(plan, cell, t, j.spent, waits) then Names(t.calls) else []
  }

  lemma {:induction false} RoutedBooks(j: Journal, calls: seq<(string, nat)>)
    ensures var r := Routed(j, calls);
            (r.spent, r.results, r.sequence, r.waited) == (j.spent, j.results, j.sequence, j.waited)
            && r.clock == j.clock + Duration(calls) && r.sends == j.sends + SendsFrom(calls, j.clock)
  {
    if calls != [] {
      RoutedBooks(j, calls[..|calls| - 1]);
    }
  }

  lemma {:induction false} SendsNamed(calls: seq<(string, nat)>, start: int)
    ensures Channels(SendsFrom(calls, start)) == Names(calls)
  {
    if calls != [] {
      var front, last := calls[..|calls| - 1], calls[|calls| - 1];
      SendsNamed(front, start);
      assert calls == front + [last];
      assert Names(calls) == Names(front) + [last.0];
    }
  }

  lemma ChannelsJoin(a: seq<Send>, b: seq<Send>)
    ensures Channels(a + b) == Channels(a) + Channels(b)
  {
  }

  lemma WaitExactly(plan: Plan, cell: Cell, retry: nat, t: Trial, j: Journal)
    ensures var delay := DelayBefore(plan, cell, retry, t, j);
            (0 < delay <==> Waits(plan, cell, retry, t, j))
            && Rested(plan, cell, retry, j.pacer, j.clock + t.idle, delay)
  {
    var delay, now := DelayBefore(plan, cell, retry, t, j), j.clock + t.idle;
    forall d | 0 <= d
      ensures delay <= d <==> ReadyAfter(plan, cell, retry, j.pacer, now, d)
    {
      if !cell.sample.SkipsRouting() {
        DelayIsShortest(j.pacer, plan, cell.target, cell.sample, now, now + d);
      }
    }
    assert delay <= 0 <==> ReadyAfter(plan, cell, retry, j.pacer, now, 0);
  }

  lemma CodeOfAccounts(code: string)
    ensures AccountingError(code) <==> code == "record_unavailable" || "cost_" <= code
  {
  }

  /** What the calls of a trial and its record do, once it has rested. */
  ghost predicate Worked(plan: Plan, t: Trial, j: Journal, halt: Option<Halt>, next: Journal)
    requires j.sequence < |j.results|
  {
    var written := !t.progressFails && !t.recordFails;
    next.sequence == j.sequence && next.waited == j.waited
    && next.clock == j.clock + (if t.progressFails then 0 else Duration(t.calls) + t.tail)
    && next.sends == j.sends + (if t.progressFails then [] else SendsFrom(t.calls, j.clock))
    && (t.progressFails ==> next.pacer == j.pacer)
    && next.results
       == (if t.progressFails then j.results
           else j.results[j.sequence := if t.recordFails then RowRunning
                                        else if t.error.None? then RowCompleted else RowError])
    && next.spent == (if written && t.cost.Some? then j.spent + t.cost.value else j.spent)
    && (halt == None <==> written && t.cost.Some? && j.spent + t.cost.value <= plan.maxCost
                          && (t.error.Some? ==> !AccountingError(t.error.value)))
    && (halt == Some(BudgetExhausted) <==> written && t.cost.Some? && plan.maxCost < j.spent + t.cost.value)
    && halt != Some(Withdrawn)
  }

  lemma WorkBooked(plan: Plan, t: Trial, j: Journal)
    requires j.sequence < |j.results|
    ensures var (halt, next) := LaunchedAndRecorded(plan, t, j); Worked(plan, t, j, halt, next)
  {
    RoutedBooks(Marked(j, RowRunning), t.calls);
  }

  lemma WorkEnds(plan: Plan, cell: Cell, t: Trial, j: Journal, halt: Option<Halt>, next: Journal)
    requires j.sequence < |j.results| && Worked(plan, t, j, halt, next)
    requires Cleared(plan, cell, t, j.spent)
    ensures TrialBooked(plan, cell, t, j, false, halt, next)
    ensures !t.waitFails ==> TrialBooked(plan, cell, t, j, true, halt, next)
  {
    if t.error.Some? {
      CodeOfAccounts(t.error.value);
    }
    SendsNamed(t.calls, j.clock);
    ChannelsJoin(j.sends, SendsFrom(t.calls, j.clock));
    assert j.sends + [] == j.sends;
  }

  /** What one trial does, exactly: to the row, the money, the calls and the run. */
  lemma TriedBooks(plan: Plan, cell: Cell, retry: nat, t: Trial, j: Journal)
    requires j.sequence < |j.results|
    ensures var (halt, next) := Tried(plan, cell, retry, t, j);
            TrialBooked(plan, cell, t, j, Waits(plan, cell, retry, t, j), halt, next)
  {
    if Cleared(plan, cell, t, j.spent) {
      WaitExactly(plan, cell, retry, t, j);
      var (cut, waited) := Waited(plan, cell, retry, t, j);
      if cut.None? {
        var (halt, next) := LaunchedAndRecorded(plan, t, waited);
        WorkBooked(plan, t, waited);
        WorkEnds(plan, cell, t, waited, halt, next);
      } else {
        assert Channels(j.sends) + [] == Channels(j.sends);
      }
    } else {
      assert Channels(j.sends) + [] == Channels(j.sends);
    }
  }

  /** The clock of a trial that was let through: up to its wait, and through its work. */
  lemma WorkTimed(plan: Plan, cell: Cell, retry: nat, t: Trial, j: Journal, rest: int, waited: Journal,
                  halt: Option<Halt>, next: Journal)
    requires j.sequence < |j.results| && Cleared(plan, cell, t, j.spent)
    requires Rested(plan, cell, retry, j.pacer, j.clock + t.idle, rest)
    requires 0 < rest <==> Waits(plan, cell, retry, t, j)
    requires waited == j.(clock := j.clock + t.idle + rest + (if 0 < rest then t.oversleep else 0),
                          waited := j.waited + rest)
    requires if 0 < rest && t.waitFails then next == waited else Worked(plan, t, waited, halt, next)
    ensures TrialTimed(plan, cell, retry, t, j, next)
  {
    assert waited.sends + [] == waited.sends;
  }

  /** And when. */
  lemma TriedTimes(plan: Plan, cell: Cell, retry: nat, t: Trial, j: Journal)
    requires j.sequence < |j.results|
    ensures TrialTimed(plan, cell, retry, t, j, Tried(plan, cell, retry, t, j).1)
  {
    if Cleared(plan, cell, t, j.spent) {
      WaitExactly(plan, cell, retry, t, j);
      var (cut, waited) := Waited(plan, cell, retry, t, j);
      if cut.None? {
        WorkBooked(plan, t, waited);
      }
      var (halt, next) := Tried(plan, cell, retry, t, j);
      WorkTimed(plan, cell, retry, t, j, DelayBefore(plan, cell, retry, t, j), waited, halt, next);
    }
  }

  // ---------- The books of a cell ----------

  /** The last trial a cell starts. */
  function LastTrial(plan: Plan, cell: Cell, env: (nat, nat) -> Trial, sequence: nat, retry: nat, j: Journal): nat
    requires retry <= plan.retries
    decreases plan.retries - retry
  {
    var t := env(sequence, retry);
    var (halt, next) := Tried(plan, cell, retry, t, j);
    if halt.Some? || t.error.None? || retry == plan.retries then retry
    else LastTrial(plan, cell, env, sequence, retry + 1, next)
  }

  /** The row of a cell after n of its trials that let the run go on. */
  function RowAfter(env: (nat, nat) -> Trial, sequence: nat, n: nat): RowStatus {
    if n == 0 then RowPending else if env(sequence, n - 1).error.None? then RowCompleted else RowError
  }

  /** The books while a cell is worked off: its first n trials are paid, written and their calls logged, on top of
      what was spent and called before the cell. */
  ghost predicate Underway(env: (nat, nat) -> Trial, sequence: nat, n: nat, j: Journal, spent: int,
                           called: seq<string>)
  {
    j.sequence == sequence < |j.results|
    && j.spent == spent + PaidFor(env, sequence, n)
    && Channels(j.sends) == called + CalledFor(env, sequence, n)
    && j.results[sequence] == RowAfter(env, sequence, n)
  }

  /** A cell halted at a trial. All trials before it had failed and are paid and logged; on top of exactly that the
      trial ended the run, and the books show of it what it got to: calls, row and cost. */
  ghost predicate HaltedIn(plan: Plan, cell: Cell, env: (nat, nat) -> Trial, sequence: nat, at: nat, j: Journal,
                           halt: Halt, spent: int, called: seq<string>, waits: bool, closed: bool)
  {
    var t, before := env(sequence, at), spent + PaidFor(env, sequence, at);
    j.sequence == sequence < |j.results| && at < Trials(env, sequence, 0, plan.retries) && (at > 0 ==> waits)
    && Ends(plan, cell, t, before, waits, Some(halt))
    && j.spent == before + (if Paid(plan, cell, t, before, waits) then t.cost.value else 0)
    && Channels(j.sends)
       == called + CalledFor(env, sequence, at)
          + (if CallsOut(plan, cell, t, before, waits) then Names(t.calls) else [])
    && j.results[sequence]
       == if Written(plan, cell, t, before, waits) then if t.error.None? then RowCompleted else RowError
          else if CallsOut(plan, cell, t, before, waits) then if closed then RowInterrupted else RowRunning
          else if at > 0 then RowError
          else if closed then RowSkipped else RowPending
  }

  /** Whether the halting trial had to wait depends on the clock. */
  ghost predicate HaltedAt(plan: Plan, cell: Cell, env: (nat, nat) -> Trial, sequence: nat, at: nat, j: Journal,
                           halt: Halt, spent: int, called: seq<string>, closed: bool)
  {
    exists waits :: HaltedIn(plan, cell, env, sequence, at, j, halt, spent, called, waits, closed)
  }

  lemma NextTrial(plan: Plan, cell: Cell, env: (nat, nat) -> Trial, sequence: nat, retry: nat, j: Journal,
                  waits: bool, next: Journal, spent: int, called: seq<string>)
    requires Underway(env, sequence, retry, j, spent, called)
    requires TrialBooked(plan, cell, env(sequence, retry), j, waits, None, next)
    ensures Underway(env, sequence, retry + 1, next, spent, called) && next.spent <= plan.maxCost
  {
    var t := env(sequence, retry);
    assert called + (CalledFor(env, sequence, retry) + Names(t.calls))
           == (called + CalledFor(env, sequence, retry)) + Names(t.calls);
  }

  lemma HaltingTrial(plan: Plan, cell: Cell, env: (nat, nat) -> Trial, sequence: nat, retry: nat, j: Journal,
                     waits: bool, next: Journal, halt: Halt, spent: int, called: seq<string>)
    requires Underway(env, sequence, retry, j, spent, called) && retry < Trials(env, sequence, 0, plan.retries)
    requires TrialBooked(plan, cell, env(sequence, retry), j, waits, Some(halt), next)
    requires retry > 0 ==> waits && env(sequence, retry - 1).error.Some?
    ensures HaltedAt(plan, cell, env, sequence, retry, next, halt, spent, called, false)
  {
    assert HaltedIn(plan, cell, env, sequence, retry, next, halt, spent, called, waits, false);
  }

  /** One trial of a cell: the run halted at it, or the cell is one trial further. */
  lemma TrialInCell(plan: Plan, cell: Cell, env: (nat, nat) -> Trial, sequence: nat, retry: nat, j: Journal, spent: int,
                    called: seq<string>)
    requires retry <= plan.retries && Underway(env, sequence, retry, j, spent, called)
    requires retry < Trials(env, sequence, 0, plan.retries) && (retry > 0 ==> env(sequence, retry - 1).error.Some?)
    ensures var (halt, next) := Tried(plan, cell, retry, env(sequence, retry), j);
            SameRest(j, next)
            && if halt.Some? then HaltedAt(plan, cell, env, sequence, retry, next, halt.value, spent, called, false)
               else Underway(env, sequence, retry + 1, next, spent, called) && next.spent <= plan.maxCost
  {
    var t := env(sequence, retry);
    var (halt, next) := Tried(plan, cell, retry, t, j);
    var waits := Waits(plan, cell, retry, t, j);
    TriedBooks(plan, cell, retry, t, j);
    if halt.Some? {
      HaltingTrial(plan, cell, env, sequence, retry, j, waits, next, halt.value, spent, called);
    } else {
      NextTrial(plan, cell, env, sequence, retry, j, waits, next, spent, called);
    }
  }

  lemma {:induction false} RetriedBooks(plan: Plan, cell: Cell, env: (nat, nat) -> Trial, sequence: nat, retry: nat,
                                        j: Journal, spent: int, called: seq<string>)
    requires retry <= plan.retries && Underway(env, sequence, retry, j, spent, called)
    requires Trials(env, sequence, retry, plan.retries) == Trials(env, sequence, 0, plan.retries)
    requires retry > 0 ==> env(sequence, retry - 1).error.Some?
    ensures var (halt, next) := Retried(plan, cell, env, sequence, retry, j);
            var last := LastTrial(plan, cell, env, sequence, retry, j);
            SameRest(j, next)
            && (halt.None? ==>
                  last + 1 == Trials(env, sequence, 0, plan.retries)
                    && Underway(env, sequence, last + 1, next, spent, called) && next.spent <= plan.maxCost)
            && (halt.Some? ==> HaltedAt(plan, cell, env, sequence, last, next, halt.value, spent, called, false))
    decreases plan.retries - retry
  {
    var t := env(sequence, retry);
    var (halt, next) := Tried(plan, cell, retry, t, j);
    TrialInCell(plan, cell, env, sequence, retry, j, spent, called);
    if halt.None? && t.error.Some? && retry < plan.retries {
      RetriedBooks(plan, cell, env, sequence, retry + 1, next, spent, called);
    }
  }

  // ---------- The books of a run ----------

  /** Rows before the current one are settled as their cells came out, rows after it untouched. */
  ghost predicate RowsSettled(plan: Plan, env: (nat, nat) -> Trial, j: Journal) {
    j.sequence <= |j.results| == |Cells(plan)|
    && (forall k :: 0 <= k < j.sequence ==> j.results[k] == Outcome(env, k, plan.retries))
    && (forall k :: j.sequence < k < |j.results| ==> j.results[k] == RowPending)
  }

  /** The run stands between two cells: everything before is settled, paid once and logged. */
  ghost predicate Between(plan: Plan, env: (nat, nat) -> Trial, n: nat, j: Journal) {
    RowsSettled(plan, env, j) && j.sequence == n
    && j.spent == PaidThrough(env, n, plan.retries) && Channels(j.sends) == CalledThrough(env, n, plan.retries)
    && (n < |j.results| ==> j.results[n] == RowPending)
  }

  /** The run was halted in a cell. */
  ghost predicate Halted(plan: Plan, env: (nat, nat) -> Trial, at: nat, j: Journal, halt: Halt) {
    RowsSettled(plan, env, j) && j.sequence < |Cells(plan)|
    && HaltedAt(plan, Cells(plan)[j.sequence], env, j.sequence, at, j, halt,
                PaidThrough(env, j.sequence, plan.retries), CalledThrough(env, j.sequence, plan.retries), false)
  }

  lemma RowDone(plan: Plan, env: (nat, nat) -> Trial, n: nat, j: Journal, next: Journal)
    requires Between(plan, env, n, j) && SameRest(j, next) && n < |Cells(plan)|
    ensures RowsSettled(plan, env, next)
    ensures next.results[n] == Outcome(env, n, plan.retries) ==> RowsSettled(plan, env, next.(sequence := n + 1))
  {
  }

  lemma CellBooks(plan: Plan, cell: Cell, env: (nat, nat) -> Trial, n: nat, j: Journal)
    requires n < |Cells(plan)| && cell == Cells(plan)[n] && Between(plan, env, n, j)
    ensures var (halt, next) := CellDone(plan, cell, env, j);
            if halt.None? then Between(plan, env, n + 1, next)
            else Halted(plan, env, LastTrial(plan, cell, env, n, 0, j), next, halt.value)
  {
    var spent, called := PaidThrough(env, n, plan.retries), CalledThrough(env, n, plan.retries);
    assert called + [] == called;
    RetriedBooks(plan, cell, env, n, 0, j, spent, called);
    RowDone(plan, env, n, j, Retried(plan, cell, env, n, 0, j).1);
  }

  /** The trial a halted run stopped at, within its cell. */
  function StoppedAt(plan: Plan, env: (nat, nat) -> Trial, cells: seq<Cell>): nat {
    if cells == [] then 0
    else
      var (halt, j) := After(plan, env, cells[..|cells| - 1]);
      if halt.Some? then StoppedAt(plan, env, cells[..|cells| - 1])
      else LastTrial(plan, cells[|cells| - 1], env, j.sequence, 0, j)
  }

  lemma StartBooks(plan: Plan, env: (nat, nat) -> Trial)
    ensures Between(plan, env, 0, Start(plan))
  {
    assert Channels(Start(plan).sends) == [];
  }

  lemma {:induction false} RunBooks(plan: Plan, env: (nat, nat) -> Trial, cells: seq<Cell>)
    requires cells <= Cells(plan)
    ensures var (halt, j) := After(plan, env, cells);
            if halt.None? then Between(plan, env, |cells|, j)
            else Halted(plan, env, StoppedAt(plan, env, cells), j, halt.value)
  {
    if cells == [] {
      StartBooks(plan, env);
    } else {
      var n := |cells| - 1;
      RunBooks(plan, env, cells[..n]);
      var (halt, j) := After(plan, env, cells[..n]);
      if halt.None? {
        CellBooks(plan, cells[n], env, n, j);
      }
    }
  }

  /** The final sweep over the rows, and nothing else. */
  lemma ClosedHalt(plan: Plan, cell: Cell, env: (nat, nat) -> Trial, sequence: nat, at: nat, j: Journal, halt: Halt,
                   spent: int, called: seq<string>)
    requires HaltedAt(plan, cell, env, sequence, at, j, halt, spent, called, false)
    ensures HaltedAt(plan, cell, env, sequence, at, j.(results := ClosedRows(j.results)), halt, spent, called, true)
  {
    var waits :| HaltedIn(plan, cell, env, sequence, at, j, halt, spent, called, waits, false);
    assert HaltedIn(plan, cell, env, sequence, at, j.(results := ClosedRows(j.results)), halt, spent, called, waits,
                    true);
  }

  /** A halted run's books as the final sweep leaves them. */
  ghost predicate HaltAccounted(plan: Plan, env: (nat, nat) -> Trial, at: nat, j: Journal, halt: Halt) {
    j.sequence < |Cells(plan)| && (forall r :: 0 <= r < at ==> env(j.sequence, r).error.Some?)
    && HaltedAt(plan, Cells(plan)[j.sequence], env, j.sequence, at, j, halt,
                PaidThrough(env, j.sequence, plan.retries), CalledThrough(env, j.sequence, plan.retries), true)
  }

  lemma HaltCloses(plan: Plan, env: (nat, nat) -> Trial, at: nat, j: Journal, halt: Halt)
    requires Halted(plan, env, at, j, halt)
    ensures HaltAccounted(plan, env, at, j.(results := ClosedRows(j.results)), halt)
  {
    ClosedHalt(plan, Cells(plan)[j.sequence], env, j.sequence, at, j, halt,
               PaidThrough(env, j.sequence, plan.retries), CalledThrough(env, j.sequence, plan.retries));
    TrialsStopAtSuccess(env, j.sequence, 0, plan.retries);
  }

  lemma RowsClose(plan: Plan, env: (nat, nat) -> Trial, j: Journal)
    requires RowsSettled(plan, env, j)
    ensures var results := ClosedRows(j.results);
            && RowPending !in results && RowRunning !in results
            && (forall k :: 0 <= k < j.sequence ==> results[k] == Outcome(env, k, plan.retries))
            && (forall k :: j.sequence < k < |results| ==> results[k] == RowSkipped)
  {
  }

  /** The accounts of a finished run. A run that completes has settled every row as its trials came out,
      paid every trial once and logged every call. One that ends early was halted by a trial that ran: all
      trials of that cell before it had failed, and on top of what had been spent by then it ended the run as it
      did; row, money and log show exactly how far it got. */
  lemma RunIsAccounted(plan: Plan, env: (nat, nat) -> Trial) returns (at: nat)
    ensures var (halt, j) := Executed(plan, env);
            && j.sequence <= |j.results| == |Cells(plan)| && RowPending !in j.results && RowRunning !in j.results
            && (forall k :: 0 <= k < j.sequence ==> j.results[k] == Outcome(env, k, plan.retries))
            && (forall k :: j.sequence < k < |j.results| ==> j.results[k] == RowSkipped)
            && (halt.None? ==>
                  j.sequence == |Cells(plan)| && j.spent == PaidThrough(env, |Cells(plan)|, plan.retries)
                  && Channels(j.sends) == CalledThrough(env, |Cells(plan)|, plan.retries))
            && (halt.Some? ==> HaltAccounted(plan, env, at, j, halt.value))
  {
    RunBooks(plan, env, Cells(plan));
    at := StoppedAt(plan, env, Cells(plan));
    var (halt, j) := After(plan, env, Cells(plan));
    RowsClose(plan, env, j);
    if halt.Some? {
      HaltCloses(plan, env, at, j, halt.value);
    }
  }

  // ---------- What the pacer knows ----------

  /** When a channel was last called, if it was. */
  function LastSend(sends: seq<Send>, id: string): Option<int> {
    if sends == [] then None
    else
      var last := sends[|sends| - 1];
      if last.channel == id then Some(last.at) else LastSend(sends[..|sends| - 1], id)
  }

  ghost predicate PacerTells(j: Journal) {
    forall id :: LastSend(j.sends, id) == if id in j.pacer then Some(j.pacer[id]) else None
  }

  lemma {:induction false} RoutedTells(j: Journal, calls: seq<(string, nat)>)
    requires PacerTells(j)
    ensures PacerTells(Routed(j, calls))
  {
    if calls != [] {
      var front, last := calls[..|calls| - 1], calls[|calls| - 1];
      RoutedTells(j, front);
      var before := Routed(j, front);
      var next := Called(before, last.0, last.1);
      assert next.sends[..|before.sends|] == before.sends;
    }
  }

  lemma TriedTells(plan: Plan, cell: Cell, retry: nat, t: Trial, j: Journal)
    requires PacerTells(j)
    ensures PacerTells(Tried(plan, cell, retry, t, j).1)
  {
    RoutedTells(Marked(Waited(plan, cell, retry, t, j).1, RowRunning), t.calls);
  }

  lemma {:induction false} RetriedTells(plan: Plan, cell: Cell, env: (nat, nat) -> Trial, sequence: nat, retry: nat,
                                        j: Journal)
    requires retry <= plan.retries && PacerTells(j)
    ensures PacerTells(Retried(plan, cell, env, sequence, retry, j).1)
    decreases plan.retries - retry
  {
    var t := env(sequence, retry);
    var (halt, next) := Tried(plan, cell, retry, t, j);
    TriedTells(plan, cell, retry, t, j);
    if halt.None? && t.error.Some? && retry < plan.retries {
      RetriedTells(plan, cell, env, sequence, retry + 1, next);
    }
  }

  /** Wherever a run stands, its pacer holds the time of each channel's last call, and of no other. */
  lemma {:induction false} PacerIsLastSend(plan: Plan, env: (nat, nat) -> Trial, cells: seq<Cell>)
    ensures PacerTells(After(plan, env, cells).1)
  {
    if cells != [] {
      var front := cells[..|cells| - 1];
      PacerIsLastSend(plan, env, front);
      var (halt, j) := After(plan, env, front);
      if halt.None? {
        RetriedTells(plan, cells[|cells| - 1], env, j.sequence, 0, j);
      }
    }
  }
}
