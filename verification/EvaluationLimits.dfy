/** The limits an evaluation run keeps: its sends stay paced, so within each channel's RPM; its waiting stays
    within its cells' allowance; its spending stays within its budget. */
module EvaluationLimits {
  import opened Base
  import opened Counting
  import opened EvaluationPlan
  import opened EvaluationBudget
  import opened EvaluationSteps

  // ---------- Pacing ----------

  predicate SpacedFor(c: ModelChannel, earlier: Send, later: Send) {
    earlier.channel == later.channel == c.id ==> earlier.at + PacingInterval(c.rpm) <= later.at
  }

  /** Sends on one channel are at least its interval apart, and the pacer remembers the last of each. */
  ghost predicate Paced(plan: Plan, j: Journal) {
    (forall a, b, c | 0 <= a < b < |j.sends| && c in plan.channels :: SpacedFor(c, j.sends[a], j.sends[b]))
    && (forall a :: 0 <= a < |j.sends| ==>
          j.sends[a].channel in j.pacer && j.sends[a].at <= j.pacer[j.sends[a].channel])
    && PacerBehind(j)
  }

  ghost predicate PacerBehind(j: Journal) {
    forall id :: id in j.pacer ==> j.pacer[id] <= j.clock
  }

  ghost predicate Due(plan: Plan, id: string, j: Journal) {
    forall c :: c in plan.channels && c.id == id && id in j.pacer ==> j.pacer[id] + PacingInterval(c.rpm) <= j.clock
  }

  /** A call on a channel that is due keeps the pace. */
  lemma CallPaces(plan: Plan, j: Journal, id: string, after: nat)
    requires Paced(plan, j) && Due(plan, id, j)
    ensures Paced(plan, Called(j, id, after))
  {
    var next := Called(j, id, after);
    forall a, b, c | 0 <= a < b < |next.sends| && c in plan.channels
      ensures SpacedFor(c, next.sends[a], next.sends[b])
    {
      if b == |j.sends| && j.sends[a].channel == id {
        assert j.sends[a].at <= j.pacer[id];
      }
    }
  }

  /** Channels the calls do not use keep their place in the pacer. */
  lemma {:induction false} RoutedFrame(j: Journal, calls: seq<(string, nat)>, id: string)
    requires forall k :: 0 <= k < |calls| ==> calls[k].0 != id
    ensures var r := Routed(j, calls);
            j.clock <= r.clock && (id in r.pacer <==> id in j.pacer) && (id in j.pacer ==> r.pacer[id] == j.pacer[id])
  {
    if calls != [] {
      RoutedFrame(j, calls[..|calls| - 1], id);
    }
  }

  lemma {:induction false} CallsPace(plan: Plan, j: Journal, calls: seq<(string, nat)>)
    requires Paced(plan, j)
    requires forall i, k :: 0 <= i < k < |calls| ==> calls[i].0 != calls[k].0
    requires forall k :: 0 <= k < |calls| ==> Due(plan, calls[k].0, j)
    ensures Paced(plan, Routed(j, calls))
  {
    if calls != [] {
      var front, last := calls[..|calls| - 1], calls[|calls| - 1];
      CallsPace(plan, j, front);
      RoutedFrame(j, front, last.0);
      assert Due(plan, last.0, j);
      CallPaces(plan, Routed(j, front), last.0, last.1);
    }
  }

  /** Once every channel of the trial is due, so is each channel its calls may use. */
  lemma CallsAreDue(plan: Plan, cell: Cell, j: Journal, calls: seq<(string, nat)>, k: nat)
    requires DistinctIds(plan.channels) && CallsAllowed(plan, cell, calls) && k < |calls|
    requires AllDue(plan, cell.target, j.pacer, j.clock) && PacerBehind(j)
    ensures Due(plan, calls[k].0, j)
  {
    assert Reaches(plan, cell.target, calls[k].0);
    var c :| c in plan.channels && Routable(plan, cell.target, c) && c.id == calls[k].0;
    forall d | d in plan.channels && d.id == c.id && c.id in j.pacer
      ensures j.pacer[c.id] + PacingInterval(d.rpm) <= j.clock
    {
      assert d == c;
    }
  }

  /** Pace is a matter of sends, pacer and a clock that may move on. */
  lemma PaceRemains(plan: Plan, j: Journal, next: Journal)
    requires Paced(plan, j) && next.sends == j.sends && next.pacer == j.pacer && j.clock <= next.clock
    ensures Paced(plan, next)
  {
  }

  lemma WaitedPaces(plan: Plan, cell: Cell, retry: nat, t: Trial, j: Journal)
    requires Paced(plan, j)
    ensures var (halt, next) := Waited(plan, cell, retry, t, j);
            Paced(plan, next)
            && (halt.None? && !cell.sample.SkipsRouting() ==> AllDue(plan, cell.target, next.pacer, next.clock))
  {
    var next := Waited(plan, cell, retry, t, j).1;
    PaceRemains(plan, j, next);
    if !cell.sample.SkipsRouting() {
      DelayIsShortest(j.pacer, plan, cell.target, cell.sample, j.clock + t.idle, next.clock);
    }
  }

  lemma TrialCallsPace(plan: Plan, cell: Cell, calls: seq<(string, nat)>, j: Journal)
    requires Paced(plan, j) && DistinctIds(plan.channels) && CallsAllowed(plan, cell, calls)
    requires !cell.sample.SkipsRouting() ==> AllDue(plan, cell.target, j.pacer, j.clock)
    ensures Paced(plan, Routed(j, calls))
  {
    forall k | 0 <= k < |calls|
      ensures Due(plan, calls[k].0, j)
    {
      CallsAreDue(plan, cell, j, calls, k);
    }
    CallsPace(plan, j, calls);
  }

  lemma LaunchedPaces(plan: Plan, cell: Cell, t: Trial, j: Journal)
    requires Paced(plan, j) && DistinctIds(plan.channels) && CallsAllowed(plan, cell, t.calls)
    requires !cell.sample.SkipsRouting() ==> AllDue(plan, cell.target, j.pacer, j.clock)
    ensures Paced(plan, Launched(t, j).1)
  {
    if !t.progressFails {
      var marked := Marked(j, RowRunning);
      PaceRemains(plan, j, marked);
      TrialCallsPace(plan, cell, t.calls, marked);
      PaceRemains(plan, Routed(marked, t.calls), Launched(t, j).1);
    }
  }

  /** Recording moves neither clock nor pacer and sends nothing. */
  lemma RecordingIsQuiet(plan: Plan, t: Trial, j: Journal)
    ensures var next := Recorded(plan, t, j).1; (next.sends, next.pacer, next.clock) == (j.sends, j.pacer, j.clock)
  {
  }

  lemma LaunchedAndRecordedPaces(plan: Plan, cell: Cell, t: Trial, j: Journal)
    requires Paced(plan, j) && DistinctIds(plan.channels) && CallsAllowed(plan, cell, t.calls)
    requires !cell.sample.SkipsRouting() ==> AllDue(plan, cell.target, j.pacer, j.clock)
    ensures Paced(plan, LaunchedAndRecorded(plan, t, j).1)
  {
    var launched := Launched(t, j).1;
    LaunchedPaces(plan, cell, t, j);
    RecordingIsQuiet(plan, t, launched);
    PaceRemains(plan, launched, Recorded(plan, t, launched).1);
  }

  lemma PerformedPaces(plan: Plan, cell: Cell, retry: nat, t: Trial, j: Journal)
    requires Paced(plan, j) && DistinctIds(plan.channels) && CallsAllowed(plan, cell, t.calls)
    ensures Paced(plan, Performed(plan, cell, retry, t, j).1)
  {
    var (cut, waited) := Waited(plan, cell, retry, t, j);
    WaitedPaces(plan, cell, retry, t, j);
    if cut.None? {
      LaunchedAndRecordedPaces(plan, cell, t, waited);
    }
  }

  lemma TriedPaces(plan: Plan, cell: Cell, retry: nat, t: Trial, j: Journal)
    requires Paced(plan, j) && DistinctIds(plan.channels) && CallsAllowed(plan, cell, t.calls)
    ensures Paced(plan, Tried(plan, cell, retry, t, j).1)
  {
    PerformedPaces(plan, cell, retry, t, j);
  }

  lemma {:induction false} RetriedPaces(plan: Plan, cell: Cell, env: (nat, nat) -> Trial, sequence: nat, retry: nat,
                                        j: Journal)
    requires retry <= plan.retries && Paced(plan, j) && DistinctIds(plan.channels)
             && CallsFit(plan, cell, env, sequence)
    ensures Paced(plan, Retried(plan, cell, env, sequence, retry, j).1)
    decreases plan.retries - retry
  {
    var t := env(sequence, retry);
    var (halt, next) := Tried(plan, cell, retry, t, j);
    TriedPaces(plan, cell, retry, t, j);
    if halt.None? && t.error.Some? && retry < plan.retries {
      RetriedPaces(plan, cell, env, sequence, retry + 1, next);
    }
  }

  /** Every trial's routing and pricing behave as proved for them. */
  ghost predicate CallsFitAll(plan: Plan, env: (nat, nat) -> Trial) {
    forall q :: 0 <= q < |Cells(plan)| ==> CallsFit(plan, Cells(plan)[q], env, q)
  }

  ghost predicate CostsFitAll(plan: Plan, env: (nat, nat) -> Trial) {
    forall q :: 0 <= q < |Cells(plan)| ==> CostsFit(plan, Cells(plan)[q], env, q)
  }

  lemma {:induction false} RoutedKeepsRow(j: Journal, calls: seq<(string, nat)>)
    ensures var r := Routed(j, calls);
            r.sequence == j.sequence && r.waited == j.waited && r.spent == j.spent && j.clock <= r.clock
  {
    if calls != [] {
      RoutedKeepsRow(j, calls[..|calls| - 1]);
    }
  }

  lemma TriedKeepsRow(plan: Plan, cell: Cell, retry: nat, t: Trial, j: Journal)
    ensures Tried(plan, cell, retry, t, j).1.sequence == j.sequence
  {
    RoutedKeepsRow(Marked(Waited(plan, cell, retry, t, j).1, RowRunning), t.calls);
  }

  lemma {:induction false} RetriedKeepsRow(plan: Plan, cell: Cell, env: (nat, nat) -> Trial, sequence: nat,
                                           retry: nat, j: Journal)
    requires retry <= plan.retries
    ensures Retried(plan, cell, env, sequence, retry, j).1.sequence == j.sequence
    decreases plan.retries - retry
  {
    var t := env(sequence, retry);
    var (halt, next) := Tried(plan, cell, retry, t, j);
    TriedKeepsRow(plan, cell, retry, t, j);
    if halt.None? && t.error.Some? && retry < plan.retries {
      RetriedKeepsRow(plan, cell, env, sequence, retry + 1, next);
    }
  }

  lemma CellKeepsCount(plan: Plan, cell: Cell, env: (nat, nat) -> Trial, j: Journal)
    ensures var (halt, next) := CellDone(plan, cell, env, j); halt.None? ==> next.sequence == j.sequence + 1
  {
    RetriedKeepsRow(plan, cell, env, j.sequence, 0, j);
  }

  /** A run that goes on is at the row after its cells. */
  lemma {:induction false} RunAtRow(plan: Plan, env: (nat, nat) -> Trial, cells: seq<Cell>)
    ensures var (halt, j) := After(plan, env, cells); halt.None? ==> j.sequence == |cells|
  {
    if cells != [] {
      var n := |cells| - 1;
      RunAtRow(plan, env, cells[..n]);
      CellKeepsCount(plan, cells[n], env, After(plan, env, cells[..n]).1);
    }
  }

  lemma CellPaces(plan: Plan, cell: Cell, env: (nat, nat) -> Trial, j: Journal)
    requires Paced(plan, j) && DistinctIds(plan.channels) && CallsFit(plan, cell, env, j.sequence)
    ensures Paced(plan, CellDone(plan, cell, env, j).1)
  {
    RetriedPaces(plan, cell, env, j.sequence, 0, j);
  }

  lemma {:induction false} RunPaces(plan: Plan, env: (nat, nat) -> Trial, cells: seq<Cell>)
    requires DistinctIds(plan.channels) && forall q :: 0 <= q < |cells| ==> CallsFit(plan, cells[q], env, q)
    ensures Paced(plan, After(plan, env, cells).1)
  {
    if cells != [] {
      var n := |cells| - 1;
      RunPaces(plan, env, cells[..n]);
      RunAtRow(plan, env, cells[..n]);
      var (halt, j) := After(plan, env, cells[..n]);
      if halt.None? {
        CellPaces(plan, cells[n], env, j);
      }
    }
  }

  /** Consecutive calls on a channel, whatever trials they belong to, start at least its interval apart. */
  lemma SendsStayPaced(plan: Plan, env: (nat, nat) -> Trial)
    requires DistinctIds(plan.channels) && CallsFitAll(plan, env)
    ensures Paced(plan, Executed(plan, env).1)
  {
    RunPaces(plan, env, Cells(plan));
  }

  // ---------- Sends in a minute ----------

  /** A send on the channel within the minute that starts at a given time. */
  function InMinute(id: string, start: int): Send -> bool {
    (send: Send) => send.channel == id && start <= send.at < start + MINUTE
  }

  /** The time k intervals take. */
  function Laps(k: int, interval: int): int {
    if k <= 0 then 0 else Laps(k - 1, interval) + interval
  }

  lemma {:induction false} LapsProduct(k: nat, interval: int)
    ensures Laps(k, interval) == k * interval
  {
    if k > 0 {
      LapsProduct(k - 1, interval);
      assert (k - 1) * interval + interval == k * interval;
    }
  }

  /** The last of k sends inside a minute lies k - 1 intervals after its start. */
  lemma {:induction false} SpacedOut(sends: seq<Send>, id: string, start: int, interval: int) returns (last: nat)
    requires 0 <= interval && Count(sends, InMinute(id, start)) > 0
    requires forall i, j :: 0 <= i < j < |sends| && sends[i].channel == sends[j].channel == id ==>
      sends[i].at + interval <= sends[j].at
    ensures last < |sends| && InMinute(id, start)(sends[last])
    ensures sends[last].at >= start + Laps(Count(sends, InMinute(id, start)) - 1, interval)
  {
    var front, n := sends[..|sends| - 1], |sends| - 1;
    assert sends == front + [sends[n]];
    CountLast(front, sends[n], InMinute(id, start));
    if Count(front, InMinute(id, start)) > 0 {
      last := SpacedOut(front, id, start, interval);
      if InMinute(id, start)(sends[n]) {
        last := n;
      }
    } else {
      CountBounds(front, InMinute(id, start));
      last := n;
    }
  }

  /** A run alone never puts more calls on a channel than its RPM allows in any minute. */
  lemma RunWithinRpm(plan: Plan, env: (nat, nat) -> Trial, c: ModelChannel, start: int)
    requires DistinctIds(plan.channels) && CallsFitAll(plan, env) && c in plan.channels && 0 < c.rpm
    ensures Count(Executed(plan, env).1.sends, InMinute(c.id, start)) <= c.rpm
  {
    SendsStayPaced(plan, env);
    var sends := Executed(plan, env).1.sends;
    var k, d := Count(sends, InMinute(c.id, start)), PacingInterval(c.rpm);
    if k > 0 {
      var last := SpacedOut(sends, c.id, start, d);
      LapsProduct(k - 1, d);
      CancelFactor(k - 1, c.rpm, d);
    }
  }

  lemma CancelFactor(a: int, b: int, d: int)
    requires 0 <= d && a * d < b * d
    ensures a < b
  {
    if b <= a {
      ScaleUp(b, a, d);
    }
  }

  // ---------- Waiting ----------

  /** The pause before a retry: as many seconds as retries so far. */
  function Pause(retry: nat): (p: int)
    ensures 0 <= p
  {
    if retry == 0 then 0 else Pause(retry - 1) + SECOND
  }

  lemma {:induction false} PauseInSeconds(retry: nat)
    ensures Pause(retry) == retry * SECOND
  {
    if retry > 0 {
      PauseInSeconds(retry - 1);
    }
  }

  /** The waiting the first trials of a cell may cost: an interval and a pause each. */
  function WaitAllowance(interval: int, trials: nat): int {
    if trials == 0 then 0 else WaitAllowance(interval, trials - 1) + interval + Pause(trials - 1)
  }

  lemma {:induction false} AllowanceGrows(interval: int, i: nat, j: nat)
    requires 0 <= interval && i <= j
    ensures 0 <= WaitAllowance(interval, i) <= WaitAllowance(interval, j)
    decreases j
  {
    if j > 0 {
      PauseInSeconds(j - 1);
      AllowanceGrows(interval, if i < j then i else j - 1, j - 1);
    }
  }

  /** The waiting a cell may cost. */
  function CellAllowance(plan: Plan): Cell -> int {
    (cell: Cell) => WaitAllowance(LongestInterval(plan, cell.target), plan.retries + 1)
  }

  /** A trial waits at most one interval and its pause, since the pacer never runs ahead of the clock. */
  lemma WaitedBound(plan: Plan, cell: Cell, retry: nat, t: Trial, j: Journal)
    requires PacerBehind(j)
    ensures var next := Waited(plan, cell, retry, t, j).1;
            PacerBehind(next) && j.waited <= next.waited <= j.waited + LongestInterval(plan, cell.target) + Pause(retry)
  {
    PauseInSeconds(retry);
    if !cell.sample.SkipsRouting() {
      var now := j.clock + t.idle;
      DelayIsShortest(j.pacer, plan, cell.target, cell.sample, now, now + LongestInterval(plan, cell.target));
    }
  }

  lemma {:induction false} RoutedStaysBehind(j: Journal, calls: seq<(string, nat)>)
    requires PacerBehind(j)
    ensures PacerBehind(Routed(j, calls))
  {
    if calls != [] {
      RoutedStaysBehind(j, calls[..|calls| - 1]);
    }
  }

  lemma TriedWaits(plan: Plan, cell: Cell, retry: nat, t: Trial, j: Journal)
    requires PacerBehind(j)
    ensures var next := Tried(plan, cell, retry, t, j).1;
            PacerBehind(next) && j.waited <= next.waited <= j.waited + LongestInterval(plan, cell.target) + Pause(retry)
  {
    var (_, waited) := Waited(plan, cell, retry, t, j);
    WaitedBound(plan, cell, retry, t, j);
    RoutedStaysBehind(Marked(waited, RowRunning), t.calls);
    RoutedKeepsRow(Marked(waited, RowRunning), t.calls);
  }

  lemma {:induction false} RetriedWaits(plan: Plan, cell: Cell, env: (nat, nat) -> Trial, sequence: nat, retry: nat,
                                        j: Journal, longest: int, start: int)
    requires retry <= plan.retries && PacerBehind(j) && longest == LongestInterval(plan, cell.target)
    requires start <= j.waited <= start + WaitAllowance(longest, retry)
    ensures var next := Retried(plan, cell, env, sequence, retry, j).1;
            PacerBehind(next) && start <= next.waited <= start + WaitAllowance(longest, plan.retries + 1)
    decreases plan.retries - retry
  {
    var t := env(sequence, retry);
    var (halt, next) := Tried(plan, cell, retry, t, j);
    TriedWaits(plan, cell, retry, t, j);
    AllowanceGrows(longest, retry + 1, plan.retries + 1);
    if halt.None? && t.error.Some? && retry < plan.retries {
      RetriedWaits(plan, cell, env, sequence, retry + 1, next, longest, start);
    }
  }

  lemma CellWaits(plan: Plan, cell: Cell, env: (nat, nat) -> Trial, j: Journal)
    requires PacerBehind(j)
    ensures var next := CellDone(plan, cell, env, j).1;
            PacerBehind(next) && j.waited <= next.waited <= j.waited + CellAllowance(plan)(cell)
  {
    RetriedWaits(plan, cell, env, j.sequence, 0, j, LongestInterval(plan, cell.target), j.waited);
  }

  lemma AllowanceNonNegative(plan: Plan, cell: Cell)
    ensures 0 <= CellAllowance(plan)(cell)
  {
    AllowanceGrows(LongestInterval(plan, cell.target), 0, plan.retries + 1);
  }

  lemma {:induction false} RunWaits(plan: Plan, env: (nat, nat) -> Trial, cells: seq<Cell>)
    ensures var j := After(plan, env, cells).1;
            PacerBehind(j) && 0 <= j.waited <= Sum(cells, CellAllowance(plan))
  {
    if cells != [] {
      var n := |cells| - 1;
      RunWaits(plan, env, cells[..n]);
      CellWaits(plan, cells[n], env, After(plan, env, cells[..n]).1);
      AllowanceNonNegative(plan, cells[n]);
    }
  }

  /** However a run goes, its waiting stays within its cells' allowance. */
  lemma WaitingFits(plan: Plan, env: (nat, nat) -> Trial)
    ensures 0 <= Executed(plan, env).1.waited <= Sum(Cells(plan), CellAllowance(plan))
  {
    RunWaits(plan, env, Cells(plan));
  }

  // ---------- Spending ----------

  lemma TriedSpends(plan: Plan, cell: Cell, retry: nat, t: Trial, j: Journal)
    requires CostWithinEstimate(plan, cell, t) && j.spent <= plan.maxCost
    ensures Tried(plan, cell, retry, t, j).1.spent <= plan.maxCost
  {
    RoutedKeepsRow(Marked(Waited(plan, cell, retry, t, j).1, RowRunning), t.calls);
  }

  lemma {:induction false} RetriedSpends(plan: Plan, cell: Cell, env: (nat, nat) -> Trial, sequence: nat, retry: nat,
                                         j: Journal)
    requires retry <= plan.retries && CostsFit(plan, cell, env, sequence) && j.spent <= plan.maxCost
    ensures Retried(plan, cell, env, sequence, retry, j).1.spent <= plan.maxCost
    decreases plan.retries - retry
  {
    var t := env(sequence, retry);
    var (halt, next) := Tried(plan, cell, retry, t, j);
    TriedSpends(plan, cell, retry, t, j);
    if halt.None? && t.error.Some? && retry < plan.retries {
      RetriedSpends(plan, cell, env, sequence, retry + 1, next);
    }
  }

  lemma CellSpends(plan: Plan, cell: Cell, env: (nat, nat) -> Trial, j: Journal)
    requires CostsFit(plan, cell, env, j.sequence) && j.spent <= plan.maxCost
    ensures CellDone(plan, cell, env, j).1.spent <= plan.maxCost
  {
    RetriedSpends(plan, cell, env, j.sequence, 0, j);
  }

  lemma {:induction false} RunSpends(plan: Plan, env: (nat, nat) -> Trial, cells: seq<Cell>)
    requires 0 <= plan.maxCost && forall q :: 0 <= q < |cells| ==> CostsFit(plan, cells[q], env, q)
    ensures After(plan, env, cells).1.spent <= plan.maxCost
  {
    if cells != [] {
      var n := |cells| - 1;
      RunSpends(plan, env, cells[..n]);
      RunAtRow(plan, env, cells[..n]);
      var (halt, j) := After(plan, env, cells[..n]);
      if halt.None? {
        CellSpends(plan, cells[n], env, j);
      }
    }
  }

  /** Spending never exceeds the budget while every trial keeps to its estimate. */
  lemma BudgetKept(plan: Plan, env: (nat, nat) -> Trial)
    requires 0 <= plan.maxCost && CostsFitAll(plan, env)
    ensures Executed(plan, env).1.spent <= plan.maxCost
  {
    RunSpends(plan, env, Cells(plan));
  }
}
