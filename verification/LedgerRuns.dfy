/** Runs of the ledger: any interleaving of the atomic steps of any number of requests, sweeps,
    administrators and budget edits. */
module LedgerRuns {
  import opened Base
  import opened Counting
  import opened UsageReports
  import opened Ledger
  import Pricing
  import Money

  /** What a caller holds after a reservation: the entry, and the allowance it was priced for. */
  datatype Issue = Issue(entry: Entry, input: nat, maxTokens: int)

  datatype World = World(books: Books, issued: map<string, Issue>)

  datatype Step =
    | ReserveStep(r: Request)
    | SettleStep(id: string, usage: Usage, end: int)
    | ReconcileStep(id: string, text: string, reasonGiven: bool)
    | SweepStep(now: int)
    | BudgetStep(e: Edit)

  function Next(w: World, cal: Calendar, s: Step): World {
    match s
    case ReserveStep(r) =>
      var (books, result) := Reserve(w.books, cal, r);
      World(books, if result.Success? then w.issued[r.id := Issue(result.value, r.input, r.maxTokens)] else w.issued)
    case SettleStep(id, usage, end) =>
      if id in w.issued then w.(books := Settle(w.books, cal, w.issued[id].entry, usage, end)) else w
    case ReconcileStep(id, text, reasonGiven) =>
      w.(books := Reconcile(w.books, id, text, reasonGiven).0)
    case SweepStep(now) =>
      w.(books := w.books.(rows := Swept(w.books.rows, now)))
    case BudgetStep(e) =>
      w.(books := Save(w.books, e).0)
  }

  function Run(w: World, cal: Calendar, steps: seq<Step>): World {
    if steps == [] then w else Next(Run(w, cal, steps[..|steps| - 1]), cal, steps[|steps| - 1])
  }

  /** Prices come from the store validated (billing.go:73). */
  predicate Sane(s: Step) {
    s.ReserveStep? && s.r.price.Some? ==> s.r.price.value.Valid()
  }

  /** A row agrees with the entry its caller holds, and its amount with its status. */
  predicate RowOk(r: Row, issue: Issue) {
    var e := issue.entry;
    (e.id, e.client, e.kind, e.price, e.startedAt, e.reserved)
      == (r.id, r.client, r.kind, r.price, r.startedAt, r.reserved)
    && 0 <= r.reserved
    && (e.cacheHit <==> r.status == LocalCache)
    && (r.amount.None? <==> r.status == Reserved || r.status == Pending)
    && (r.status == LocalCache || r.status == Zero ==> r.amount == Some(0))
    && (r.valid && !e.cacheHit ==>
          r.price.Some? && r.price.value.Valid()
          && Pricing.Reservation(r.price.value, issue.input, issue.maxTokens) == Success(r.reserved))
  }

  ghost predicate WellKept(w: World) {
    var rows := w.books.rows;
    (forall id :: id in w.issued ==> w.issued[id].entry.id == id)
    && (forall i :: 0 <= i < |rows| ==> rows[i].id in w.issued && RowOk(rows[i], w.issued[rows[i].id]))
    && (forall i, j :: 0 <= i < j < |rows| ==> rows[i].id != rows[j].id)
  }

  lemma ChargeShape(e: Entry, cal: Calendar, u: Usage, end: int)
    ensures var (amount, status) := Charge(e, cal, u, end);
            (amount.None? <==> status == Pending) && (status == LocalCache <==> e.cacheHit)
            && status != Reserved && status != Reconciled
            && (status == LocalCache || status == Zero ==> amount == Some(0))
            && (!e.cacheHit && u.attempted && !u.reported ==> status == Pending)
  {
    if e.price.Some? {
      Pricing.UnreportedStaysPending(e.price.value, u, cal.period(e.startedAt), cal.period(end));
    }
  }

  /** Replacing one row by another that still fits its entry keeps the books in order. */
  lemma RowReplaced(w: World, i: nat, row: Row)
    requires WellKept(w) && i < |w.books.rows| && row.id == w.books.rows[i].id
    requires RowOk(row, w.issued[row.id])
    ensures WellKept(w.(books := w.books.(rows := w.books.rows[i := row])))
  {
  }

  lemma NewRowFits(r: Request, date: Date)
    requires Sane(ReserveStep(r)) && ReservedAmount(r).Success?
    ensures RowOk(NewRow(r, date, ReservedAmount(r).value),
                  Issue(EntryOf(r, ReservedAmount(r).value), r.input, r.maxTokens))
  {
    if r.price.Some? && !r.cached && r.images == 0 {
      ReservationNonNegative(r.price.value, r.input, r.maxTokens);
    }
  }

  lemma ReservationNonNegative(rates: Pricing.PriceRates, input: nat, maxTokens: int)
    requires rates.Valid() && Pricing.Reservation(rates, input, maxTokens).Success?
    ensures 0 <= Pricing.Reservation(rates, input, maxTokens).value
  {
    var none := Usage(0, 0, 0, None, None, 0, true, true);
    Pricing.CalculateWithinReservation(rates, none, input, maxTokens, Pricing.Peak, Pricing.Peak);
  }

  lemma ReserveKeepsBooks(w: World, cal: Calendar, r: Request)
    requires WellKept(w) && Sane(ReserveStep(r))
    ensures WellKept(Next(w, cal, ReserveStep(r)))
  {
    var (books, result) := Reserve(w.books, cal, r);
    if result.Success? {
      NewRowFits(r, cal.date(r.at));
      var next := Next(w, cal, ReserveStep(r));
      assert next.books.rows == w.books.rows + [NewRow(r, cal.date(r.at), ReservedAmount(r).value)];
      assert forall i :: 0 <= i < |w.books.rows| ==> w.books.rows[i].id != r.id;
    }
  }

  lemma SettleKeepsBooks(w: World, cal: Calendar, id: string, u: Usage, end: int)
    requires WellKept(w)
    ensures WellKept(Next(w, cal, SettleStep(id, u, end)))
  {
    if id in w.issued {
      var e := w.issued[id].entry;
      var i := Find(w.books.rows, id);
      if i < |w.books.rows| && Open(w.books.rows[i].status) {
        var (amount, status) := Charge(e, cal, u, end);
        ChargeShape(e, cal, u, end);
        RowReplaced(w, i, w.books.rows[i].(amount := amount, status := status));
      }
    }
  }

  lemma ReconcileKeepsBooks(w: World, cal: Calendar, id: string, text: string, reasonGiven: bool)
    requires WellKept(w)
    ensures WellKept(Next(w, cal, ReconcileStep(id, text, reasonGiven)))
  {
    var i := Find(w.books.rows, id);
    var amount := Money.ParseCNY(text);
    if Reconcile(w.books, id, text, reasonGiven).1.None? {
      RowReplaced(w, i, w.books.rows[i].(amount := Some(amount.value), status := Reconciled));
    }
  }

  /** Every step, by whomever, keeps the books in order. */
  lemma StepKeepsBooks(w: World, cal: Calendar, s: Step)
    requires WellKept(w) && Sane(s)
    ensures WellKept(Next(w, cal, s))
  {
    match s
    case ReserveStep(r) => ReserveKeepsBooks(w, cal, r);
    case SettleStep(id, usage, end) => SettleKeepsBooks(w, cal, id, usage, end);
    case ReconcileStep(id, text, reasonGiven) => ReconcileKeepsBooks(w, cal, id, text, reasonGiven);
    case SweepStep(now) =>
    case BudgetStep(_) =>
  }

  /** In every reachable state, rows agree with their entries and amounts with statuses. */
  lemma {:induction false} BooksStayInOrder(w: World, cal: Calendar, steps: seq<Step>)
    requires WellKept(w) && forall k :: 0 <= k < |steps| ==> Sane(steps[k])
    ensures WellKept(Run(w, cal, steps))
  {
    if steps != [] {
      var front := steps[..|steps| - 1];
      BooksStayInOrder(w, cal, front);
      StepKeepsBooks(Run(w, cal, front), cal, steps[|steps| - 1]);
    }
  }

  // ---------- Budgets ----------

  /** The amount of one row fits what the client's other calls of its day and of its month leave free. */
  ghost predicate Fits(b: Books, r: Row, amount: int, client: string, month: int) {
    var limit := LimitOf(b, client);
    (limit.month.Some? ==> amount <= limit.month.value - (MonthUsed(b.rows, client, month) - Exposure(r)))
    && (limit.day.Some? ==> amount <= limit.day.value - (DayUsed(b.rows, client, r.date) - Exposure(r)))
  }

  /** A reconciliation is refused, concerns another client or month, or its amount fits. */
  ghost predicate ReconcileFits(b: Books, id: string, text: string, reasonGiven: bool, client: string, month: int) {
    Reconcile(b, id, text, reasonGiven).1.None? ==>
      var r := b.rows[Find(b.rows, id)];
      Budgeted(r, client, month) ==> Fits(b, r, Money.ParseCNY(text).value, client, month)
  }

  /** An edit is refused, concerns another client, or sets limits that what was used so far keeps. */
  ghost predicate EditFits(b: Books, e: Edit, client: string, month: int) {
    var (after, refused) := Save(b, e);
    refused.None? && e.client == client ==>
      var limit := LimitOf(after, client);
      (limit.day.Some? || limit.month.Some?) && WithinLimits(b, limit, client, month)
  }

  /** The assumptions under which a client's budget for a month is a promise: an edit of it does not undercut
      what was used, a call stays within the allowance it was reserved for, and a reconciled amount fits what
      the other calls leave free. */
  ghost predicate Steady(w: World, s: Step, client: string, month: int) {
    match s
    case ReserveStep(r) => Sane(s)
    case SettleStep(id, u, end) =>
      id in w.issued && w.issued[id].entry.client == client && u.attempted ==>
        AddsUp(u) && u.prompt <= w.issued[id].input && u.completion <= w.issued[id].maxTokens
    case ReconcileStep(id, text, reasonGiven) =>
      ReconcileFits(w.books, id, text, reasonGiven, client, month)
    case SweepStep(_) => true
    case BudgetStep(e) => EditFits(w.books, e, client, month)
  }

  ghost predicate SteadyRun(w: World, cal: Calendar, steps: seq<Step>, client: string, month: int) {
    forall k :: 0 <= k < |steps| ==> Steady(Run(w, cal, steps[..k]), steps[k], client, month)
  }

  ghost predicate WithinLimits(b: Books, limit: Budget, client: string, month: int) {
    (limit.month.Some? ==> MonthUsed(b.rows, client, month) <= limit.month.value)
    && (limit.day.Some? ==> forall day :: DayUsed(b.rows, client, Date(month, day)) <= limit.day.value)
  }

  ghost predicate WithinBudget(b: Books, client: string, month: int) {
    WithinLimits(b, LimitOf(b, client), client, month)
  }

  /** The client has a budget, keeps within it, and those of its calls of the month that can still be settled
      could be priced. */
  ghost predicate BudgetKept(b: Books, client: string, month: int) {
    var limit := LimitOf(b, client);
    (limit.day.Some? || limit.month.Some?)
    && WithinBudget(b, client, month)
    && forall i :: 0 <= i < |b.rows| && Budgeted(b.rows[i], client, month) && Open(b.rows[i].status) ==> b.rows[i].valid
  }

  /** Row by row the same call, exposed no more than before. */
  ghost predicate Lowered(before: seq<Row>, after: seq<Row>, client: string, month: int) {
    |before| == |after|
    && forall i :: 0 <= i < |before| ==>
         var (r, r') := (before[i], after[i]);
         (r'.client, r'.kind, r'.date, r'.valid) == (r.client, r.kind, r.date, r.valid)
         && (Open(r'.status) ==> Open(r.status))
         && (Budgeted(r, client, month) ==> Exposure(r') <= Exposure(r))
  }

  lemma LoweredKeepsBudget(b: Books, rows: seq<Row>, client: string, month: int)
    requires BudgetKept(b, client, month) && Lowered(b.rows, rows, client, month)
    ensures BudgetKept(b.(rows := rows), client, month)
  {
    SumPointwise(rows, b.rows, MonthExposure(client, month));
    forall day
      ensures DayUsed(rows, client, Date(month, day)) <= DayUsed(b.rows, client, Date(month, day))
    {
      SumPointwise(rows, b.rows, DayExposure(client, Date(month, day)));
    }
  }

  /** The pricing bound at work: a settlement within the allowance never raises a row's exposure. */
  lemma ChargeWithinReservation(r: Row, issue: Issue, cal: Calendar, u: Usage, end: int)
    requires RowOk(r, issue) && r.valid && Open(r.status)
    requires u.attempted ==> AddsUp(u) && u.prompt <= issue.input && u.completion <= issue.maxTokens
    ensures var (amount, _) := Charge(issue.entry, cal, u, end);
            amount.Some? ==> amount.value <= Exposure(r)
  {
    var e := issue.entry;
    if !e.cacheHit && u.attempted {
      Pricing.CalculateWithinReservation(e.price.value, u, issue.input, issue.maxTokens,
                                         cal.period(e.startedAt), cal.period(end));
    }
  }

  lemma ReserveKeepsBudget(b: Books, cal: Calendar, r: Request, client: string, month: int)
    requires BudgetKept(b, client, month)
    ensures BudgetKept(Reserve(b, cal, r).0, client, month)
  {
    var (books, result) := Reserve(b, cal, r);
    if result.Success? {
      var date := cal.date(r.at);
      var row := NewRow(r, date, ReservedAmount(r).value);
      SumLast(b.rows, row, MonthExposure(client, month));
      forall day
        ensures DayUsed(books.rows, client, Date(month, day))
                == DayUsed(b.rows, client, Date(month, day))
                   + DayExposure(client, Date(month, day))(row)
      {
        SumLast(b.rows, row, DayExposure(client, Date(month, day)));
      }
    }
  }

  lemma SettleKeepsBudget(w: World, cal: Calendar, id: string, u: Usage, end: int, client: string, month: int)
    requires WellKept(w) && BudgetKept(w.books, client, month)
    requires Steady(w, SettleStep(id, u, end), client, month)
    ensures BudgetKept(Next(w, cal, SettleStep(id, u, end)).books, client, month)
  {
    if id in w.issued {
      var i := Find(w.books.rows, id);
      if i < |w.books.rows| && Open(w.books.rows[i].status) && Budgeted(w.books.rows[i], client, month) {
        ChargeWithinReservation(w.books.rows[i], w.issued[id], cal, u, end);
        ChargeShape(w.issued[id].entry, cal, u, end);
      }
      LoweredKeepsBudget(w.books, Settle(w.books, cal, w.issued[id].entry, u, end).rows, client, month);
    }
  }

  /** A day's and the month's exposure after one budgeted row took another amount. */
  lemma AmountReplaced(rows: seq<Row>, i: nat, r: Row, client: string, month: int)
    requires i < |rows| && Budgeted(rows[i], client, month) && r.amount.Some?
    requires r == rows[i].(amount := r.amount, status := r.status)
    ensures MonthUsed(rows[i := r], client, month)
            == MonthUsed(rows, client, month) - Exposure(rows[i]) + r.amount.value
    ensures forall day ::
      DayUsed(rows[i := r], client, Date(month, day))
      == DayUsed(rows, client, Date(month, day))
         + if rows[i].date == Date(month, day) then r.amount.value - Exposure(rows[i]) else 0
  {
    SumUpdate(rows, i, r, MonthExposure(client, month));
    forall day
      ensures DayUsed(rows[i := r], client, Date(month, day))
              == DayUsed(rows, client, Date(month, day))
                 + if rows[i].date == Date(month, day) then r.amount.value - Exposure(rows[i]) else 0
    {
      SumUpdate(rows, i, r, DayExposure(client, Date(month, day)));
    }
  }

  /** A reconciliation may raise a row's exposure: a budget that was kept survives it if and only if the
      billed amount fits what the other calls of the row's day and month leave of both limits. */
  lemma ReconcileEffect(b: Books, id: string, text: string, client: string, month: int)
    requires Reconcile(b, id, text, true).1.None? && Budgeted(b.rows[Find(b.rows, id)], client, month)
    requires WithinBudget(b, client, month)
    ensures WithinBudget(Reconcile(b, id, text, true).0, client, month)
            <==> Fits(b, b.rows[Find(b.rows, id)], Money.ParseCNY(text).value, client, month)
  {
    var i := Find(b.rows, id);
    var r, after := b.rows[i], Reconcile(b, id, text, true).0;
    AmountReplaced(b.rows, i, after.rows[i], client, month);
    assert after.rows == b.rows[i := after.rows[i]] && LimitOf(after, client) == LimitOf(b, client);
    var limit := LimitOf(b, client);
    if limit.day.Some? && WithinBudget(after, client, month) {
      assert DayUsed(after.rows, client, Date(month, r.date.day)) <= limit.day.value;
    }
  }

  lemma ReconcileKeepsBudget(b: Books, id: string, text: string, reasonGiven: bool, client: string, month: int)
    requires BudgetKept(b, client, month) && ReconcileFits(b, id, text, reasonGiven, client, month)
    ensures BudgetKept(Reconcile(b, id, text, reasonGiven).0, client, month)
  {
    var after, i := Reconcile(b, id, text, reasonGiven).0, Find(b.rows, id);
    if Reconcile(b, id, text, reasonGiven).1.None? {
      if Budgeted(b.rows[i], client, month) {
        ReconcileEffect(b, id, text, client, month);
      } else {
        LoweredKeepsBudget(b, after.rows, client, month);
      }
    }
  }

  lemma StepKeepsBudget(w: World, cal: Calendar, s: Step, client: string, month: int)
    requires WellKept(w) && BudgetKept(w.books, client, month) && Steady(w, s, client, month)
    ensures BudgetKept(Next(w, cal, s).books, client, month)
  {
    match s
    case ReserveStep(r) => ReserveKeepsBudget(w.books, cal, r, client, month);
    case SettleStep(id, u, end) => SettleKeepsBudget(w, cal, id, u, end, client, month);
    case ReconcileStep(id, text, reasonGiven) =>
      ReconcileKeepsBudget(w.books, id, text, reasonGiven, client, month);
    case SweepStep(now) => LoweredKeepsBudget(w.books, Swept(w.books.rows, now), client, month);
    case BudgetStep(_) =>
  }

  /** The budget theorem: however reservations, settlements, sweeps and reconciliations of all clients
      interleave, the exposure of each day and of the month stays within the limits in every reachable
      state. */
  lemma {:induction false} BudgetsHold(w: World, cal: Calendar, steps: seq<Step>, client: string, month: int)
    requires WellKept(w) && BudgetKept(w.books, client, month) && SteadyRun(w, cal, steps, client, month)
    requires forall k :: 0 <= k < |steps| ==> Sane(steps[k])
    ensures BudgetKept(Run(w, cal, steps).books, client, month)
  {
    if steps != [] {
      var last := |steps| - 1;
      var front := steps[..last];
      assert forall k :: 0 <= k < last ==> front[..k] == steps[..k];
      BudgetsHold(w, cal, front, client, month);
      BooksStayInOrder(w, cal, front);
      StepKeepsBudget(Run(w, cal, front), cal, steps[last], client, month);
    }
  }

  /** The month begins in the invariant: no calls yet and a non-negative budget in force. */
  lemma MonthBegins(b: Books, client: string, month: int)
    requires forall i :: 0 <= i < |b.rows| ==> !Budgeted(b.rows[i], client, month)
    requires var limit := LimitOf(b, client);
             (limit.day.Some? || limit.month.Some?)
             && (limit.day.Some? ==> limit.day.value >= 0) && (limit.month.Some? ==> limit.month.value >= 0)
    ensures BudgetKept(b, client, month)
  {
    SumOfNothing(b.rows, MonthExposure(client, month));
    forall day
      ensures DayUsed(b.rows, client, Date(month, day)) == 0
    {
      SumOfNothing(b.rows, DayExposure(client, Date(month, day)));
    }
  }

  lemma {:induction false} SumOfNothing(rows: seq<Row>, f: Row -> int)
    requires forall i :: 0 <= i < |rows| ==> f(rows[i]) == 0
    ensures Sum(rows, f) == 0
  {
    if rows != [] {
      SumOfNothing(rows[..|rows| - 1], f);
    }
  }

  // ---------- The life of one row ----------

  /** Progress of a row: open, provisionally charged, finally charged. */
  function Rank(s: Status): nat {
    match s
    case Reserved => 0
    case Pending => 1
    case Estimated => 1
    case _ => 2
  }

  /** The row keeps its charge, or another charge moves it strictly forward. */
  predicate Forward(r: Row, r': Row) {
    r' == r || (Rank(r.status) < Rank(r'.status) && r' == r.(amount := r'.amount, status := r'.status))
  }

  lemma SettleMovesForward(w: World, cal: Calendar, id: string, u: Usage, end: int, i: nat)
    requires WellKept(w) && i < |w.books.rows| && id in w.issued
    ensures var rows := Settle(w.books, cal, w.issued[id].entry, u, end).rows;
            i < |rows| && Forward(w.books.rows[i], rows[i])
  {
    assert RowOk(w.books.rows[i], w.issued[w.books.rows[i].id]);
    ChargeShape(w.issued[id].entry, cal, u, end);
  }

  /** Rows are never removed or reordered, and each step either leaves a row's charge alone or moves
      the row strictly forward. */
  lemma StepMovesForward(w: World, cal: Calendar, s: Step, i: nat)
    requires WellKept(w) && i < |w.books.rows|
    ensures i < |Next(w, cal, s).books.rows| && Forward(w.books.rows[i], Next(w, cal, s).books.rows[i])
  {
    match s
    case ReserveStep(_) =>
    case SettleStep(id, u, end) =>
      if id in w.issued {
        SettleMovesForward(w, cal, id, u, end, i);
      }
    case ReconcileStep(_, _, _) =>
    case SweepStep(_) =>
    case BudgetStep(_) =>
  }

  /** How many steps of a run change row i. */
  function Changes(w: World, cal: Calendar, steps: seq<Step>, i: nat): nat {
    if steps == [] then 0
    else
      var front := steps[..|steps| - 1];
      var before, after := Run(w, cal, front).books.rows, Run(w, cal, steps).books.rows;
      Changes(w, cal, front, i)
      + (if i < |before| && i < |after| && before[i] != after[i] then 1 else 0)
  }

  /** Over any run whatsoever a row's charge changes at most twice: one effective settlement (or sweep)
      and one reconciliation. A finally charged row never changes again. */
  lemma {:induction false} ChargedAtMostTwice(w: World, cal: Calendar, steps: seq<Step>, i: nat)
    requires WellKept(w) && i < |w.books.rows| && forall k :: 0 <= k < |steps| ==> Sane(steps[k])
    ensures i < |Run(w, cal, steps).books.rows|
    ensures Changes(w, cal, steps, i) + Rank(w.books.rows[i].status)
            <= Rank(Run(w, cal, steps).books.rows[i].status) <= 2
  {
    if steps != [] {
      var front := steps[..|steps| - 1];
      ChargedAtMostTwice(w, cal, front, i);
      BooksStayInOrder(w, cal, front);
      StepMovesForward(Run(w, cal, front), cal, steps[|steps| - 1], i);
    }
  }

  /** Settling again, with whatever usage, changes nothing. */
  lemma SettleTwice(w: World, cal: Calendar, id: string, u: Usage, end: int, u': Usage, end': int)
    requires WellKept(w)
    ensures var once := Next(w, cal, SettleStep(id, u, end));
            Next(once, cal, SettleStep(id, u', end')) == once
  {
    if id in w.issued {
      var e := w.issued[id].entry;
      var i := Find(w.books.rows, id);
      if i < |w.books.rows| && Open(w.books.rows[i].status) {
        ChargeShape(e, cal, u, end);
        ChargeShape(e, cal, u', end');
        var once := Settle(w.books, cal, e, u, end);
        SettleKeepsBooks(w, cal, id, u, end);
        assert once.rows[i].id == id && Find(once.rows, id) == i;
        if e.cacheHit {
          assert once.rows == w.books.rows;
        }
      }
    }
  }
}
