/** What the ledger comes to hold (billing.go:93-247): which calls are reserved, what a settlement writes, and that
    every amount in the books is a bill, a reconciliation or nothing. */
module LedgerCharges {
  import opened Base
  import opened Counting
  import opened UsageReports
  import opened Ledger
  import opened LedgerRuns
  import Pricing
  import Money

  // ---------- Reservations ----------

  /** The key that a production call needs. */
  predicate Admitted(r: Request) {
    r.kind == Trial || (r.access.Key? && r.access.active && r.access.unexpired && r.access.allowed)
  }

  /** What is held back for a call: the whole allowance at the dearest rates; nothing for a cached answer, a model
      without a price or images. */
  function HeldBack(r: Request): int {
    if r.cached || r.images > 0 || r.price.None? then 0
    else
      var p := r.price.value;
      r.input * Max(Max(p.peakHit, p.offHit), Max(p.peakMiss, p.offMiss)) + r.maxTokens * Max(p.peakOutput, p.offOutput)
  }

  /** The client has a limit for the day or the month. */
  predicate Limited(b: Books, client: string) {
    LimitOf(b, client).day.Some? || LimitOf(b, client).month.Some?
  }

  /** After the call both limits would still be kept. */
  predicate KeepsLimits(b: Books, r: Request, date: Date) {
    var limit := LimitOf(b, r.client);
    (limit.day.Some? ==> DayUsed(b.rows, r.client, date) + HeldBack(r) <= limit.day.value)
    && (limit.month.Some? ==> MonthUsed(b.rows, r.client, date.month) + HeldBack(r) <= limit.month.value)
  }

  /** A call can be held to the limits: it can be priced in advance, every open call of the month was, and the sums
      are representable. */
  predicate Foreseeable(b: Books, r: Request, date: Date) {
    r.images == 0 && r.price.Some?
    && (forall i :: 0 <= i < |b.rows| ==>
          var row := b.rows[i];
          row.client == r.client && row.kind == Production && row.date.month == date.month && row.amount.None? ==>
            row.valid)
    && IsInt64(DayUsed(b.rows, r.client, date)) && IsInt64(MonthUsed(b.rows, r.client, date.month))
  }

  predicate Priceable(r: Request) {
    (r.price.Some? && !r.cached && r.images == 0 ==> 0 <= r.maxTokens) && HeldBack(r) <= MAX_INT64
  }

  lemma {:induction false} NoneCounted(rows: seq<Row>, p: Row -> bool)
    ensures Count(rows, p) >= 0
    ensures Count(rows, p) == 0 <==> forall i :: 0 <= i < |rows| ==> !p(rows[i])
  {
    if rows != [] {
      var front := rows[..|rows| - 1];
      NoneCounted(front, p);
      assert rows == front + [rows[|rows| - 1]];
      CountLast(front, rows[|rows| - 1], p);
    }
  }

  lemma HeldBackIsReserved(r: Request)
    requires r.price.Some? ==> r.price.value.Valid()
    ensures ReservedAmount(r) == if Priceable(r) then Success(HeldBack(r)) else Failure(Pricing.OutOfRange)
  {
    if r.price.Some? {
      Pricing.RatesInRange(r.price.value);
    }
  }

  /** A call is reserved if and only if its cost can be computed, its key admits it, its id is new, and, when it would
      cost and the client has limits, it can be held to them and keeps them. The reservation adds one row, which
      counts what was held back until the call is settled. */
  lemma ReservedExactly(b: Books, cal: Calendar, r: Request)
    requires r.price.Some? ==> r.price.value.Valid()
    ensures var (after, result) := Reserve(b, cal, r);
            var date := cal.date(r.at);
            (result.Success?
             <==> Priceable(r) && Admitted(r) && (forall i :: 0 <= i < |b.rows| ==> b.rows[i].id != r.id)
                  && (r.kind == Production && !r.cached && Limited(b, r.client) ==>
                        Foreseeable(b, r, date) && KeepsLimits(b, r, date)))
            && (result.Failure? ==> after == b)
            && (result.Success? ==>
                  after == b.(rows := after.rows) && |after.rows| == |b.rows| + 1
                  && b.rows == after.rows[..|b.rows|] && Fresh(after.rows[|b.rows|], r, date))
  {
    HeldBackIsReserved(r);
    NoneCounted(b.rows, Unforeseeable(r.client, cal.date(r.at).month));
  }

  /** The row of a call not yet settled. */
  predicate Fresh(row: Row, r: Request, date: Date) {
    (row.id, row.client, row.kind, row.price, row.startedAt, row.date) == (r.id, r.client, r.kind, r.price, r.at, date)
    && Exposure(row) == row.reserved == HeldBack(r)
    && (row.amount, row.status) == (if r.cached then (Some(0), LocalCache) else (None, Reserved))
    && (row.valid <==> r.cached || (r.price.Some? && r.images == 0))
  }

  // ---------- Settlements ----------

  /** What a settlement makes of a row: nothing to pay for a cached answer or a call never sent; the bill, if the
      model had a price, the upstream reported its usage and the bill fits int64; otherwise a check by hand. */
  predicate Charged(r: Row, cached: bool, cal: Calendar, u: Usage, end: int) {
    if cached then r.amount == Some(0) && r.status == LocalCache
    else if !u.attempted then r.amount == Some(0) && r.status == Zero
    else if r.price.None? || !u.reported then r.amount == None && r.status == Pending
    else
      var start, last := cal.period(r.startedAt), cal.period(end);
      var bill := Pricing.Bill(r.price.value, u, start, last);
      if bill > MAX_INT64 then r.amount == None && r.status == Pending
      else r.amount == Some(bill) && r.status == if u.hit.Some? && start == last then Calculated else Estimated
  }

  lemma ChargeIsBill(e: Entry, cal: Calendar, u: Usage, end: int, r: Row)
    requires AddsUp(u) && (e.price.Some? ==> e.price.value.Valid())
    requires (r.price, r.startedAt) == (e.price, e.startedAt) && (r.amount, r.status) == Charge(e, cal, u, end)
    ensures Charged(r, e.cacheHit, cal, u, end)
  {
    if e.price.Some? && u.reported {
      Pricing.ChargedItsBill(e.price.value, u, cal.period(e.startedAt), cal.period(end));
    }
  }

  /** A settlement charges the call's row while it is open, and touches nothing else. */
  lemma SettlementCharges(w: World, cal: Calendar, id: string, u: Usage, end: int, i: nat)
    requires WellKept(w) && AddsUp(u) && i < |w.books.rows|
    requires w.books.rows[i].price.Some? ==> w.books.rows[i].price.value.Valid()
    ensures var row, next := w.books.rows[i], Next(w, cal, SettleStep(id, u, end));
            |next.books.rows| == |w.books.rows|
            && if row.id == id && (row.status == Reserved || row.status == LocalCache) then
                 next.books.rows[i] == row.(amount := next.books.rows[i].amount, status := next.books.rows[i].status)
                 && Charged(next.books.rows[i], row.status == LocalCache, cal, u, end)
               else next.books.rows[i] == row
  {
    var row := w.books.rows[i];
    assert RowOk(row, w.issued[row.id]);
    if row.id == id {
      assert Find(w.books.rows, id) == i;
      if Open(row.status) {
        ChargeIsBill(w.issued[id].entry, cal, u, end, Next(w, cal, SettleStep(id, u, end)).books.rows[i]);
      }
    }
  }

  // ---------- Whole runs ----------

  /** Usages come from the parsers, which keep only what adds up, and prices from the store, validated. */
  predicate Decoded(s: Step) {
    (s.SettleStep? ==> AddsUp(s.usage)) && Sane(s)
  }

  predicate SettledBy(r: Row, cal: Calendar, s: Step) {
    s.SettleStep? && s.id == r.id && Charged(r, false, cal, s.usage, s.end)
  }

  predicate ReconciledBy(r: Row, s: Step) {
    s.ReconcileStep? && s.id == r.id && s.reasonGiven
    && r.amount.Some? && Money.ParseCNY(s.text) == Success(r.amount.value)
  }

  /** Where a row's charge comes from. */
  predicate Accounted(r: Row, cal: Calendar, steps: seq<Step>) {
    match r.status
    case Reserved => r.amount == None
    case LocalCache => r.amount == Some(0)
    case Pending => r.amount == None
    case Reconciled => exists k :: 0 <= k < |steps| && ReconciledBy(r, steps[k])
    case _ => r.amount.Some? && exists k :: 0 <= k < |steps| && SettledBy(r, cal, steps[k])
  }

  ghost predicate PricesValid(rows: seq<Row>) {
    forall i :: 0 <= i < |rows| && rows[i].price.Some? ==> rows[i].price.value.Valid()
  }

  lemma StillAccounted(r: Row, cal: Calendar, steps: seq<Step>, s: Step)
    requires Accounted(r, cal, steps)
    ensures Accounted(r, cal, steps + [s])
  {
    assert forall k :: 0 <= k < |steps| ==> (steps + [s])[k] == steps[k];
  }

  lemma NewlySettled(r: Row, cached: bool, cal: Calendar, steps: seq<Step>, s: Step)
    requires s.SettleStep? && s.id == r.id && Charged(r, cached, cal, s.usage, s.end)
    ensures Accounted(r, cal, steps + [s])
  {
    assert (steps + [s])[|steps|] == s;
  }

  lemma SettleAccounts(w: World, cal: Calendar, steps: seq<Step>, s: Step, i: nat)
    requires WellKept(w) && s.SettleStep? && AddsUp(s.usage) && PricesValid(w.books.rows) && i < |w.books.rows|
    requires Accounted(w.books.rows[i], cal, steps)
    ensures i < |Next(w, cal, s).books.rows| && Accounted(Next(w, cal, s).books.rows[i], cal, steps + [s])
  {
    var row := w.books.rows[i];
    SettlementCharges(w, cal, s.id, s.usage, s.end, i);
    if row.id == s.id && Open(row.status) {
      NewlySettled(Next(w, cal, s).books.rows[i], row.status == LocalCache, cal, steps, s);
    } else {
      StillAccounted(row, cal, steps, s);
    }
  }

  lemma ReconcileChanges(b: Books, s: Step, i: nat)
    requires s.ReconcileStep? && i < |b.rows|
    ensures var rows := Reconcile(b, s.id, s.text, s.reasonGiven).0.rows;
            i < |rows| && (rows[i] == b.rows[i] || (rows[i].status == Reconciled && ReconciledBy(rows[i], s)))
  {
  }

  lemma ReconcileAccounts(w: World, cal: Calendar, steps: seq<Step>, s: Step, i: nat)
    requires s.ReconcileStep? && i < |w.books.rows| && Accounted(w.books.rows[i], cal, steps)
    ensures i < |Next(w, cal, s).books.rows| && Accounted(Next(w, cal, s).books.rows[i], cal, steps + [s])
  {
    StillAccounted(w.books.rows[i], cal, steps, s);
    ReconcileChanges(w.books, s, i);
    assert (steps + [s])[|steps|] == s;
  }

  lemma SweepAccounts(w: World, cal: Calendar, steps: seq<Step>, s: Step, i: nat)
    requires s.SweepStep? && i < |w.books.rows| && Accounted(w.books.rows[i], cal, steps)
    ensures i < |Next(w, cal, s).books.rows| && Accounted(Next(w, cal, s).books.rows[i], cal, steps + [s])
  {
    StillAccounted(w.books.rows[i], cal, steps, s);
  }

  lemma StepAccounts(w: World, cal: Calendar, steps: seq<Step>, s: Step, i: nat)
    requires WellKept(w) && Decoded(s) && PricesValid(w.books.rows) && i < |w.books.rows|
    requires Accounted(w.books.rows[i], cal, steps)
    ensures i < |Next(w, cal, s).books.rows| && Accounted(Next(w, cal, s).books.rows[i], cal, steps + [s])
  {
    match s
    case SettleStep(_, _, _) => SettleAccounts(w, cal, steps, s, i);
    case ReconcileStep(_, _, _) => ReconcileAccounts(w, cal, steps, s, i);
    case SweepStep(_) => SweepAccounts(w, cal, steps, s, i);
    case _ => StillAccounted(w.books.rows[i], cal, steps, s);
  }

  lemma NewRowAccounted(w: World, cal: Calendar, steps: seq<Step>, s: Step)
    requires Decoded(s) && PricesValid(w.books.rows)
    ensures PricesValid(Next(w, cal, s).books.rows)
    ensures var rows := Next(w, cal, s).books.rows;
            |w.books.rows| <= |rows|
            && forall i :: |w.books.rows| <= i < |rows| ==> Accounted(rows[i], cal, steps + [s])
  {
  }

  /** Every amount in the books is accounted for, whatever the run: it is the bill of a usage settled for that call at
      the tariff of its start and end, nothing for a call cached or never sent, or the amount an administrator gave. */
  lemma {:induction false} AmountsAreBills(w: World, cal: Calendar, steps: seq<Step>, i: nat)
    requires WellKept(w) && w.books.rows == [] && forall k :: 0 <= k < |steps| ==> Decoded(steps[k])
    ensures PricesValid(Run(w, cal, steps).books.rows)
    ensures i < |Run(w, cal, steps).books.rows| ==> Accounted(Run(w, cal, steps).books.rows[i], cal, steps)
  {
    if steps != [] {
      var front, s := steps[..|steps| - 1], steps[|steps| - 1];
      var before := Run(w, cal, front);
      assert front + [s] == steps;
      AmountsAreBills(w, cal, front, i);
      BooksStayInOrder(w, cal, front);
      NewRowAccounted(before, cal, front, s);
      if i < |before.books.rows| {
        StepAccounts(before, cal, front, s, i);
      }
    }
  }

  // ---------- Sweeps and reconciliations ----------

  /** A sweep puts aside exactly the reservations more than two minutes old. They keep their exposure, and a settlement
      that comes too late no longer changes them. */
  lemma SweptIsPutAside(w: World, cal: Calendar, now: int, i: nat, u: Usage, end: int)
    requires WellKept(w) && i < |w.books.rows|
    ensures var row, swept := w.books.rows[i], Next(w, cal, SweepStep(now));
            var late := Next(swept, cal, SettleStep(row.id, u, end));
            i < |swept.books.rows| && i < |late.books.rows|
            && if row.status == Reserved && row.startedAt < now - 120_000_000_000 then
                 swept.books.rows[i] == row.(status := Pending) && Exposure(swept.books.rows[i]) == row.reserved
                 && late == swept
               else swept.books.rows[i] == row
  {
    var swept := Next(w, cal, SweepStep(now));
    StepKeepsBooks(w, cal, SweepStep(now));
    assert Find(swept.books.rows, w.books.rows[i].id) == i;
  }

  /** A reconciliation is accepted if and only if a reason is given, the text is an amount, and the call's row is
      pending or estimated. It sets that row to the amount and logs what was there before; refused, it changes
      nothing. */
  lemma ReconciledExactly(b: Books, id: string, text: string, reasonGiven: bool, i: nat)
    requires i < |b.rows| && b.rows[i].id == id && forall j, k :: 0 <= j < k < |b.rows| ==> b.rows[j].id != b.rows[k].id
    ensures var (after, refused) := Reconcile(b, id, text, reasonGiven);
            var row, amount := b.rows[i], Money.ParseCNY(text);
            (refused.None? <==> reasonGiven && amount.Success? && (row.status == Pending || row.status == Estimated))
            && after == if refused.Some? then b
                        else
                          Books(b.rows[i := row.(amount := Some(amount.value), status := Reconciled)], b.budgets,
                                b.adjustments + [Adjustment(id, row.status, row.amount, amount.value)])
  {
    assert Find(b.rows, id) == i;
  }

  /** A limit as typed: none, or an amount the parser reads. */
  predicate Reads(text: Option<string>, limit: Option<int>) {
    if text.None? then limit == None else limit.Some? && Money.ParseCNY(text.value) == Success(limit.value)
  }

  /** A budget form is accepted if and only if both limits can be read, the client exists and the form is current; it
      then sets exactly this client's limits to what was typed, and otherwise changes nothing. */
  lemma SavedExactly(b: Books, e: Edit, other: string)
    ensures var (after, refused) := Save(b, e);
            (refused.None?
             <==> (exists day, month :: Reads(e.day, day) && Reads(e.month, month)) && e.known && e.current)
            && (refused.Some? ==> after == b)
            && (refused.None? ==>
                  (after.rows, after.adjustments) == (b.rows, b.adjustments)
                  && Reads(e.day, LimitOf(after, e.client).day) && Reads(e.month, LimitOf(after, e.client).month)
                  && (other != e.client ==> LimitOf(after, other) == LimitOf(b, other)))
  {
    var day, month := ParseLimit(e.day), ParseLimit(e.month);
    if day.Success? && month.Success? {
      assert Reads(e.day, day.value) && Reads(e.month, month.value);
    }
  }

  /** One entry of the log: the row it is about holds the amount entered, and was pending or estimated before. */
  predicate Entered(a: Adjustment, rows: seq<Row>) {
    (if a.previousAmount.None? then a.previousStatus == Pending else a.previousStatus == Estimated)
    && exists i :: 0 <= i < |rows| && IsAbout(a, rows[i])
  }

  predicate IsAbout(a: Adjustment, r: Row) {
    a.id == r.id && r.status == Reconciled && r.amount == Some(a.amount)
  }

  ghost predicate HasEntry(log: seq<Adjustment>, r: Row) {
    exists k :: 0 <= k < |log| && IsAbout(log[k], r)
  }

  /** The log and the reconciled rows tell the same: every entry is of a reconciled row, and every such row has
      exactly one entry. */
  ghost predicate LogAgrees(b: Books) {
    (forall k :: 0 <= k < |b.adjustments| ==> Entered(b.adjustments[k], b.rows))
    && (forall i :: 0 <= i < |b.rows| && b.rows[i].status == Reconciled ==> HasEntry(b.adjustments, b.rows[i]))
    && forall j, k :: 0 <= j < k < |b.adjustments| ==> b.adjustments[j].id != b.adjustments[k].id
  }

  /** Reconciled rows stay as they are, and no others become so. */
  ghost predicate KeepsReconciled(before: seq<Row>, after: seq<Row>) {
    |before| <= |after|
    && (forall i :: 0 <= i < |before| && before[i].status == Reconciled ==> after[i] == before[i])
    && forall i :: 0 <= i < |after| && after[i].status == Reconciled ==> i < |before| && before[i] == after[i]
  }

  lemma OtherStepsKeepReconciled(w: World, cal: Calendar, s: Step)
    requires WellKept(w) && !s.ReconcileStep?
    ensures var next := Next(w, cal, s).books;
            KeepsReconciled(w.books.rows, next.rows) && next.adjustments == w.books.adjustments
  {
    if s.SettleStep? && s.id in w.issued {
      ChargeShape(w.issued[s.id].entry, cal, s.usage, s.end);
    }
  }

  lemma KeepingAgrees(b: Books, rows: seq<Row>)
    requires LogAgrees(b) && KeepsReconciled(b.rows, rows)
    ensures LogAgrees(b.(rows := rows))
  {
    forall k | 0 <= k < |b.adjustments|
      ensures Entered(b.adjustments[k], rows)
    {
      var i :| 0 <= i < |b.rows| && IsAbout(b.adjustments[k], b.rows[i]);
      assert rows[i] == b.rows[i];
    }
  }

  /** An entry of the log survives the reconciliation of a row that was not reconciled yet. */
  lemma EntryStays(a: Adjustment, rows: seq<Row>, i: nat, row: Row)
    requires Entered(a, rows) && i < |rows| && rows[i].status != Reconciled
    requires forall j, k :: 0 <= j < k < |rows| ==> rows[j].id != rows[k].id
    ensures Entered(a, rows[i := row]) && a.id != rows[i].id
  {
    var j :| 0 <= j < |rows| && IsAbout(a, rows[j]);
    assert rows[i := row][j] == rows[j];
  }

  lemma OneMoreEntry(log: seq<Adjustment>, last: Adjustment, r: Row)
    ensures HasEntry(log + [last], r) <==> HasEntry(log, r) || IsAbout(last, r)
  {
    assert (log + [last])[|log|] == last;
    assert forall k :: 0 <= k < |log| ==> (log + [last])[k] == log[k];
  }

  lemma ReconcileLogs(b: Books, i: nat, amount: int)
    requires LogAgrees(b) && i < |b.rows| && (b.rows[i].status == Pending || b.rows[i].status == Estimated)
    requires b.rows[i].amount.None? <==> b.rows[i].status == Pending
    requires forall j, k :: 0 <= j < k < |b.rows| ==> b.rows[j].id != b.rows[k].id
    ensures var row := b.rows[i];
            LogAgrees(b.(rows := b.rows[i := row.(amount := Some(amount), status := Reconciled)],
                         adjustments := b.adjustments + [Adjustment(row.id, row.status, row.amount, amount)]))
  {
    var row := b.rows[i];
    var charged := row.(amount := Some(amount), status := Reconciled);
    var rows, last := b.rows[i := charged], Adjustment(row.id, row.status, row.amount, amount);
    assert Entered(last, rows) by { assert IsAbout(last, rows[i]); }
    forall k | 0 <= k < |b.adjustments|
      ensures Entered(b.adjustments[k], rows) && b.adjustments[k].id != row.id
    {
      EntryStays(b.adjustments[k], b.rows, i, charged);
    }
    forall j | 0 <= j < |rows| && rows[j].status == Reconciled
      ensures HasEntry(b.adjustments + [last], rows[j])
    {
      OneMoreEntry(b.adjustments, last, rows[j]);
      assert j != i ==> HasEntry(b.adjustments, b.rows[j]);
    }
  }

  /** In every run the log of adjustments and the reconciled rows agree, entry for row. */
  lemma {:induction false} LogAlwaysAgrees(w: World, cal: Calendar, steps: seq<Step>)
    requires WellKept(w) && LogAgrees(w.books) && forall k :: 0 <= k < |steps| ==> Sane(steps[k])
    ensures LogAgrees(Run(w, cal, steps).books)
  {
    if steps != [] {
      var front, s := steps[..|steps| - 1], steps[|steps| - 1];
      var before := Run(w, cal, front);
      LogAlwaysAgrees(w, cal, front);
      BooksStayInOrder(w, cal, front);
      if !s.ReconcileStep? {
        OtherStepsKeepReconciled(before, cal, s);
        var after := Next(before, cal, s).books;
        KeepingAgrees(before.books, after.rows);
        assert LogAgrees(after) by { LogOfRows(before.books, after); }
      } else if Reconcile(before.books, s.id, s.text, s.reasonGiven).1.None? {
        ReconcileLogs(before.books, Find(before.books.rows, s.id), Money.ParseCNY(s.text).value);
      }
    }
  }

  lemma LogOfRows(b: Books, after: Books)
    requires LogAgrees(b.(rows := after.rows)) && after.adjustments == b.adjustments
    ensures LogAgrees(after)
  {
  }
}
