/** The cost ledger (billing.go, and the sweep in store.go): rows are reserved before a call, settled
    after it, swept to pending when the settlement never came, and reconciled by hand. Each operation
    is one database transaction, so one atomic step on the table. */
module Ledger {
  import opened Base
  import opened Counting
  import opened UsageReports
  import opened Pricing
  import Money

  /** A calendar day, with the month it falls in. */
  datatype Date = Date(month: int, day: int)

  /** The Shanghai calendar: which day an instant falls on and which tariff applies. */
  datatype Calendar = Calendar(date: int -> Date, period: int -> Period)

  datatype Kind = Production | Trial

  datatype Status = Reserved | Pending | LocalCache | Zero | Calculated | Estimated | Reconciled

  datatype Row = Row(
    id: string, client: string, kind: Kind, price: Option<PriceRates>, startedAt: int, date: Date,
    reserved: int, amount: Option<int>, status: Status, valid: bool)

  /** What ReserveCost hands back to its caller and SettleCost is later given. */
  datatype Entry = Entry(
    id: string, client: string, kind: Kind, price: Option<PriceRates>, startedAt: int, reserved: int, cacheHit: bool)

  datatype Budget = Budget(day: Option<int>, month: Option<int>)

  datatype Adjustment = Adjustment(id: string, previousStatus: Status, previousAmount: Option<int>, amount: int)

  datatype Books = Books(rows: seq<Row>, budgets: map<string, Budget>, adjustments: seq<Adjustment>)

  /** The caller's key as read under FOR UPDATE. */
  datatype Access = UnknownKey | Key(active: bool, unexpired: bool, allowed: bool)

  datatype Request = Request(
    id: string, client: string, kind: Kind, access: Access, price: Option<PriceRates>,
    input: nat, maxTokens: int, images: nat, cached: bool, at: int)

  /** A budget form: the limits as typed, whether the client exists, and whether it was the form for the
      revision now stored. */
  datatype Edit = Edit(client: string, day: Option<string>, month: Option<string>, known: bool, current: bool)

  datatype LedgerError =
    | CostOverflow | InvalidKey | PolicyForbidden | PricingUnavailable | BudgetPending | BudgetExceeded
    | Internal | DuplicateId | InvalidAmount | ReasonRequired | NotFound | AlreadySettled
    | InvalidBudget | Conflict

  /** COALESCE(amount, reserved): what a row counts against a budget. */
  function Exposure(r: Row): int {
    if r.amount.Some? then r.amount.value else r.reserved
  }

  predicate Budgeted(r: Row, client: string, month: int) {
    r.client == client && r.kind == Production && r.date.month == month
  }

  function DayExposure(client: string, date: Date): Row -> int {
    (r: Row) => if Budgeted(r, client, date.month) && r.date == date then Exposure(r) else 0
  }

  function MonthExposure(client: string, month: int): Row -> int {
    (r: Row) => if Budgeted(r, client, month) then Exposure(r) else 0
  }

  function Unforeseeable(client: string, month: int): Row -> bool {
    (r: Row) => Budgeted(r, client, month) && r.amount.None? && !r.valid
  }

  function DayUsed(rows: seq<Row>, client: string, date: Date): int {
    Sum(rows, DayExposure(client, date))
  }

  function MonthUsed(rows: seq<Row>, client: string, month: int): int {
    Sum(rows, MonthExposure(client, month))
  }

  /** Position of a row, or the number of rows when there is none. */
  function Find(rows: seq<Row>, id: string): (i: nat)
    ensures i <= |rows| && (i < |rows| ==> rows[i].id == id)
    ensures forall k :: 0 <= k < i ==> rows[k].id != id
    ensures i < |rows| <==> exists k :: 0 <= k < |rows| && rows[k].id == id
  {
    if rows == [] then 0
    else if rows[0].id == id then 0
    else
      var j := Find(rows[1..], id);
      assert forall k :: 1 <= k < |rows| ==> rows[k] == rows[1..][k - 1];
      j + 1
  }

  function LimitOf(b: Books, client: string): Budget {
    GetOr(b.budgets, client, Budget(None, None))
  }

  predicate Exceeds(limit: Option<int>, used: int, reserved: int) {
    limit.Some? && (used > limit.value || reserved > limit.value - used)
  }

  function ReservedAmount(r: Request): Result<int, CostError> {
    if r.price.Some? && !r.cached && r.images == 0 then Pricing.Reservation(r.price.value, r.input, r.maxTokens)
    else Success(0)
  }

  function CheckKey(r: Request): Option<LedgerError> {
    if r.kind != Production then None
    else if r.access.UnknownKey? || !r.access.active || !r.access.unexpired then Some(InvalidKey)
    else if !r.access.allowed then Some(PolicyForbidden)
    else None
  }

  function CheckBudget(b: Books, r: Request, date: Date, reserved: int): Option<LedgerError> {
    var limit := LimitOf(b, r.client);
    if r.kind != Production || r.cached || (limit.day.None? && limit.month.None?) then None
    else if r.images > 0 || r.price.None? then Some(PricingUnavailable)
    else
      var dayUsed := DayUsed(b.rows, r.client, date);
      var monthUsed := MonthUsed(b.rows, r.client, date.month);
      if !IsInt64(dayUsed) || !IsInt64(monthUsed) then Some(Internal)
      else if Count(b.rows, Unforeseeable(r.client, date.month)) > 0 then Some(BudgetPending)
      else if Exceeds(limit.day, dayUsed, reserved) || Exceeds(limit.month, monthUsed, reserved) then
        Some(BudgetExceeded)
      else None
  }

  function NewRow(r: Request, date: Date, reserved: int): Row {
    Row(r.id, r.client, r.kind, r.price, r.at, date, reserved,
        if r.cached then Some(0) else None, if r.cached then LocalCache else Reserved,
        r.cached || (r.price.Some? && r.images == 0))
  }

  function EntryOf(r: Request, reserved: int): Entry {
    Entry(r.id, r.client, r.kind, r.price, r.at, reserved, r.cached)
  }

  /** ReserveCost: refused without effect, or one new row and the entry for its settlement. */
  function Reserve(b: Books, cal: Calendar, r: Request): (Books, Result<Entry, LedgerError>) {
    var cost := ReservedAmount(r);
    var date := cal.date(r.at);
    if cost.Failure? then (b, Failure(CostOverflow))
    else if CheckKey(r).Some? then (b, Failure(CheckKey(r).value))
    else if CheckBudget(b, r, date, cost.value).Some? then (b, Failure(CheckBudget(b, r, date, cost.value).value))
    else if Find(b.rows, r.id) < |b.rows| then (b, Failure(DuplicateId))
    else (b.(rows := b.rows + [NewRow(r, date, cost.value)]), Success(EntryOf(r, cost.value)))
  }

  /** The charge a settlement writes: an amount, or None while it still has to be checked by hand. */
  function Charge(e: Entry, cal: Calendar, u: Usage, end: int): (Option<int>, Status) {
    if e.cacheHit then (Some(0), LocalCache)
    else if !u.attempted then (Some(0), Zero)
    else if e.price.None? then (None, Pending)
    else
      var (amount, status) := Calculate(e.price.value, u, cal.period(e.startedAt), cal.period(end));
      if amount.Failure? || status.Unverified? then (None, Pending)
      else (Some(amount.value), if status.Measured? then Calculated else Estimated)
  }

  predicate Open(s: Status) {
    s == Reserved || s == LocalCache
  }

  /** SettleCost: writes the charge only while the row is still open. */
  function Settle(b: Books, cal: Calendar, e: Entry, u: Usage, end: int): Books {
    var i := Find(b.rows, e.id);
    if i == |b.rows| || !Open(b.rows[i].status) then b
    else
      var (amount, status) := Charge(e, cal, u, end);
      b.(rows := b.rows[i := b.rows[i].(amount := amount, status := status)])
  }

  function ParseLimit(text: Option<string>): Result<Option<int>, LedgerError> {
    if text.None? then Success(None)
    else
      var n := Money.ParseCNY(text.value);
      if n.Success? then Success(Some(n.value)) else Failure(InvalidBudget)
  }

  /** saveBudget: both limits must parse, the client exist and the form be current. */
  function Save(b: Books, e: Edit): (Books, Option<LedgerError>) {
    var day, month := ParseLimit(e.day), ParseLimit(e.month);
    if day.Failure? || month.Failure? then (b, Some(InvalidBudget))
    else if !e.known then (b, Some(NotFound))
    else if !e.current then (b, Some(Conflict))
    else (b.(budgets := b.budgets[e.client := Budget(day.value, month.value)]), None)
  }

  /** reconcileCost: an administrator replaces a pending or estimated charge by the billed one. */
  function Reconcile(b: Books, id: string, text: string, reasonGiven: bool): (Books, Option<LedgerError>) {
    var amount := Money.ParseCNY(text);
    if amount.Failure? then (b, Some(InvalidAmount))
    else if !reasonGiven then (b, Some(ReasonRequired))
    else
      var i := Find(b.rows, id);
      if i == |b.rows| then (b, Some(NotFound))
      else
        var row := b.rows[i];
        if row.status != Pending && row.status != Estimated then (b, Some(AlreadySettled))
        else
          (b.(rows := b.rows[i := row.(amount := Some(amount.value), status := Reconciled)],
              adjustments := b.adjustments + [Adjustment(id, row.status, row.amount, amount.value)]), None)
  }

  const SETTLEMENT_GRACE := 2 * MINUTE

  function SweptRow(r: Row, now: int): Row {
    if r.status == Reserved && r.startedAt < now - SETTLEMENT_GRACE then r.(status := Pending) else r
  }

  /** Cleanup: reservations nobody settled in time become pending, their exposure kept. */
  function Swept(rows: seq<Row>, now: int): (s: seq<Row>)
    ensures |s| == |rows| && forall i :: 0 <= i < |rows| ==> s[i] == SweptRow(rows[i], now)
  {
    seq(|rows|, i requires 0 <= i < |rows| => SweptRow(rows[i], now))
  }

  class CostLedger {
    var rows: seq<Row>
    var budgets: map<string, Budget>
    var adjustments: seq<Adjustment>
    const calendar: Calendar

    function View(): Books
      reads this
    {
      Books(rows, budgets, adjustments)
    }

    constructor (calendar: Calendar)
      ensures View() == Books([], map[], []) && this.calendar == calendar
    {
      this.calendar := calendar;
      rows, budgets, adjustments := [], map[], [];
    }

    /** The aggregate query of ReserveCost: day and month exposure and the unforeseeable rows. */
    method Totals(client: string, date: Date) returns (dayUsed: int, monthUsed: int, unknown: int)
      ensures dayUsed == DayUsed(rows, client, date)
      ensures monthUsed == MonthUsed(rows, client, date.month)
      ensures unknown == Count(rows, Unforeseeable(client, date.month))
    {
      dayUsed, monthUsed, unknown := 0, 0, 0;
      for i := 0 to |rows|
        invariant dayUsed == DayUsed(rows[..i], client, date)
        invariant monthUsed == MonthUsed(rows[..i], client, date.month)
        invariant unknown == Count(rows[..i], Unforeseeable(client, date.month))
      {
        var r := rows[i];
        assert rows[..i + 1] == rows[..i] + [r];
        SumLast(rows[..i], r, DayExposure(client, date));
        SumLast(rows[..i], r, MonthExposure(client, date.month));
        CountLast(rows[..i], r, Unforeseeable(client, date.month));
        if r.client == client && r.kind == Production && r.date.month == date.month {
          monthUsed := monthUsed + Exposure(r);
          if r.date == date {
            dayUsed := dayUsed + Exposure(r);
          }
          if r.amount.None? && !r.valid {
            unknown := unknown + 1;
          }
        }
      }
      assert rows[..|rows|] == rows;
    }

    method ReserveCost(r: Request) returns (result: Result<Entry, LedgerError>)
      modifies this`rows
      ensures (View(), result) == Reserve(old(View()), calendar, r)
    {
      var reserved := 0;
      if r.price.Some? && !r.cached && r.images == 0 {
        var top := Max(r.price.value.peakOutput, r.price.value.offOutput);
        var cost := SafeCost(0, r.input, r.maxTokens, 0, HighestInputRate(r.price.value), top);
        if cost.Failure? {
          return Failure(CostOverflow);
        }
        reserved := cost.value;
      }
      var date := calendar.date(r.at);
      if r.kind == Production {
        if r.access.UnknownKey? || !r.access.active || !r.access.unexpired {
          return Failure(InvalidKey);
        }
        if !r.access.allowed {
          return Failure(PolicyForbidden);
        }
      }
      if r.kind == Production && !r.cached {
        var limit := GetOr(budgets, r.client, Budget(None, None));
        if limit.day.Some? || limit.month.Some? {
          if r.images > 0 {
            return Failure(PricingUnavailable);
          }
          if r.price.None? {
            return Failure(PricingUnavailable);
          }
          var dayUsed, monthUsed, unknown := Totals(r.client, date);
          if !IsInt64(dayUsed) || !IsInt64(monthUsed) {
            return Failure(Internal);
          }
          if unknown > 0 {
            return Failure(BudgetPending);
          }
          if (limit.day.Some? && (dayUsed > limit.day.value || reserved > limit.day.value - dayUsed))
             || (limit.month.Some? && (monthUsed > limit.month.value || reserved > limit.month.value - monthUsed)) {
            return Failure(BudgetExceeded);
          }
        }
      }
      if Find(rows, r.id) < |rows| {
        return Failure(DuplicateId);
      }
      rows := rows + [NewRow(r, date, reserved)];
      return Success(EntryOf(r, reserved));
    }

    method SettleCost(e: Entry, u: Usage, end: int)
      modifies this`rows
      ensures View() == Settle(old(View()), calendar, e, u, end)
    {
      var amount, status := Some(0), Zero;
      if e.cacheHit {
        status := LocalCache;
      } else if u.attempted {
        if e.price.None? {
          amount, status := None, Pending;
        } else {
          var (cost, kind) := Calculate(e.price.value, u, calendar.period(e.startedAt), calendar.period(end));
          if cost.Failure? || kind.Unverified? {
            amount, status := None, Pending;
          } else {
            amount, status := Some(cost.value), if kind.Measured? then Calculated else Estimated;
          }
        }
      }
      var i := Find(rows, e.id);
      if i < |rows| && (rows[i].status == Reserved || rows[i].status == LocalCache) {
        rows := rows[i := rows[i].(amount := amount, status := status)];
      }
    }

    method ReconcileCost(id: string, text: string, reasonGiven: bool) returns (error: Option<LedgerError>)
      modifies this`rows, this`adjustments
      ensures (View(), error) == Reconcile(old(View()), id, text, reasonGiven)
    {
      var amount := Money.ParseAmount(text);
      if amount.Failure? {
        return Some(InvalidAmount);
      }
      if !reasonGiven {
        return Some(ReasonRequired);
      }
      var i := Find(rows, id);
      if i == |rows| {
        return Some(NotFound);
      }
      var row := rows[i];
      if row.status != Pending && row.status != Estimated {
        return Some(AlreadySettled);
      }
      adjustments := adjustments + [Adjustment(id, row.status, row.amount, amount.value)];
      rows := rows[i := row.(amount := Some(amount.value), status := Reconciled)];
      return None;
    }

    method Cleanup(now: int)
      modifies this`rows
      ensures View() == old(View()).(rows := Swept(old(rows), now))
    {
      for i := 0 to |rows|
        invariant |rows| == |old(rows)|
        invariant forall k :: 0 <= k < i ==> rows[k] == SweptRow(old(rows)[k], now)
        invariant forall k :: i <= k < |rows| ==> rows[k] == old(rows)[k]
      {
        if rows[i].status == Reserved && rows[i].startedAt < now - SETTLEMENT_GRACE {
          rows := rows[i := rows[i].(status := Pending)];
        }
      }
      assert rows == Swept(old(rows), now);
    }

    method SaveBudget(e: Edit) returns (error: Option<LedgerError>)
      modifies this`budgets
      ensures (View(), error) == Save(old(View()), e)
    {
      var day, month := None, None;
      if e.day.Some? {
        var n := Money.ParseAmount(e.day.value);
        if n.Failure? {
          return Some(InvalidBudget);
        }
        day := Some(n.value);
      }
      if e.month.Some? {
        var n := Money.ParseAmount(e.month.value);
        if n.Failure? {
          return Some(InvalidBudget);
        }
        month := Some(n.value);
      }
      if !e.known {
        return Some(NotFound);
      }
      if !e.current {
        return Some(Conflict);
      }
      budgets := budgets[e.client := Budget(day, month)];
      return None;
    }
  }
}
