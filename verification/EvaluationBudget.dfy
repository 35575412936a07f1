/** What one evaluation trial can cost: the estimate made before it (evaluation_runs.go:223-273) and the
    bill its attempts leave behind (evaluation_costs.go). */
module EvaluationBudget {
  import opened Base
  import opened Counting
  import opened Sorting
  import opened UsageReports
  import opened EvaluationPlan
  import opened AttemptLoop
  import Pricing
  import Routing
  import Ledger
  import Money

  // ---------- The largest values ----------

  function AtLeast(): (int, int) -> bool {
    (a: int, b: int) => a >= b
  }

  function Leading(s: seq<int>, k: nat): int {
    if k == 0 || s == [] then 0 else s[0] + Leading(s[1..], k - 1)
  }

  /** The sum of the k largest values. */
  function TopSum(values: seq<int>, k: nat): int {
    Leading(Sorted(values, AtLeast()), k)
  }

  ghost predicate Falling(s: seq<int>) {
    (forall i :: 0 <= i < |s| ==> 0 <= s[i]) && Ascending(s, AtLeast())
  }

  lemma {:induction false} LeadingStep(s: seq<int>, i: nat)
    requires i < |s|
    ensures Leading(s, i + 1) == Leading(s, i) + s[i]
  {
    if i > 0 {
      LeadingStep(s[1..], i - 1);
    }
  }

  lemma {:induction false} LeadingGrows(s: seq<int>, i: nat, k: nat)
    requires Falling(s) && i <= k
    ensures 0 <= Leading(s, i) <= Leading(s, k)
  {
    if i > 0 && s != [] {
      LeadingGrows(s[1..], i - 1, k - 1);
    } else if k > 0 && s != [] {
      LeadingGrows(s[1..], 0, k - 1);
    }
  }

  lemma {:induction false} LeadingShift(s: seq<int>, k: nat)
    requires Falling(s) && s != []
    ensures Leading(s[1..], k) <= Leading(s, k)
  {
    if k > 0 && |s| > 1 {
      LeadingShift(s[1..], k - 1);
    }
  }

  lemma LeadingWith(y: int, s: seq<int>, k: nat)
    requires k > 0
    ensures Leading([y] + s, k) == y + Leading(s, k - 1)
  {
    assert ([y] + s)[1..] == s;
  }

  /** One value more: the leading sum is at least what it was, and at least the value with one place
      fewer for the others. */
  lemma {:induction false} LeadingInsert(x: int, s: seq<int>, k: nat)
    requires Falling(s) && 0 <= x
    ensures Leading(s, k) <= Leading(Insert(x, s, AtLeast()), k)
    ensures k > 0 ==> x + Leading(s, k - 1) <= Leading(Insert(x, s, AtLeast()), k)
  {
    if k > 0 {
      if s == [] {
        LeadingWith(x, s, k);
      } else if x >= s[0] {
        LeadingShift(s, k - 1);
        LeadingWith(x, s, k);
      } else {
        LeadingInsert(x, s[1..], k - 1);
        LeadingWith(s[0], Insert(x, s[1..], AtLeast()), k);
      }
    }
  }

  lemma SortedFalls(values: seq<int>)
    requires forall i :: 0 <= i < |values| ==> 0 <= values[i]
    ensures Falling(Sorted(values, AtLeast()))
  {
    SortedAscends(values, AtLeast());
    var s := Sorted(values, AtLeast());
    forall i | 0 <= i < |s|
      ensures 0 <= s[i]
    {
      assert s[i] in multiset(values);
    }
  }

  function Amounts(ids: seq<string>, f: string -> int): (r: seq<int>)
    ensures |r| == |ids| && forall i :: 0 <= i < |r| ==> r[i] == f(ids[i])
  {
    seq(|ids|, i requires 0 <= i < |ids| => f(ids[i]))
  }

  /** Taking one pick out leaves different picks among the other channels. */
  lemma PicksWithout(ids: seq<string>, picks: seq<string>, i: nat)
    requires Distinct(picks) && i < |picks| && ids != [] && picks[i] == ids[0]
    requires forall j :: 0 <= j < |picks| ==> picks[j] in ids
    ensures var rest := Without(picks, i);
            Distinct(rest) && forall j :: 0 <= j < |rest| ==> rest[j] in ids[1..]
  {
    var rest := Without(picks, i);
    assert forall j :: 0 <= j < |rest| ==> rest[j] == picks[if j < i then j else j + 1];
    forall j | 0 <= j < |rest|
      ensures rest[j] in ids[1..]
    {
      var p := rest[j];
      assert p in ids && p != ids[0];
    }
  }

  lemma TopSumStep(ids: seq<string>, f: string -> int, k: nat)
    requires ids != [] && forall i :: 0 <= i < |ids| ==> 0 <= f(ids[i])
    ensures 0 <= TopSum(Amounts(ids[1..], f), k) <= TopSum(Amounts(ids, f), k)
    ensures k > 0 ==> f(ids[0]) + TopSum(Amounts(ids[1..], f), k - 1) <= TopSum(Amounts(ids, f), k)
  {
    var values := Amounts(ids, f);
    assert values[1..] == Amounts(ids[1..], f);
    SortedFalls(values[1..]);
    LeadingGrows(Sorted(values[1..], AtLeast()), 0, k);
    LeadingInsert(values[0], Sorted(values[1..], AtLeast()), k);
  }

  /** Any at most k different channels cost no more together than the k largest amounts. */
  lemma {:induction false} PicksWithinTop(ids: seq<string>, f: string -> int, picks: seq<string>, k: nat)
    requires forall i :: 0 <= i < |ids| ==> 0 <= f(ids[i])
    requires Distinct(picks) && |picks| <= k && forall i :: 0 <= i < |picks| ==> picks[i] in ids
    ensures Sum(picks, f) <= TopSum(Amounts(ids, f), k)
  {
    if ids != [] {
      TopSumStep(ids, f, k);
    }
    if picks != [] {
      assert picks[0] in ids;
      if i :| 0 <= i < |picks| && picks[i] == ids[0] {
        PicksWithout(ids, picks, i);
        SumWithout(picks, i, f);
        PicksWithinTop(ids[1..], f, Without(picks, i), k - 1);
      } else {
        PicksWithinTop(ids[1..], f, picks, k);
      }
    }
  }

  // ---------- The estimate ----------

  /** The price card of a channel, if it has one, and the allowance of a call through it. */
  datatype Terms = Terms(price: Option<Pricing.PriceRates>, promptBytes: nat, textBytes: nat, maxTokens: int)
  {
    function Input(): nat {
      Pricing.InputAllowance(promptBytes, textBytes)
    }
  }

  /** 100000 CNY. */
  const TRIAL_CAP := Money.LIMIT

  function QuoteOf(terms: Result<Terms, string>): Result<int, string> {
    match terms
    case Failure(code) => Failure(code)
    case Success(t) =>
      if t.price.None? then Failure("pricing_unavailable")
      else
        match Pricing.Reservation(t.price.value, t.Input(), t.maxTokens)
        case Failure(_) => Failure("cost_overflow")
        case Success(amount) => Success(amount)
  }

  /** A quoted amount as a number; used only where there is a quote. */
  function AmountUnder(terms: string -> Result<Terms, string>): string -> int {
    (id: string) => var q := QuoteOf(terms(id)); if q.Success? then q.value else 0
  }

  lemma AmountNonNegative(terms: string -> Result<Terms, string>, id: string)
    ensures 0 <= AmountUnder(terms)(id)
  {
    if QuoteOf(terms(id)).Success? {
      var t := terms(id).value;
      var rates := t.price.value;
      assert 0 <= t.Input() * Pricing.HighestInputRate(rates)
             && 0 <= t.maxTokens * Max(rates.peakOutput, rates.offOutput);
    }
  }

  predicate Usable(plan: Plan, id: string) {
    exists c :: c in plan.channels && c.id == id && c.enabled && c.credentialActive
  }

  predicate Counts(plan: Plan, target: string, b: Binding) {
    b.enabled && (target == "" || b.channel == target) && Usable(plan, b.channel)
  }

  /** The bound channels a trial may be charged for, in the order of the bindings. */
  function Estimable(plan: Plan, target: string, bindings: seq<Binding>): seq<string> {
    if bindings == [] then []
    else
      var last := bindings[|bindings| - 1];
      Estimable(plan, target, bindings[..|bindings| - 1]) + if Counts(plan, target, last) then [last.channel] else []
  }

  /** They are exactly the channels the trial may be routed to. */
  lemma {:induction false} EstimableMembers(plan: Plan, target: string, bindings: seq<Binding>, id: string)
    ensures id in Estimable(plan, target, bindings) <==>
      exists i :: 0 <= i < |bindings| && Counts(plan, target, bindings[i]) && bindings[i].channel == id
  {
    if bindings != [] {
      var front := bindings[..|bindings| - 1];
      EstimableMembers(plan, target, front, id);
      if i :| 0 <= i < |front| && Counts(plan, target, front[i]) && front[i].channel == id {
        assert bindings[i] == front[i];
      }
    }
  }

  /** The channels a trial is quoted for are exactly those it may be routed to. */
  lemma QuotedIsRoutable(plan: Plan, target: string, id: string)
    ensures id in Estimable(plan, target, plan.bindings)
            <==> exists c :: c in plan.channels && Routable(plan, target, c) && c.id == id
  {
    EstimableMembers(plan, target, plan.bindings, id);
    if i :| 0 <= i < |plan.bindings| && Counts(plan, target, plan.bindings[i]) && plan.bindings[i].channel == id {
      assert plan.bindings[i] in plan.bindings;
    }
    if c :| c in plan.channels && Routable(plan, target, c) && c.id == id {
      var b :| b in plan.bindings && b.enabled && b.channel == id;
      var i :| 0 <= i < |plan.bindings| && plan.bindings[i] == b;
    }
  }

  /** The quotes of the channels, or the first failure among them. */
  function Quotes(ids: seq<string>, terms: string -> Result<Terms, string>): Result<seq<int>, string> {
    if ids == [] then Success([])
    else
      var front := Quotes(ids[..|ids| - 1], terms);
      if front.Failure? then front
      else
        match QuoteOf(terms(ids[|ids| - 1]))
        case Failure(code) => Failure(code)
        case Success(amount) => Success(front.value + [amount])
  }

  lemma {:induction false} QuotesAreAmounts(ids: seq<string>, terms: string -> Result<Terms, string>)
    ensures Quotes(ids, terms).Success? ==> Quotes(ids, terms).value == Amounts(ids, AmountUnder(terms))
  {
    if ids != [] {
      QuotesAreAmounts(ids[..|ids| - 1], terms);
    }
  }

  /** PolicySettings.Validate. */
  predicate ValidConfig(plan: Plan) {
    plan.settingsValid && 1 <= plan.maxAttempts <= 5
    && (forall b :: b in plan.bindings ==> b.channel != "")
    && (forall i, j :: 0 <= i < j < |plan.bindings| ==> plan.bindings[i].channel != plan.bindings[j].channel)
  }

  /** A trial with a fixed channel makes one attempt. */
  function AttemptLimit(plan: Plan, target: string): int {
    if target != "" then 1 else plan.maxAttempts
  }

  function Estimate(plan: Plan, target: string, sample: Sample, terms: string -> Result<Terms, string>)
    : Result<int, string>
  {
    if !ValidConfig(plan) then Failure("invalid_config")
    else if target != "" && !Bound(plan, target) then Failure("invalid_channel")
    else if sample.SkipsRouting() then Success(0)
    else
      match Quotes(Estimable(plan, target, plan.bindings), terms)
      case Failure(code) => Failure(code)
      case Success(values) =>
        if values == [] then Failure("invalid_channel")
        else
          var total := TopSum(values, AttemptLimit(plan, target));
          if total > TRIAL_CAP then Failure("invalid_budget") else Success(total)
  }

  lemma QuotesStep(ids: seq<string>, id: string, terms: string -> Result<Terms, string>)
    requires Quotes(ids, terms).Success?
    ensures Quotes(ids + [id], terms)
            == if QuoteOf(terms(id)).Failure? then Failure(QuoteOf(terms(id)).error)
               else Success(Quotes(ids, terms).value + [QuoteOf(terms(id)).value])
  {
    assert (ids + [id])[..|ids|] == ids;
  }

  lemma EstimableStep(plan: Plan, target: string, i: nat)
    requires i < |plan.bindings|
    ensures Estimable(plan, target, plan.bindings[..i + 1])
            == Estimable(plan, target, plan.bindings[..i])
               + if Counts(plan, target, plan.bindings[i]) then [plan.bindings[i].channel] else []
  {
    assert plan.bindings[..i + 1][..i] == plan.bindings[..i];
  }

  /** The first failing quote decides. */
  lemma {:induction false} QuotesFail(plan: Plan, target: string, terms: string -> Result<Terms, string>,
                                     i: nat, code: string)
    requires i <= |plan.bindings| && Quotes(Estimable(plan, target, plan.bindings[..i]), terms) == Failure(code)
    ensures Quotes(Estimable(plan, target, plan.bindings), terms) == Failure(code)
    decreases |plan.bindings| - i
  {
    if i < |plan.bindings| {
      EstimableStep(plan, target, i);
      var ids, id := Estimable(plan, target, plan.bindings[..i]), plan.bindings[i].channel;
      assert (ids + [id])[..|ids|] == ids;
      assert ids + [] == ids;
      QuotesFail(plan, target, terms, i + 1, code);
    } else {
      assert plan.bindings[..i] == plan.bindings;
    }
  }

  /** The loop that collects the quotes. */
  method CollectQuotes(plan: Plan, target: string, terms: string -> Result<Terms, string>)
    returns (r: Result<seq<int>, string>)
    ensures r == Quotes(Estimable(plan, target, plan.bindings), terms)
  {
    var values: seq<int> := [];
    for i := 0 to |plan.bindings|
      invariant Quotes(Estimable(plan, target, plan.bindings[..i]), terms) == Success(values)
    {
      EstimableStep(plan, target, i);
      var b := plan.bindings[i];
      ghost var ids := Estimable(plan, target, plan.bindings[..i]);
      assert ids + [] == ids;
      if !Counts(plan, target, b) {
        continue;
      }
      QuotesStep(ids, b.channel, terms);
      match QuoteOf(terms(b.channel)) {
        case Failure(code) =>
          QuotesFail(plan, target, terms, i + 1, code);
          return Failure(code);
        case Success(amount) => values := values + [amount];
      }
    }
    assert plan.bindings[..|plan.bindings|] == plan.bindings;
    return Success(values);
  }

  /** The loop that adds up the largest quotes, refusing a total beyond the cap before forming it. */
  method AddLeading(sorted: seq<int>, limit: nat) returns (r: Result<int, string>)
    requires Falling(sorted)
    ensures r == if Leading(sorted, limit) > TRIAL_CAP then Failure("invalid_budget")
                 else Success(Leading(sorted, limit))
  {
    var total := 0;
    for i := 0 to Min(limit, |sorted|)
      invariant total == Leading(sorted, i) <= TRIAL_CAP
    {
      LeadingStep(sorted, i);
      if sorted[i] > TRIAL_CAP - total {
        LeadingGrows(sorted, i + 1, limit);
        return Failure("invalid_budget");
      }
      total := total + sorted[i];
    }
    LeadingWhole(sorted, limit);
    return Success(total);
  }

  lemma {:induction false} LeadingWhole(s: seq<int>, k: nat)
    ensures Leading(s, k) == Leading(s, Min(k, |s|))
  {
    if k > 0 && s != [] {
      LeadingWhole(s[1..], k - 1);
    }
  }

  method EstimateTrial(plan: Plan, target: string, sample: Sample, terms: string -> Result<Terms, string>)
    returns (r: Result<int, string>)
    ensures r == Estimate(plan, target, sample, terms)
  {
    if !ValidConfig(plan) {
      return Failure("invalid_config");
    }
    if target != "" && !Bound(plan, target) {
      return Failure("invalid_channel");
    }
    if sample.SkipsRouting() {
      return Success(0);
    }
    var quotes := CollectQuotes(plan, target, terms);
    if quotes.Failure? {
      return Failure(quotes.error);
    }
    if quotes.value == [] {
      return Failure("invalid_channel");
    }
    QuotesFalling(Estimable(plan, target, plan.bindings), terms);
    r := AddLeading(Sorted(quotes.value, AtLeast()), AttemptLimit(plan, target));
  }

  lemma QuotesFalling(ids: seq<string>, terms: string -> Result<Terms, string>)
    requires Quotes(ids, terms).Success?
    ensures Falling(Sorted(Quotes(ids, terms).value, AtLeast()))
  {
    QuotesAreAmounts(ids, terms);
    forall i | 0 <= i < |ids|
      ensures 0 <= AmountUnder(terms)(ids[i])
    {
      AmountNonNegative(terms, ids[i]);
    }
    SortedFalls(Quotes(ids, terms).value);
  }

  // ---------- The bill ----------

  /** When each channel's call of the trial started and ended, and the tariff periods. */
  datatype Times = Times(calendar: Ledger.Calendar, started: string -> int, ended: string -> int)

  /** What one attempt's cost row counts: its charge once there is one, its reservation until then. */
  function BillOf(terms: string -> Result<Terms, string>, times: Times): Attempt -> int {
    (a: Attempt) =>
      var reserved := AmountUnder(terms)(a.channel);
      if !a.settled || terms(a.channel).Failure? then reserved
      else
        var entry := Ledger.Entry("", "", Ledger.Trial,
                                  terms(a.channel).value.price, times.started(a.channel), reserved, false);
        var (charge, _) := Ledger.Charge(entry, times.calendar, a.usage, times.ended(a.channel));
        if charge.Some? then charge.value else reserved
  }

  /** The call kept to the allowance its reservation was made for, and its report adds up. */
  predicate WithinAllowance(t: Terms, a: Attempt) {
    a.sent == a.usage.attempted
    && (t.price.Some? ==> t.price.value.Valid())
    && (a.sent ==>
          AddsUp(a.usage) && a.usage.prompt <= t.promptBytes + t.textBytes + 1024 && a.usage.completion <= t.maxTokens)
  }

  lemma BillWithinQuote(terms: string -> Result<Terms, string>, times: Times, a: Attempt)
    requires QuoteOf(terms(a.channel)).Success? && WithinAllowance(terms(a.channel).value, a)
    ensures 0 <= BillOf(terms, times)(a) <= if MayCost()(a) then AmountUnder(terms)(a.channel) else 0
  {
    AmountNonNegative(terms, a.channel);
    if a.settled && a.sent {
      var t := terms(a.channel).value;
      Pricing.CalculateWithinReservation(t.price.value, a.usage, t.Input(), t.maxTokens,
        times.calendar.period(times.started(a.channel)), times.calendar.period(times.ended(a.channel)));
    }
  }

  /** The channels of the attempts that may cost something. */
  function Payers(attempts: seq<Attempt>): seq<string> {
    if attempts == [] then []
    else
      var last := attempts[|attempts| - 1];
      Payers(attempts[..|attempts| - 1]) + if MayCost()(last) then [last.channel] else []
  }

  lemma {:induction false} PayerAttempted(attempts: seq<Attempt>, c: string) returns (i: nat)
    requires c in Payers(attempts)
    ensures i < |attempts| && attempts[i].channel == c
  {
    var last := |attempts| - 1;
    if c in Payers(attempts[..last]) {
      i := PayerAttempted(attempts[..last], c);
    } else {
      i := last;
    }
  }

  lemma {:induction false} PayersDiffer(attempts: seq<Attempt>)
    requires DistinctAttempts(attempts)
    ensures Distinct(Payers(attempts)) && |Payers(attempts)| == Count(attempts, MayCost())
  {
    if attempts != [] {
      var front, last := attempts[..|attempts| - 1], attempts[|attempts| - 1];
      PayersDiffer(front);
      forall k | 0 <= k < |Payers(front)|
        ensures Payers(front)[k] != last.channel
      {
        var i := PayerAttempted(front, Payers(front)[k]);
        assert front[i] == attempts[i];
      }
    }
  }

  lemma {:induction false} PayersCarryTheBill(attempts: seq<Attempt>, bill: Attempt -> int, amount: string -> int)
    requires forall i :: 0 <= i < |attempts| ==>
      0 <= bill(attempts[i]) <= if MayCost()(attempts[i]) then amount(attempts[i].channel) else 0
    ensures 0 <= Sum(attempts, bill) <= Sum(Payers(attempts), amount)
  {
    if attempts != [] {
      var front, last := attempts[..|attempts| - 1], attempts[|attempts| - 1];
      PayersCarryTheBill(front, bill, amount);
      assert Payers(front) + [] == Payers(front);
      SumLast(Payers(front), last.channel, amount);
    }
  }

  lemma {:induction false} QuotedAll(ids: seq<string>, terms: string -> Result<Terms, string>)
    requires Quotes(ids, terms).Success?
    ensures forall i :: 0 <= i < |ids| ==> QuoteOf(terms(ids[i])).Success? && 0 <= AmountUnder(terms)(ids[i])
  {
    if ids != [] {
      QuotedAll(ids[..|ids| - 1], terms);
      AmountNonNegative(terms, ids[|ids| - 1]);
    }
  }

  /** A trial's attempts as the attempt loop leaves them: on different channels of the estimate, no more
      of them costly than the limit, and none beyond its allowance. */
  ghost predicate FairTrial(plan: Plan, target: string, sample: Sample, terms: string -> Result<Terms, string>,
                            attempts: seq<Attempt>)
  {
    DistinctAttempts(attempts)
    && Count(attempts, MayCost()) <= AttemptLimit(plan, target)
    && (sample.SkipsRouting() ==> attempts == [])
    && forall i :: 0 <= i < |attempts| ==>
         attempts[i].channel in Estimable(plan, target, plan.bindings)
         && (terms(attempts[i].channel).Success? ==> WithinAllowance(terms(attempts[i].channel).value, attempts[i]))
  }

  /** The attempt loop leaves such attempts when its candidates are channels of the estimate and every call
      keeps to its allowance. */
  lemma AttemptLoopIsFair(log: AttemptLog, taken: set<string>, cs: seq<Routing.Candidate>,
                          plan: Plan, target: string, sample: Sample, terms: string -> Result<Terms, string>)
    requires log.Consistent(taken) && taken <= Names(cs) && Count(log.attempts, MayCost()) <= AttemptLimit(plan, target)
    requires !sample.SkipsRouting()
    requires forall i :: 0 <= i < |cs| ==> cs[i].id in Estimable(plan, target, plan.bindings)
    requires forall i :: 0 <= i < |log.attempts| && terms(log.attempts[i].channel).Success? ==>
      WithinAllowance(terms(log.attempts[i].channel).value, log.attempts[i])
    ensures FairTrial(plan, target, sample, terms, log.attempts)
  {
    forall i | 0 <= i < |log.attempts|
      ensures log.attempts[i].channel in Estimable(plan, target, plan.bindings)
    {
      assert log.attempts[i].channel in Names(cs);
    }
  }

  lemma FairBills(plan: Plan, target: string, sample: Sample, terms: string -> Result<Terms, string>,
                  times: Times, attempts: seq<Attempt>, i: nat)
    requires FairTrial(plan, target, sample, terms, attempts) && i < |attempts|
    requires Quotes(Estimable(plan, target, plan.bindings), terms).Success?
    ensures 0 <= BillOf(terms, times)(attempts[i])
              <= if MayCost()(attempts[i]) then AmountUnder(terms)(attempts[i].channel) else 0
  {
    var ids := Estimable(plan, target, plan.bindings);
    QuotedAll(ids, terms);
    var k :| 0 <= k < |ids| && ids[k] == attempts[i].channel;
    BillWithinQuote(terms, times, attempts[i]);
  }

  lemma FairPayers(plan: Plan, target: string, sample: Sample, terms: string -> Result<Terms, string>,
                   attempts: seq<Attempt>)
    requires FairTrial(plan, target, sample, terms, attempts)
    ensures var picks := Payers(attempts);
            Distinct(picks) && |picks| <= AttemptLimit(plan, target)
            && forall i :: 0 <= i < |picks| ==> picks[i] in Estimable(plan, target, plan.bindings)
  {
    PayersDiffer(attempts);
    var picks := Payers(attempts);
    forall i | 0 <= i < |picks|
      ensures picks[i] in Estimable(plan, target, plan.bindings)
    {
      var j := PayerAttempted(attempts, picks[i]);
    }
  }

  /** The budget guarantee of one trial: what its attempts cost and hold together, known charges and open
      reservations, never exceeds the estimate. */
  lemma TrialWithinEstimate(plan: Plan, target: string, sample: Sample, terms: string -> Result<Terms, string>,
                            times: Times, attempts: seq<Attempt>)
    requires Estimate(plan, target, sample, terms).Success? && FairTrial(plan, target, sample, terms, attempts)
    ensures 0 <= Sum(attempts, BillOf(terms, times)) <= Estimate(plan, target, sample, terms).value
  {
    if !sample.SkipsRouting() {
      var ids := Estimable(plan, target, plan.bindings);
      QuotesAreAmounts(ids, terms);
      QuotedAll(ids, terms);
      forall i | 0 <= i < |attempts|
        ensures 0 <= BillOf(terms, times)(attempts[i])
                  <= if MayCost()(attempts[i]) then AmountUnder(terms)(attempts[i].channel) else 0
      {
        FairBills(plan, target, sample, terms, times, attempts, i);
      }
      PayersCarryTheBill(attempts, BillOf(terms, times), AmountUnder(terms));
      FairPayers(plan, target, sample, terms, attempts);
      PicksWithinTop(ids, AmountUnder(terms), Payers(attempts), AttemptLimit(plan, target));
    }
  }
}
