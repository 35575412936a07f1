/** What the estimate of a trial means (evaluation_runs.go:223-273): the most its calls can be charged for, over every
    choice of channels the trial may be routed to. */
module EvaluationEstimates {
  import opened Base
  import opened Counting
  import opened Sorting
  import opened EvaluationPlan
  import opened EvaluationBudget
  import opened AttemptLoop
  import Pricing

  predicate RoutableTo(plan: Plan, target: string, id: string) {
    exists c :: c in plan.channels && Routable(plan, target, c) && c.id == id
  }

  /** The channels the calls of one trial may go to: different ones, one for a fixed target and otherwise as many as the
      policy has attempts. */
  ghost predicate MayCall(plan: Plan, target: string, picks: seq<string>) {
    Distinct(picks) && |picks| <= (if target == "" then plan.maxAttempts else 1)
    && forall i :: 0 <= i < |picks| ==> RoutableTo(plan, target, picks[i])
  }

  // ---------- The largest amounts are those of some choice ----------

  /** One value more either takes a leading place or leaves the leading ones as they are. */
  lemma {:induction false} LeadingEither(x: int, s: seq<int>, k: nat)
    ensures Leading(Insert(x, s, AtLeast()), k) == Leading(s, k)
            || (k > 0 && Leading(Insert(x, s, AtLeast()), k) == x + Leading(s, k - 1))
  {
    if k > 0 {
      if s == [] || x >= s[0] {
        LeadingWith(x, s, k);
      } else {
        LeadingEither(x, s[1..], k - 1);
        LeadingWith(s[0], Insert(x, s[1..], AtLeast()), k);
      }
    }
  }

  lemma TopEither(ids: seq<string>, f: string -> int, k: nat)
    requires ids != []
    ensures var rest := Amounts(ids[1..], f);
            TopSum(Amounts(ids, f), k) == TopSum(rest, k)
            || (k > 0 && TopSum(Amounts(ids, f), k) == f(ids[0]) + TopSum(rest, k - 1))
  {
    assert Amounts(ids, f)[1..] == Amounts(ids[1..], f);
    LeadingEither(f(ids[0]), Sorted(Amounts(ids[1..], f), AtLeast()), k);
  }

  ghost predicate PicksOf(picks: seq<string>, ids: seq<string>, k: int) {
    Distinct(picks) && |picks| <= k && forall i :: 0 <= i < |picks| ==> picks[i] in ids
  }

  lemma PickFirstToo(picks: seq<string>, ids: seq<string>, k: int)
    requires ids != [] && Distinct(ids) && PicksOf(picks, ids[1..], k)
    ensures PicksOf(picks, ids, k) && PicksOf(picks + [ids[0]], ids, k + 1)
  {
    assert forall i :: 0 <= i < |picks| ==> picks[i] in ids[1..];
    assert ids[0] !in ids[1..];
  }

  lemma {:induction false} TopIsPicked(ids: seq<string>, f: string -> int, k: nat) returns (picks: seq<string>)
    requires Distinct(ids)
    ensures PicksOf(picks, ids, k) && Sum(picks, f) == TopSum(Amounts(ids, f), k)
  {
    picks := [];
    if ids != [] {
      TopEither(ids, f, k);
      if TopSum(Amounts(ids, f), k) == TopSum(Amounts(ids[1..], f), k) {
        picks := TopIsPicked(ids[1..], f, k);
        PickFirstToo(picks, ids, k);
      } else {
        var others := TopIsPicked(ids[1..], f, k - 1);
        PickFirstToo(others, ids, k - 1);
        SumLast(others, ids[0], f);
        picks := others + [ids[0]];
      }
    }
  }

  lemma {:induction false} DifferentChannels(plan: Plan, target: string, bindings: seq<Binding>)
    requires forall i, j :: 0 <= i < j < |bindings| ==> bindings[i].channel != bindings[j].channel
    ensures Distinct(Estimable(plan, target, bindings))
  {
    if bindings != [] {
      var front, last := bindings[..|bindings| - 1], bindings[|bindings| - 1];
      DifferentChannels(plan, target, front);
      forall k | 0 <= k < |Estimable(plan, target, front)|
        ensures Estimable(plan, target, front)[k] != last.channel
      {
        EstimableMembers(plan, target, front, Estimable(plan, target, front)[k]);
      }
    }
  }

  lemma {:induction false} QuotedTogether(ids: seq<string>, terms: string -> Result<Terms, string>)
    ensures Quotes(ids, terms).Success? <==> forall i :: 0 <= i < |ids| ==> QuoteOf(terms(ids[i])).Success?
    ensures Quotes(ids, terms).Failure? ==>
      exists i :: 0 <= i < |ids| && QuoteOf(terms(ids[i])) == Failure(Quotes(ids, terms).error)
  {
    if ids != [] {
      QuotedTogether(ids[..|ids| - 1], terms);
    }
  }

  // ---------- The estimate ----------

  /** Every channel the trial may be routed to has a quote. */
  ghost predicate AllQuoted(plan: Plan, target: string, terms: string -> Result<Terms, string>) {
    forall id :: RoutableTo(plan, target, id) ==> QuoteOf(terms(id)).Success?
  }

  /** No choice of channels comes to more than this. */
  ghost predicate AtMost(plan: Plan, target: string, terms: string -> Result<Terms, string>, amount: int) {
    forall picks :: MayCall(plan, target, picks) ==> Sum(picks, AmountUnder(terms)) <= amount
  }

  lemma TotalIsMost(plan: Plan, target: string, terms: string -> Result<Terms, string>, amount: int)
    returns (picks: seq<string>)
    requires ValidConfig(plan)
    ensures var total := TopSum(Amounts(Estimable(plan, target, plan.bindings), AmountUnder(terms)),
                                AttemptLimit(plan, target));
            MayCall(plan, target, picks) && Sum(picks, AmountUnder(terms)) == total
            && (AtMost(plan, target, terms, amount) <==> total <= amount)
  {
    var ids, f := Estimable(plan, target, plan.bindings), AmountUnder(terms);
    var limit := AttemptLimit(plan, target);
    DifferentChannels(plan, target, plan.bindings);
    picks := TopIsPicked(ids, f, limit);
    forall i | 0 <= i < |picks|
      ensures RoutableTo(plan, target, picks[i])
    {
      QuotedIsRoutable(plan, target, picks[i]);
    }
    forall other | MayCall(plan, target, other)
      ensures Sum(other, f) <= TopSum(Amounts(ids, f), limit)
    {
      MostForAny(plan, target, terms, other);
    }
  }

  lemma MostForAny(plan: Plan, target: string, terms: string -> Result<Terms, string>, picks: seq<string>)
    requires ValidConfig(plan) && MayCall(plan, target, picks)
    ensures Sum(picks, AmountUnder(terms))
            <= TopSum(Amounts(Estimable(plan, target, plan.bindings), AmountUnder(terms)), AttemptLimit(plan, target))
  {
    var ids, f := Estimable(plan, target, plan.bindings), AmountUnder(terms);
    forall i | 0 <= i < |ids|
      ensures 0 <= f(ids[i])
    {
      AmountNonNegative(terms, ids[i]);
    }
    forall i | 0 <= i < |picks|
      ensures picks[i] in ids
    {
      assert RoutableTo(plan, target, picks[i]);
      QuotedIsRoutable(plan, target, picks[i]);
    }
    PicksWithinTop(ids, f, picks, AttemptLimit(plan, target));
  }

  lemma QuotesExactly(plan: Plan, target: string, terms: string -> Result<Terms, string>)
    ensures var ids := Estimable(plan, target, plan.bindings);
            (Quotes(ids, terms).Success? <==> AllQuoted(plan, target, terms))
            && (ids == [] <==> forall id :: !RoutableTo(plan, target, id))
            && (Quotes(ids, terms).Failure? ==>
                  exists id :: RoutableTo(plan, target, id) && QuoteOf(terms(id)) == Failure(Quotes(ids, terms).error))
  {
    var ids := Estimable(plan, target, plan.bindings);
    forall id
      ensures id in ids <==> RoutableTo(plan, target, id)
    {
      QuotedIsRoutable(plan, target, id);
    }
    QuotedTogether(ids, terms);
    assert forall i :: 0 <= i < |ids| ==> ids[i] in ids;
    if ids != [] {
      assert RoutableTo(plan, target, ids[0]);
    }
  }

  /** The estimate of a trial that needs a call is the most its calls can be charged for: it exists if and only if the
      trial has a channel, every one it may be routed to has a quote, and no choice of them comes to more than
      100000 CNY; no choice then comes to more than the estimate, and some choice comes to just that. */
  lemma EstimateIsWorstCase(plan: Plan, target: string, sample: Sample, terms: string -> Result<Terms, string>)
    requires ValidConfig(plan) && !sample.SkipsRouting()
    ensures var estimate := Estimate(plan, target, sample, terms);
            (estimate.Success?
             <==> (exists id :: RoutableTo(plan, target, id)) && AllQuoted(plan, target, terms)
                  && AtMost(plan, target, terms, 100_000_000_000_000_000))
            && (estimate.Success? ==>
                  AtMost(plan, target, terms, estimate.value)
                  && exists picks :: MayCall(plan, target, picks) && Sum(picks, AmountUnder(terms)) == estimate.value)
  {
    var ids := Estimable(plan, target, plan.bindings);
    QuotesExactly(plan, target, terms);
    QuotesAreAmounts(ids, terms);
    var total := TopSum(Amounts(ids, AmountUnder(terms)), AttemptLimit(plan, target));
    var picks := TotalIsMost(plan, target, terms, 100_000_000_000_000_000);
    var same := TotalIsMost(plan, target, terms, total);
    if id :| RoutableTo(plan, target, id) {
      var c :| c in plan.channels && Routable(plan, target, c) && c.id == id;
    }
  }

  /** A trial that a keyword rule answers costs nothing, and a broken configuration has no estimate. */
  lemma NothingToEstimate(plan: Plan, target: string, sample: Sample, terms: string -> Result<Terms, string>)
    requires sample.SkipsRouting() || !ValidConfig(plan)
    ensures Estimate(plan, target, sample, terms)
            == if !ValidConfig(plan) then Failure("invalid_config")
               else if target != "" && !Bound(plan, target) then Failure("invalid_channel")
               else Success(0)
  {
  }

  // ---------- The bill of an attempt ----------

  /** What an attempt counts against the budget, exactly: nothing when it was settled unsent, its bill when it was
      settled with a verified usage, and what was quoted for it as long as its charge is not known. */
  lemma BilledExactly(terms: string -> Result<Terms, string>, times: Times, a: Attempt)
    requires QuoteOf(terms(a.channel)).Success? && WithinAllowance(terms(a.channel).value, a)
    ensures var t := terms(a.channel).value;
            BillOf(terms, times)(a)
            == if a.settled && !a.sent then 0
               else if a.settled && a.usage.reported then
                 Pricing.Bill(t.price.value, a.usage, times.calendar.period(times.started(a.channel)),
                              times.calendar.period(times.ended(a.channel)))
               else QuoteOf(terms(a.channel)).value
  {
    var t := terms(a.channel).value;
    if a.settled && a.sent && a.usage.reported {
      var start, end := times.calendar.period(times.started(a.channel)), times.calendar.period(times.ended(a.channel));
      Pricing.ChargedItsBill(t.price.value, a.usage, start, end);
      Pricing.CalculateWithinReservation(t.price.value, a.usage, t.Input(), t.maxTokens, start, end);
    }
  }
}
