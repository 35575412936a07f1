/** Price cards and the two costs derived from them (pricing.go): what is reserved before a call
    and what is charged after it, in pico-CNY on signed 64-bit integers. */
module Pricing {
  import opened Base
  import opened UsageReports

  datatype Period = Peak | OffPeak

  /** Micro-CNY per million tokens, that is pico-CNY per token. */
  datatype PriceRates = PriceRates(
    offHit: int, offMiss: int, offOutput: int,
    peakHit: int, peakMiss: int, peakOutput: int)
  {
    predicate Valid() {
      forall v | v in [offHit, offMiss, offOutput, peakHit, peakMiss, peakOutput] :: 0 <= v <= 1_000_000_000
    }

    function Values(period: Period): (int, int, int) {
      if period == Peak then (peakHit, peakMiss, peakOutput) else (offHit, offMiss, offOutput)
    }
  }

  datatype CostError = OutOfRange

  /** Pending, calculated and estimated in the source; the ledger has its own statuses. */
  datatype CostStatus = Unverified | Measured | HigherEstimate

  /** The true cost of three token counts, in unbounded arithmetic. */
  function TrueCost(hit: int, miss: int, output: int, hitRate: int, missRate: int, outRate: int): int {
    hit * hitRate + miss * missRate + output * outRate
  }

  /** The cost when it exists: nothing negative and the true sum within int64. */
  function CheckedCost(hit: int, miss: int, output: int, hitRate: int, missRate: int, outRate: int)
    : Result<int, CostError>
  {
    var sum := TrueCost(hit, miss, output, hitRate, missRate, outRate);
    if 0 <= hit && 0 <= miss && 0 <= output && 0 <= hitRate && 0 <= missRate && 0 <= outRate && sum <= MAX_INT64
    then Success(sum) else Failure(OutOfRange)
  }

  /** Comparing with a quotient decides whether the product fits, without forming it. */
  lemma DivisionGuard(tokens: int, rate: int, room: int)
    requires 0 <= tokens && 0 < rate
    ensures tokens > room / rate <==> tokens * rate > room
  {
    var q := room / rate;
    assert q * rate <= room < q * rate + rate;
    if tokens > q {
      ScaleUp(q + 1, tokens, rate);
      assert (q + 1) * rate == q * rate + rate;
    } else {
      ScaleUp(tokens, q, rate);
    }
  }

  /** The source's loop never forms a product or a sum beyond int64, and its division guards
      refuse exactly the inputs whose true cost does not fit. */
  method SafeCost(hit: int, miss: int, output: int, hitRate: int, missRate: int, outRate: int)
    returns (r: Result<int, CostError>)
    ensures r == CheckedCost(hit, miss, output, hitRate, missRate, outRate)
  {
    var items := [(hit, hitRate), (miss, missRate), (output, outRate)];
    var total := 0;
    for i := 0 to |items|
      invariant forall k :: 0 <= k < i ==> 0 <= items[k].0 && 0 <= items[k].1
      invariant 0 <= total <= MAX_INT64
      invariant total == (if i > 0 then hit * hitRate else 0) + (if i > 1 then miss * missRate else 0)
                         + (if i > 2 then output * outRate else 0)
    {
      var (tokens, rate) := items[i];
      if tokens >= 0 && rate > 0 {
        DivisionGuard(tokens, rate, MAX_INT64 - total);
      }
      if tokens < 0 || rate < 0 || (rate > 0 && tokens > (MAX_INT64 - total) / rate) {
        CostOverflow(hit, miss, output, hitRate, missRate, outRate, i, total);
        return Failure(OutOfRange);
      }
      total := total + tokens * rate;
    }
    assert items[0] == (hit, hitRate) && items[1] == (miss, missRate) && items[2] == (output, outRate);
    return Success(total);
  }

  /** A partial sum that leaves int64 already refutes the full sum, since no term is negative. */
  lemma CostOverflow(hit: int, miss: int, output: int, hitRate: int, missRate: int, outRate: int, i: int, total: int)
    requires 0 <= i < 3
    requires total == (if i > 0 then hit * hitRate else 0) + (if i > 1 then miss * missRate else 0)
    requires var (tokens, rate) := [(hit, hitRate), (miss, missRate), (output, outRate)][i];
             tokens < 0 || rate < 0 || total + tokens * rate > MAX_INT64
    ensures CheckedCost(hit, miss, output, hitRate, missRate, outRate) == Failure(OutOfRange)
  {
    var items := [(hit, hitRate), (miss, missRate), (output, outRate)];
    var (tokens, rate) := items[i];
    assert tokens * rate == (if i == 0 then hit * hitRate else if i == 1 then miss * missRate else output * outRate);
    if 0 <= hit && 0 <= miss && 0 <= output && 0 <= hitRate && 0 <= missRate && 0 <= outRate {
      ScaleUp(0, hit, hitRate);
      ScaleUp(0, miss, missRate);
      ScaleUp(0, output, outRate);
    }
  }

  /** Tokens a reservation allows for: the bytes of prompt and text plus a framing allowance. */
  function InputAllowance(promptBytes: nat, textBytes: nat): nat {
    promptBytes + textBytes + 1024
  }

  function HighestInputRate(rates: PriceRates): int {
    Max(Max(rates.peakHit, rates.offHit), Max(rates.peakMiss, rates.offMiss))
  }

  function Reservation(rates: PriceRates, input: nat, maxTokens: int): Result<int, CostError> {
    CheckedCost(0, input, maxTokens, 0, HighestInputRate(rates), Max(rates.peakOutput, rates.offOutput))
  }

  /** The rates applied to a call: those of its period, or the higher ones when it crossed a boundary;
      without a cache split every input token is billed at the dearer input rate. */
  function AppliedRates(rates: PriceRates, split: bool, start: Period, end: Period): (int, int, int) {
    var (h, m, o) :=
      if start != end then
        (Max(rates.peakHit, rates.offHit), Max(rates.peakMiss, rates.offMiss), Max(rates.peakOutput, rates.offOutput))
      else rates.Values(start);
    (h, if split then m else Max(h, m), o)
  }

  /** PriceCard.calculate: an amount (or an arithmetic error) together with its status. */
  function Calculate(rates: PriceRates, u: Usage, start: Period, end: Period): (Result<int, CostError>, CostStatus) {
    if !u.reported then (Success(0), Unverified)
    else
      var split := u.hit.Some? && u.miss.Some?;
      var hit := if split then u.hit.value else 0;
      var miss := if split then u.miss.value else u.prompt;
      var (h, m, o) := AppliedRates(rates, split, start, end);
      (CheckedCost(hit, miss, u.completion, h, m, o),
       if !split || start != end then HigherEstimate else Measured)
  }

  /** Fewer tokens at lower rates cost no more, and their cost exists when the dearer one does. */
  lemma CheaperCost(hit: int, miss: int, output: int, h: int, m: int, o: int,
                    input: int, maxTokens: int, top: int, outTop: int)
    requires 0 <= hit && 0 <= miss && hit + miss <= input && 0 <= output <= maxTokens
    requires 0 <= h <= top && 0 <= m <= top && 0 <= o <= outTop
    requires CheckedCost(0, input, maxTokens, 0, top, outTop).Success?
    ensures CheckedCost(hit, miss, output, h, m, o).Success?
    ensures 0 <= CheckedCost(hit, miss, output, h, m, o).value
              <= CheckedCost(0, input, maxTokens, 0, top, outTop).value
  {
    assert 0 <= hit * h <= hit * top;
    assert 0 <= miss * m <= miss * top;
    assert hit * top + miss * top == (hit + miss) * top <= input * top;
    assert 0 <= output * o <= output * outTop <= maxTokens * outTop;
  }

  /** The pricing bound: whatever the tariff, the periods and the cache split, a call that stayed
      within its allowance never costs more than was reserved for it, and its cost never overflows. */
  lemma CalculateWithinReservation(rates: PriceRates, u: Usage, input: nat, maxTokens: int, start: Period, end: Period)
    requires rates.Valid() && AddsUp(u)
    requires u.prompt <= input && u.completion <= maxTokens
    requires Reservation(rates, input, maxTokens).Success?
    ensures Calculate(rates, u, start, end).0.Success?
    ensures 0 <= Calculate(rates, u, start, end).0.value <= Reservation(rates, input, maxTokens).value
  {
    var top, outTop := HighestInputRate(rates), Max(rates.peakOutput, rates.offOutput);
    if !u.reported {
      RatesInRange(rates);
      CostNotNegative(0, input, maxTokens, 0, top, outTop);
    } else {
      var (h, m, o) := AppliedRates(rates, u.hit.Some?, start, end);
      AppliedRatesBounded(rates, u.hit.Some?, start, end);
      if u.hit.Some? {
        CheaperCost(u.hit.value, u.miss.value, u.completion, h, m, o, input, maxTokens, top, outTop);
      } else {
        CheaperCost(0, u.prompt, u.completion, h, m, o, input, maxTokens, top, outTop);
      }
    }
  }

  lemma CostNotNegative(hit: int, miss: int, output: int, h: int, m: int, o: int)
    requires CheckedCost(hit, miss, output, h, m, o).Success?
    ensures 0 <= CheckedCost(hit, miss, output, h, m, o).value
  {
    ScaleUp(0, hit, h);
    ScaleUp(0, miss, m);
    ScaleUp(0, output, o);
  }

  lemma AppliedRatesBounded(rates: PriceRates, split: bool, start: Period, end: Period)
    requires rates.Valid()
    ensures var (h, m, o) := AppliedRates(rates, split, start, end);
            && 0 <= h <= HighestInputRate(rates) && 0 <= m <= HighestInputRate(rates)
            && 0 <= o <= Max(rates.peakOutput, rates.offOutput)
  {
    RatesInRange(rates);
  }

  lemma RatesInRange(rates: PriceRates)
    requires rates.Valid()
    ensures 0 <= rates.offHit && 0 <= rates.offMiss && 0 <= rates.offOutput
    ensures 0 <= rates.peakHit && 0 <= rates.peakMiss && 0 <= rates.peakOutput
  {
    var all := [rates.offHit, rates.offMiss, rates.offOutput, rates.peakHit, rates.peakMiss, rates.peakOutput];
    assert all[0] in all && all[1] in all && all[2] in all && all[3] in all && all[4] in all && all[5] in all;
  }

  /** At these rates and periods the charge exists and costs no more than was reserved, if anything could be. */
  predicate Covered(rates: PriceRates, u: Usage, input: nat, maxTokens: int, start: Period, end: Period) {
    var reserved, charge := Reservation(rates, input, maxTokens), Calculate(rates, u, start, end).0;
    reserved.Success? ==> charge.Success? && charge.value <= reserved.value
  }

  const ONLY_INPUT := PriceRates(1, 1, 0, 1, 1, 0)
  const ONLY_OUTPUT := PriceRates(0, 0, 1, 0, 0, 1)

  /** Two tariffs that tell the counts apart: one that charges input only and one that charges output only. */
  lemma TellingTariffs(u: Usage, input: nat, maxTokens: nat, period: Period)
    requires u.reported && AddsUp(u)
    requires u.prompt <= MAX_INT64 && u.completion <= MAX_INT64 && input <= MAX_INT64 && maxTokens <= MAX_INT64
    ensures Covered(ONLY_INPUT, u, input, maxTokens, period, period) <==> u.prompt <= input
    ensures Covered(ONLY_OUTPUT, u, input, maxTokens, period, period) <==> u.completion <= maxTokens
  {
  }

  /** The allowance is exactly what makes the bound hold: a reported usage is covered by its reservation under
      every valid tariff and every pair of periods if and only if both its counts stay within the allowance. */
  lemma CoveredIffWithinAllowance(u: Usage, input: nat, maxTokens: nat)
    requires u.reported && AddsUp(u)
    requires u.prompt <= MAX_INT64 && u.completion <= MAX_INT64 && input <= MAX_INT64 && maxTokens <= MAX_INT64
    ensures (u.prompt <= input && u.completion <= maxTokens)
            <==> (forall rates: PriceRates, start, end ::
                    rates.Valid() ==> Covered(rates, u, input, maxTokens, start, end))
  {
    TellingTariffs(u, input, maxTokens, Peak);
    assert ONLY_INPUT.Valid() && ONLY_OUTPUT.Valid();
    if u.prompt <= input && u.completion <= maxTokens {
      forall rates: PriceRates, start, end | rates.Valid()
        ensures Covered(rates, u, input, maxTokens, start, end)
      {
        if Reservation(rates, input, maxTokens).Success? {
          CalculateWithinReservation(rates, u, input, maxTokens, start, end);
        }
      }
    }
  }

  /** A report that was not verified never becomes an authoritative amount. */
  lemma UnreportedStaysPending(rates: PriceRates, u: Usage, start: Period, end: Period)
    ensures Calculate(rates, u, start, end).1 == Unverified <==> !u.reported
  {
  }

  // ---------- The charge, said of the tariff itself ----------

  /** What a token is billed at: the dearer of its rates when the call started and when it ended. */
  function Dearer(peakRate: int, offRate: int, start: Period, end: Period): int {
    Max(if start == Peak then peakRate else offRate, if end == Peak then peakRate else offRate)
  }

  /** The bill of a reported usage. With a cache split, every token at its own rate; without one, the whole prompt at
      the dearer input rate. */
  function Bill(rates: PriceRates, u: Usage, start: Period, end: Period): int {
    var hitRate := Dearer(rates.peakHit, rates.offHit, start, end);
    var missRate := Dearer(rates.peakMiss, rates.offMiss, start, end);
    var output := u.completion * Dearer(rates.peakOutput, rates.offOutput, start, end);
    if u.hit.Some? && u.miss.Some? then u.hit.value * hitRate + u.miss.value * missRate + output
    else u.prompt * Max(hitRate, missRate) + output
  }

  /** A reported usage is charged its bill if that fits int64, and measured exactly when the split was reported and
      the call stayed in one period; anything else is a higher estimate. */
  lemma ChargedItsBill(rates: PriceRates, u: Usage, start: Period, end: Period)
    requires rates.Valid() && AddsUp(u) && u.reported
    ensures var (amount, status) := Calculate(rates, u, start, end);
            amount == (if Bill(rates, u, start, end) <= MAX_INT64 then Success(Bill(rates, u, start, end))
                       else Failure(OutOfRange))
            && status == if u.hit.Some? && start == end then Measured else HigherEstimate
  {
    RatesInRange(rates);
  }

  /** In one period: cached tokens at the hit rate, the others at the miss rate, completion at the output rate. */
  lemma SplitUsageInOnePeriod(rates: PriceRates, u: Usage, period: Period)
    requires rates.Valid() && AddsUp(u) && u.reported && u.hit.Some?
    requires Bill(rates, u, period, period) <= MAX_INT64
    ensures Calculate(rates, u, period, period)
            == (Success(if period == Peak then
                  u.hit.value * rates.peakHit + u.miss.value * rates.peakMiss + u.completion * rates.peakOutput
                else u.hit.value * rates.offHit + u.miss.value * rates.offMiss + u.completion * rates.offOutput),
                Measured)
  {
    ChargedItsBill(rates, u, period, period);
  }

  /** An estimate is never too low: the same counts, split in any way and billed in either period, cost no more. */
  lemma EstimateIsDearest(rates: PriceRates, u: Usage, split: Usage, start: Period, end: Period, period: Period)
    requires rates.Valid() && AddsUp(u) && AddsUp(split) && split.hit.Some? && (u.hit.Some? ==> u == split)
    requires (u.prompt, u.completion) == (split.prompt, split.completion) && (period == start || period == end)
    ensures Bill(rates, split, period, period) <= Bill(rates, u, start, end)
  {
    RatesInRange(rates);
    var h, m, o := Dearer(rates.peakHit, rates.offHit, period, period),
                   Dearer(rates.peakMiss, rates.offMiss, period, period),
                   Dearer(rates.peakOutput, rates.offOutput, period, period);
    var h', m', o' := Dearer(rates.peakHit, rates.offHit, start, end),
                      Dearer(rates.peakMiss, rates.offMiss, start, end),
                      Dearer(rates.peakOutput, rates.offOutput, start, end);
    LargerBill(split.hit.value, split.miss.value, split.completion, h, m, o, h', m', o');
    WholePrompt(split.hit.value, split.miss.value, h', m');
  }

  lemma LargerBill(hit: nat, miss: nat, output: nat, h: nat, m: nat, o: nat, h': nat, m': nat, o': nat)
    requires h <= h' && m <= m' && o <= o'
    ensures hit * h + miss * m + output * o <= hit * h' + miss * m' + output * o'
  {
    ScaleUp(h, h', hit);
    ScaleUp(m, m', miss);
    ScaleUp(o, o', output);
  }

  lemma WholePrompt(hit: nat, miss: nat, h: nat, m: nat)
    ensures hit * h + miss * m <= (hit + miss) * Max(h, m)
  {
    ScaleUp(h, Max(h, m), hit);
    ScaleUp(m, Max(h, m), miss);
    assert (hit + miss) * Max(h, m) == hit * Max(h, m) + miss * Max(h, m);
  }

  /** Cached prompts pay: the more of a prompt was in the upstream's cache, the lower the bill, where the hit rate is
      the lower one. */
  lemma CacheSaves(rates: PriceRates, u: Usage, warmer: Usage, start: Period, end: Period)
    requires rates.Valid() && AddsUp(u) && AddsUp(warmer) && u.hit.Some? && warmer.hit.Some?
    requires (u.prompt, u.completion) == (warmer.prompt, warmer.completion) && u.hit.value <= warmer.hit.value
    requires rates.peakHit <= rates.peakMiss && rates.offHit <= rates.offMiss
    ensures Bill(rates, warmer, start, end)
            == Bill(rates, u, start, end)
               - (warmer.hit.value - u.hit.value)
                 * (Dearer(rates.peakMiss, rates.offMiss, start, end) - Dearer(rates.peakHit, rates.offHit, start, end))
    ensures Bill(rates, warmer, start, end) <= Bill(rates, u, start, end)
  {
    var h, m := Dearer(rates.peakHit, rates.offHit, start, end), Dearer(rates.peakMiss, rates.offMiss, start, end);
    MovedTokens(u.hit.value, warmer.hit.value, u.prompt, h, m);
  }

  lemma MovedTokens(a: int, b: int, p: int, h: int, m: int)
    requires a <= b && h <= m
    ensures b * h + (p - b) * m == a * h + (p - a) * m - (b - a) * (m - h)
    ensures 0 <= (b - a) * (m - h)
  {
  }

  /** A cached prompt in figures. */
  lemma CachedPromptCosts(period: Period)
    ensures Calculate(PriceRates(20, 1000, 2000, 20, 1000, 2000),
                      Usage(1000, 100, 1100, Some(900), Some(100), 0, true, true), period, period)
            == (Success(318_000), Measured)
  {
  }
}
