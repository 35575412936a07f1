/** Token usage as reported by an upstream, and the three ways a decoded report becomes a Usage
    (pricing.go, provider.go, typesafe.go). A missing JSON number is None. */
module UsageReports {
  import opened Base

  datatype Usage = Usage(
    prompt: int, completion: int, total: int,
    hit: Option<int>, miss: Option<int>,
    reasoning: int, reported: bool, attempted: bool)

  const NO_USAGE := Usage(0, 0, 0, None, None, 0, false, false)

  /** Chat-completions usage after decoding (pricing.go:172-185). */
  datatype ChatWire = ChatWire(
    prompt: Option<int>, completion: Option<int>, total: Option<int>,
    reported: Option<bool>, hit: Option<int>, miss: Option<int>,
    reasoning: int, detailReasoning: int)

  /** What accounting relies on: the parts of a reported usage add up. */
  predicate AddsUp(u: Usage) {
    && 0 <= u.prompt && 0 <= u.completion && u.total == u.prompt + u.completion
    && 0 <= u.reasoning <= u.completion
    && (u.hit.Some? <==> u.miss.Some?)
    && (u.hit.Some? ==> 0 <= u.hit.value && 0 <= u.miss.value && u.hit.value + u.miss.value == u.prompt)
  }

  predicate IsInt64(n: int) {
    -MAX_INT64 - 1 <= n <= MAX_INT64
  }

  predicate IsInt64Option(n: Option<int>) {
    n.Some? ==> IsInt64(n.value)
  }

  /** Usage.UnmarshalJSON: None models a report that does not decode. */
  function FromChat(wire: Option<ChatWire>): Usage {
    if wire.None? || wire.value.prompt.None? || wire.value.completion.None? || wire.value.total.None? then
      NO_USAGE
    else
      var w := wire.value;
      var p, c, t := w.prompt.value, w.completion.value, w.total.value;
      if p < 0 || c < 0 || t < 0 || p > t || c != t - p then NO_USAGE
      else
        var split := w.hit.Some? && w.miss.Some? && w.hit.value >= 0 && w.miss.value >= 0
                     && w.hit.value <= p && w.miss.value == p - w.hit.value;
        var reasoning :=
          if 0 <= w.detailReasoning <= c then
            if w.detailReasoning == 0 && 0 <= w.reasoning <= c then w.reasoning else w.detailReasoning
          else 0;
        Usage(p, c, t, if split then w.hit else None, if split then w.miss else None,
              reasoning, w.reported.None? || w.reported.value, false)
  }

  /** normalizeGrokUsage: some gateways leave reasoning tokens out of the output count. */
  function NormalizeGrok(p: int, o: int, total: int, r: int, cached: Option<int>): Usage {
    var none := NO_USAGE.(attempted := true);
    if p < 0 || o < 0 || r < 0 || total < p || o > total - p then none
    else
      var gap := total - p - o;
      if gap != 0 && gap != r then none
      else
        var out := o + gap;
        if r > out then none
        else
          var split := cached.Some? && 0 <= cached.value <= p;
          Usage(p, out, total, if split then cached else None, if split then Some(p - cached.value) else None,
                r, true, true)
  }

  /** parseTypeSafeUsage: no cache split is reported, so every input token is a miss. */
  function FromTypeSafe(wire: Option<(Option<int>, Option<int>)>): Usage {
    if wire.None? || wire.value.0.None? || wire.value.1.None? then NO_USAGE
    else
      var input, output := wire.value.0.value, wire.value.1.value;
      if input < 0 || output < 0 || input > MAX_INT64 - output then NO_USAGE
      else Usage(input, output, input + output, Some(0), Some(input), 0, true, false)
  }

  predicate InRange(u: Usage) {
    && IsInt64(u.prompt) && IsInt64(u.completion) && IsInt64(u.total)
    && IsInt64Option(u.hit) && IsInt64Option(u.miss)
  }

  /** A chat report is trusted exactly when all three counts are present, none is negative,
      they add up and the report does not disclaim itself; whatever is kept adds up. */
  lemma ChatAcceptance(wire: Option<ChatWire>)
    ensures FromChat(wire).reported <==> (
            && wire.Some? && wire.value.prompt.Some? && wire.value.completion.Some? && wire.value.total.Some?
            && wire.value.prompt.value >= 0 && wire.value.completion.value >= 0
            && wire.value.prompt.value + wire.value.completion.value == wire.value.total.value
            && wire.value.reported != Some(false))
    ensures FromChat(wire).reported ==> FromChat(wire).total == wire.value.total.value
    ensures AddsUp(FromChat(wire))
  {
  }

  /** A Grok report is trusted exactly when nothing is negative, the reasoning tokens fit, and the
      total is met either by the output as stated or by the output plus the reasoning tokens. */
  lemma GrokAcceptance(p: int, o: int, total: int, r: int, cached: Option<int>)
    ensures NormalizeGrok(p, o, total, r, cached).reported <==> (
            && p >= 0 && o >= 0 && r >= 0
            && ((p + o == total && r <= o) || p + o + r == total))
    ensures AddsUp(NormalizeGrok(p, o, total, r, cached))
  {
  }

  /** A TypeSafe report is trusted exactly when neither count is negative and the sum fits in int64. */
  lemma TypeSafeAcceptance(wire: Option<(Option<int>, Option<int>)>)
    ensures FromTypeSafe(wire).reported <==> (
            && wire.Some? && wire.value.0.Some? && wire.value.1.Some?
            && wire.value.0.value >= 0 && wire.value.1.value >= 0
            && wire.value.0.value + wire.value.1.value <= MAX_INT64)
    ensures InRange(FromTypeSafe(wire))
    ensures AddsUp(FromTypeSafe(wire))
  {
  }

  /** A trusted report is read as it stands: its counts are the upstream's, a cache split is kept exactly when it is of
      the prompt, and reasoning tokens are those detailed, or else those stated, as far as the completion has room. */
  lemma ChatReading(wire: Option<ChatWire>)
    requires FromChat(wire).reported
    ensures var u, w := FromChat(wire), wire.value;
            (Some(u.prompt), Some(u.completion), Some(u.total)) == (w.prompt, w.completion, w.total)
            && (if w.hit.Some? && w.miss.Some? && 0 <= w.hit.value && 0 <= w.miss.value
                   && w.hit.value + w.miss.value == u.prompt
                then (u.hit, u.miss) == (w.hit, w.miss) else u.hit == None && u.miss == None)
            && u.reasoning == (if 0 < w.detailReasoning <= u.completion then w.detailReasoning
                               else if w.detailReasoning == 0 && 0 < w.reasoning <= u.completion then w.reasoning
                               else 0)
            && !u.attempted
  {
  }

  /** A trusted Grok report: everything beyond the prompt is completion, reasoning is as stated, and of the prompt the
      cached tokens are hits and the others misses, if the cached count is one of its parts. */
  lemma GrokReading(p: int, o: int, total: int, r: int, cached: Option<int>)
    requires NormalizeGrok(p, o, total, r, cached).reported
    ensures var u := NormalizeGrok(p, o, total, r, cached);
            (u.prompt, u.completion, u.total, u.reasoning) == (p, total - p, total, r) && u.attempted
            && if cached.Some? && 0 <= cached.value <= p then
                 u.hit == cached && u.miss.Some? && cached.value + u.miss.value == p
               else u.hit == None && u.miss == None
  {
  }

  /** A trusted TypeSafe report counts no cached tokens, so the whole prompt is billed as missed. */
  lemma TypeSafeReading(wire: Option<(Option<int>, Option<int>)>)
    requires FromTypeSafe(wire).reported
    ensures var u, w := FromTypeSafe(wire), wire.value;
            (Some(u.prompt), Some(u.completion)) == w && u.hit == Some(0) && u.miss == w.0
            && u.total == u.prompt + u.completion && u.reasoning == 0 && !u.attempted
  {
  }

  /** An untrusted report carries nothing over that could be charged. */
  lemma UntrustedIsEmpty(wire: Option<ChatWire>, p: int, o: int, total: int, r: int, cached: Option<int>,
                         pair: Option<(Option<int>, Option<int>)>)
    ensures !NormalizeGrok(p, o, total, r, cached).reported ==>
      NormalizeGrok(p, o, total, r, cached) == Usage(0, 0, 0, None, None, 0, false, true)
    ensures !FromTypeSafe(pair).reported ==> FromTypeSafe(pair) == NO_USAGE
    ensures !FromChat(wire).reported && (wire.None? || wire.value.reported != Some(false)) ==>
      FromChat(wire) == NO_USAGE
  {
  }
}
