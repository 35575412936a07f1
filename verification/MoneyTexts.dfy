/** Which texts are amounts (pricing.go:58-91): the notations the CNY parser reads, and what it reads them as. */
module MoneyTexts {
  import opened Base
  import opened Decimals
  import opened Money

  predicate AllSpace(s: string) {
    forall i :: 0 <= i < |s| ==> IsSpace(s[i])
  }

  /** Digits, and perhaps a dot and up to twelve decimals. */
  function Notation(whole: string, dotted: bool, fraction: string): string {
    if dotted then whole + "." + fraction else whole
  }

  /** The parts of an amount of so many pico-CNY. */
  predicate Amounts(whole: string, dotted: bool, fraction: string, amount: int) {
    AllDigits(whole) && whole != "" && AllDigits(fraction) && |fraction| <= 12 && (!dotted ==> fraction == "")
    && amount == Value(whole) * 1_000_000_000_000 + FractionPico(fraction) <= 100_000_000_000_000_000
  }

  /** The text denotes the amount: space around a notation of it. */
  ghost predicate Denotes(text: string, amount: int) {
    exists before, whole, dotted, fraction, after ::
      AllSpace(before) && AllSpace(after) && Amounts(whole, dotted, fraction, amount)
      && text == before + Notation(whole, dotted, fraction) + after
  }

  lemma {:induction false} TrimmedOff(s: string) returns (before: string, after: string)
    ensures s == before + TrimSpace(s) + after && AllSpace(before) && AllSpace(after)
  {
    before, after := "", "";
    if s == "" {
    } else if IsSpace(s[0]) {
      var b, a := TrimmedOff(s[1..]);
      FirstPutBack(s, b, TrimSpace(s[1..]), a);
      before, after := [s[0]] + b, a;
    } else if IsSpace(s[|s| - 1]) {
      var b, a := TrimmedOff(s[..|s| - 1]);
      LastPutBack(s, b, TrimSpace(s[..|s| - 1]), a);
      before, after := b, a + [s[|s| - 1]];
    }
  }

  lemma FirstPutBack(s: string, b: string, core: string, a: string)
    requires s != "" && IsSpace(s[0]) && s[1..] == b + core + a && AllSpace(b)
    ensures s == [s[0]] + b + core + a && AllSpace([s[0]] + b)
  {
    assert s == [s[0]] + s[1..];
  }

  lemma LastPutBack(s: string, b: string, core: string, a: string)
    requires s != "" && IsSpace(s[|s| - 1]) && s[..|s| - 1] == b + core + a && AllSpace(a)
    ensures s == b + core + (a + [s[|s| - 1]]) && AllSpace(a + [s[|s| - 1]])
  {
    assert s == s[..|s| - 1] + [s[|s| - 1]];
  }

  lemma {:induction false} TrimsTo(before: string, core: string, after: string)
    requires AllSpace(before) && AllSpace(after) && core != "" && !IsSpace(core[0]) && !IsSpace(core[|core| - 1])
    ensures TrimSpace(before + core + after) == core
    decreases |before| + |after|
  {
    var s := before + core + after;
    if before != "" {
      assert s[0] == before[0] && s[1..] == before[1..] + core + after;
      TrimsTo(before[1..], core, after);
    } else if after != "" {
      assert s[0] == core[0] && s[|s| - 1] == after[|after| - 1];
      assert s[..|s| - 1] == before + core + after[..|after| - 1];
      TrimsTo(before, core, after[..|after| - 1]);
    } else {
      assert s == core;
    }
  }

  lemma SplitBack(s: string)
    ensures |Split(s)| == 1 ==> Split(s)[0] == s
    ensures |Split(s)| == 2 ==> s == Split(s)[0] + "." + Split(s)[1]
  {
    var i := FirstDot(s);
    if i < |s| {
      assert s == s[..i] + "." + s[i + 1..];
    }
  }

  lemma SplitNotation(whole: string, dotted: bool, fraction: string)
    requires AllDigits(whole) && AllDigits(fraction) && (!dotted ==> fraction == "")
    ensures Split(Notation(whole, dotted, fraction)) == if dotted then [whole, fraction] else [whole]
  {
    var s := Notation(whole, dotted, fraction);
    DigitsHaveNoDot(whole, fraction);
    DigitsHaveNoDot(fraction, "");
    if dotted {
      assert s[..|whole|] == whole && s[|whole| + 1..] == fraction;
    }
  }

  lemma PartsAmount(parts: seq<string>, whole: string, fraction: string, amount: int)
    requires |parts| == 1 || |parts| == 2
    requires whole == parts[0] && fraction == if |parts| == 2 then parts[1] else ""
    ensures AmountOfParts(parts) == Success(amount) <==> Amounts(whole, |parts| == 2, fraction, amount)
  {
    assert (forall k :: 0 <= k < |parts| ==> AllDigits(parts[k])) <==> AllDigits(whole) && AllDigits(fraction);
    if AllDigits(whole) && AllDigits(fraction) && |fraction| <= 12 {
      FractionBound(fraction);
      LimitReached(Value(whole), FractionPico(fraction));
    }
  }

  lemma ReadIsDenoted(text: string, amount: int)
    requires ParseCNY(text) == Success(amount)
    ensures Denotes(text, amount)
  {
    var before, after := TrimmedOff(text);
    var core := TrimSpace(text);
    var parts := Split(core);
    SplitBack(core);
    var fraction := if |parts| == 2 then parts[1] else "";
    PartsAmount(parts, parts[0], fraction, amount);
    assert text == before + Notation(parts[0], |parts| == 2, fraction) + after;
  }

  lemma DenotedIsRead(before: string, whole: string, dotted: bool, fraction: string, after: string, amount: int)
    requires AllSpace(before) && AllSpace(after) && Amounts(whole, dotted, fraction, amount)
    ensures ParseCNY(before + Notation(whole, dotted, fraction) + after) == Success(amount)
  {
    var core := Notation(whole, dotted, fraction);
    assert core[0] == whole[0] && IsDigit(whole[0]);
    assert core[|core| - 1] == '.' || IsDigit(core[|core| - 1]);
    TrimsTo(before, core, after);
    SplitNotation(whole, dotted, fraction);
    PartsAmount(Split(core), whole, fraction, amount);
  }

  /** The parser reads exactly the texts that denote an amount from 0 to 100000 CNY: digits, perhaps a dot and up to
      twelve decimals, with any space around; and it reads them as that amount. */
  lemma ReadsExactly(text: string, amount: int)
    ensures ParseCNY(text) == Success(amount) <==> Denotes(text, amount)
  {
    if ParseCNY(text) == Success(amount) {
      ReadIsDenoted(text, amount);
    }
    if Denotes(text, amount) {
      var before, whole, dotted, fraction, after :|
        AllSpace(before) && AllSpace(after) && Amounts(whole, dotted, fraction, amount)
        && text == before + Notation(whole, dotted, fraction) + after;
      DenotedIsRead(before, whole, dotted, fraction, after, amount);
    }
  }
}
