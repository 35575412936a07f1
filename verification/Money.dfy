/** Money on the wire: pico-CNY integers printed and parsed as CNY decimals (pricing.go:51-91),
    and the unbounded variants of the evaluation reports (evaluation_runs.go:561-580). */
module Money {
  import opened Base
  import opened Decimals

  const PICO_PER_CNY := 1_000_000_000_000
  const MAX_CNY := 100000
  const LIMIT := MAX_CNY * PICO_PER_CNY

  datatype MoneyError = BadFormat | NotDecimal | TooLarge | TooPrecise

  /** Go's %d and %012d, sign included in the width. */
  function FormatInt(n: int): string {
    if n < 0 then "-" + Decimal(-n) else Decimal(n)
  }

  function FormatInt12(n: int): string {
    if n < 0 then "-" + PadLeft(Decimal(-n), 11) else PadLeft(Decimal(n), 12)
  }

  /** Go's quotient and remainder: truncated toward zero. */
  function Quo(a: int, b: int): int
    requires b > 0
  {
    if a < 0 then -(-a / b) else a / b
  }

  function Rem(a: int, b: int): int
    requires b > 0
  {
    if a < 0 then -(-a % b) else a % b
  }

  function PicoString(v: int): string {
    if v == 0 then "0"
    else
      var s := FormatInt(Quo(v, PICO_PER_CNY)) + "." + FormatInt12(Rem(v, PICO_PER_CNY));
      TrimRight(TrimRight(s, '0'), '.')
  }

  /** evaluationMoneyString: the integer is unbounded. */
  function EvaluationMoneyString(value: int): string
    requires 0 <= value
  {
    var whole, remainder := value / PICO_PER_CNY, value % PICO_PER_CNY;
    if remainder == 0 then Decimal(whole)
    else
      DecimalWidth12(remainder);
      var fraction := Decimal(remainder);
      Decimal(whole) + "." + TrimRight(Zeros(12 - |fraction|) + fraction, '0')
  }

  /** unicode.IsSpace, the set strings.TrimSpace strips. */
  predicate IsSpace(c: char) {
    c as int in {0x9, 0xA, 0xB, 0xC, 0xD, 0x20, 0x85, 0xA0, 0x1680, 0x2028, 0x2029, 0x202F, 0x205F, 0x3000}
    || 0x2000 <= c as int <= 0x200A
  }

  function TrimSpace(s: string): string {
    if s == "" then s
    else if IsSpace(s[0]) then TrimSpace(s[1..])
    else if IsSpace(s[|s| - 1]) then TrimSpace(s[..|s| - 1])
    else s
  }

  /** Index of the first dot, or the length when there is none. */
  function FirstDot(s: string): (i: nat)
    ensures i <= |s| && (i < |s| ==> s[i] == '.') && '.' !in s[..i]
  {
    if s == "" || s[0] == '.' then 0 else 1 + FirstDot(s[1..])
  }

  /** strings.Split(s, "."). */
  function Split(s: string): (parts: seq<string>)
    ensures |parts| > 0
    decreases |s|
  {
    var i := FirstDot(s);
    if i == |s| then [s] else [s[..i]] + Split(s[i + 1..])
  }

  function ParseCNY(text: string): Result<int, MoneyError> {
    AmountOfParts(Split(TrimSpace(text)))
  }

  /** The whole units and the decimals of an amount. */
  function AmountOfParts(parts: seq<string>): Result<int, MoneyError>
    requires parts != []
  {
    if |parts| > 2 || parts[0] == "" then Failure(BadFormat)
    else if exists k :: 0 <= k < |parts| && !AllDigits(parts[k]) then Failure(NotDecimal)
    else AmountOf(parts[0], if |parts| == 2 then parts[1] else "")
  }

  function AmountOf(units: string, fraction: string): Result<int, MoneyError>
    requires AllDigits(units) && AllDigits(fraction)
  {
    var whole := Value(units);
    if whole > MAX_CNY then Failure(TooLarge)
    else if |fraction| > 12 then Failure(TooPrecise)
    else
      var tail := FractionPico(fraction);
      if whole == MAX_CNY && tail > 0 then Failure(TooLarge)
      else Success(whole * PICO_PER_CNY + tail)
  }

  /** Up to twelve decimals as pico units. */
  function FractionPico(fraction: string): nat
    requires AllDigits(fraction) && |fraction| <= 12
  {
    ZerosHaveNoValue(12 - |fraction|);
    Value(fraction + Zeros(12 - |fraction|))
  }

  /** The digit scan of parseCNY. */
  method ScanDigits(part: string) returns (ok: bool)
    ensures ok <==> AllDigits(part)
  {
    for i := 0 to |part|
      invariant forall j :: 0 <= j < i ==> IsDigit(part[j])
    {
      if part[i] < '0' || part[i] > '9' {
        return false;
      }
    }
    return true;
  }

  /** The scan of whole units and decimals. */
  method ScanParts(parts: seq<string>) returns (ok: bool)
    ensures ok <==> forall k :: 0 <= k < |parts| ==> AllDigits(parts[k])
  {
    for k := 0 to |parts|
      invariant forall j :: 0 <= j < k ==> AllDigits(parts[j])
    {
      ok := ScanDigits(parts[k]);
      if !ok {
        return false;
      }
    }
    return true;
  }

  /** The bounds of parseCNY, once both parts are digits. */
  method CheckBounds(units: string, fraction: string) returns (r: Result<int, MoneyError>)
    requires AllDigits(units) && AllDigits(fraction)
    ensures r == AmountOf(units, fraction)
  {
    var whole := Value(units);
    if whole > MAX_CNY {
      return Failure(TooLarge);
    }
    if |fraction| > 12 {
      return Failure(TooPrecise);
    }
    ZerosHaveNoValue(12 - |fraction|);
    var tail := Value(fraction + Zeros(12 - |fraction|));
    if whole == MAX_CNY && tail > 0 {
      return Failure(TooLarge);
    }
    return Success(whole * PICO_PER_CNY + tail);
  }

  /** parseCNY as the source writes it. */
  method ParseAmount(text: string) returns (r: Result<int, MoneyError>)
    ensures r == ParseCNY(text)
  {
    var parts := Split(TrimSpace(text));
    if |parts| > 2 || parts[0] == "" {
      return Failure(BadFormat);
    }
    var ok := ScanParts(parts);
    if !ok {
      return Failure(NotDecimal);
    }
    var fraction := "";
    if |parts| == 2 {
      fraction := parts[1];
    }
    r := CheckBounds(parts[0], fraction);
  }

  /** No superfluous zero anywhere: a plain numeral, then optionally a dot and one to twelve
      decimals of which the last is not zero. */
  predicate Canonical(s: string) {
    var i := FirstDot(s);
    i > 0 && AllDigits(s[..i]) && (s[0] == '0' ==> i == 1)
    && (i < |s| ==> AllDigits(s[i + 1..]) && 1 <= |s| - i - 1 <= 12 && s[|s| - 1] != '0')
  }

  /** A whole part and a trimmed fraction as one amount. */
  function Join(whole: string, fraction: string): string {
    if fraction == "" then whole else whole + "." + fraction
  }

  function TrimmedFraction(f: nat): string {
    TrimRight(PadLeft(Decimal(f), 12), '0')
  }

  lemma Pow10Twelve()
    ensures Pow10(12) == PICO_PER_CNY
  {
    assert Pow10(4) == 10_000 by { assert Pow10(2) == 100; }
    assert Pow10(8) == 100_000_000 by { assert Pow10(6) == 1_000_000; }
    assert Pow10(10) == 10_000_000_000;
  }

  lemma DecimalWidth12(f: nat)
    requires f < PICO_PER_CNY
    ensures |Decimal(f)| <= 12
  {
    Pow10Twelve();
    DecimalWidth(f, 12);
  }

  lemma PaddedFraction(f: nat)
    requires f < PICO_PER_CNY
    ensures var pad := PadLeft(Decimal(f), 12); |pad| == 12 && AllDigits(pad) && Value(pad) == f
  {
    DecimalWidth12(f);
    DecimalIsNumeral(f);
    PadLeftKeepsValue(Decimal(f), 12);
  }

  /** What is known of a trimmed fraction: at most twelve digits, no trailing zero, value restored. */
  lemma TrimmedFractionFacts(f: nat)
    requires f < PICO_PER_CNY
    ensures var t := TrimmedFraction(f);
            |t| <= 12 && AllDigits(t) && (t != "" ==> t[|t| - 1] != '0')
            && FractionPico(t) == f && (t == "" <==> f == 0)
  {
    PaddedFraction(f);
    var pad, t := PadLeft(Decimal(f), 12), TrimmedFraction(f);
    TrimRestores(pad, '0');
    RepeatedZeros(12 - |t|);
    assert t == pad[..|t|];
    assert t + Zeros(12 - |t|) == pad;
    if t == "" {
      ZerosHaveNoValue(12);
      assert pad == Zeros(12);
    }
    if f == 0 {
      ZeroFraction();
    }
  }

  lemma ZeroFraction()
    ensures TrimmedFraction(0) == ""
  {
    assert PadLeft(Decimal(0), 12) == Zeros(12);
    RepeatedZeros(12);
    TrimRepeated("", '0', 12);
    assert "" + Repeated('0', 12) == Zeros(12);
  }

  /** A trailing dot goes, and no digit before it. */
  lemma TrimDot(whole: string)
    requires AllDigits(whole) && whole != ""
    ensures TrimRight(whole + ".", '0') == whole + "." && TrimRight(whole + ".", '.') == whole
  {
    assert (whole + ".")[..|whole|] == whole;
    assert IsDigit(whole[|whole| - 1]);
    assert TrimRight(whole, '.') == whole;
  }

  lemma TrimNothing(whole: string, t: string)
    requires AllDigits(t) && t != ""
    ensures TrimRight(whole + "." + t, '.') == whole + "." + t
  {
    assert IsDigit(t[|t| - 1]);
    assert (whole + "." + t)[|whole| + |t|] == t[|t| - 1];
  }

  /** Trimming zeros and then the dot leaves exactly the joined form. */
  lemma TrimJoin(whole: string, padded: string)
    requires AllDigits(whole) && whole != "" && AllDigits(padded)
    ensures TrimRight(TrimRight(whole + "." + padded, '0'), '.') == Join(whole, TrimRight(padded, '0'))
  {
    var t := TrimRight(padded, '0');
    TrimDot(whole);
    TrimConcat(whole + ".", padded, '0');
    TrimRestores(padded, '0');
    if t != "" {
      assert t == padded[..|t|];
      TrimNothing(whole, t);
    }
  }

  /** picoString in terms of the whole units and the remaining pico units. */
  lemma PicoStringShape(v: nat, whole: nat, f: nat)
    requires v == whole * PICO_PER_CNY + f && f < PICO_PER_CNY
    ensures PicoString(v) == Join(Decimal(whole), TrimmedFraction(f))
    ensures v / PICO_PER_CNY == whole && v % PICO_PER_CNY == f
  {
    QuotientUnique(v, PICO_PER_CNY, whole, f);
    DecimalIsNumeral(whole);
    DecimalIsNumeral(f);
    PadLeftKeepsValue(Decimal(f), 12);
    TrimJoin(Decimal(whole), PadLeft(Decimal(f), 12));
    if v == 0 {
      ZeroFraction();
    }
  }

  /** evaluationMoneyString and picoString print the same notation. */
  lemma EvaluationStringAgrees(v: nat)
    ensures EvaluationMoneyString(v) == PicoString(v)
  {
    var f := v % PICO_PER_CNY;
    PicoStringShape(v, v / PICO_PER_CNY, f);
    TrimmedFractionFacts(f);
    DecimalWidth12(f);
    assert Zeros(0) + Decimal(f) == Decimal(f);
  }

  lemma {:induction false} DigitsHaveNoDot(s: string, rest: string)
    requires AllDigits(s)
    ensures FirstDot(s) == |s| && FirstDot(s + "." + rest) == |s|
  {
    if s == "" {
      assert ("" + "." + rest)[0] == '.';
    } else {
      assert IsDigit(s[0]);
      DigitsHaveNoDot(s[1..], rest);
      assert (s + "." + rest)[1..] == s[1..] + "." + rest;
    }
  }

  lemma SplitJoined(whole: string, fraction: string)
    requires AllDigits(whole) && AllDigits(fraction)
    ensures Split(Join(whole, fraction)) == if fraction == "" then [whole] else [whole, fraction]
  {
    var s := Join(whole, fraction);
    DigitsHaveNoDot(whole, fraction);
    DigitsHaveNoDot(fraction, "");
    if fraction != "" {
      assert s[..|whole|] == whole && s[|whole| + 1..] == fraction;
    }
  }

  lemma JoinedIsTrimmed(whole: string, fraction: string)
    requires AllDigits(whole) && whole != "" && AllDigits(fraction)
    ensures TrimSpace(Join(whole, fraction)) == Join(whole, fraction)
  {
    var s := Join(whole, fraction);
    assert IsDigit(s[0]) && IsDigit(s[|s| - 1]);
  }

  lemma LimitReached(whole: nat, tail: nat)
    requires tail < PICO_PER_CNY
    ensures whole * PICO_PER_CNY + tail <= LIMIT <==> whole < MAX_CNY || (whole == MAX_CNY && tail == 0)
  {
  }

  lemma PartsParse(parts: seq<string>, whole: string, fraction: string)
    requires AllDigits(whole) && whole != "" && AllDigits(fraction) && |fraction| <= 12
    requires parts == if fraction == "" then [whole] else [whole, fraction]
    ensures AmountOfParts(parts) ==
            if Value(whole) < MAX_CNY || (Value(whole) == MAX_CNY && FractionPico(fraction) == 0)
            then Success(Value(whole) * PICO_PER_CNY + FractionPico(fraction)) else Failure(TooLarge)
  {
    assert forall k :: 0 <= k < |parts| ==> AllDigits(parts[k]);
    assert (if |parts| == 2 then parts[1] else "") == fraction;
  }

  /** Parsing a joined amount. */
  lemma ParseJoined(whole: string, fraction: string)
    requires AllDigits(whole) && whole != "" && AllDigits(fraction) && |fraction| <= 12
    ensures ParseCNY(Join(whole, fraction)) ==
            if Value(whole) * PICO_PER_CNY + FractionPico(fraction) <= LIMIT
            then Success(Value(whole) * PICO_PER_CNY + FractionPico(fraction)) else Failure(TooLarge)
  {
    JoinedIsTrimmed(whole, fraction);
    SplitJoined(whole, fraction);
    PartsParse(Split(Join(whole, fraction)), whole, fraction);
    FractionBound(fraction);
    LimitReached(Value(whole), FractionPico(fraction));
  }

  lemma FractionBound(fraction: string)
    requires AllDigits(fraction) && |fraction| <= 12
    ensures FractionPico(fraction) < PICO_PER_CNY
  {
    Pow10Twelve();
    ZerosHaveNoValue(12 - |fraction|);
    ValueBound(fraction + Zeros(12 - |fraction|));
  }

  lemma {:induction false} TrimKeeps(s: string, c: char, i: nat)
    requires i < |s| && s[i] != c
    ensures i < |TrimRight(s, c)| && TrimRight(s, c)[i] == s[i]
  {
    if s[|s| - 1] == c {
      TrimKeeps(s[..|s| - 1], c, i);
    }
  }

  lemma SignIsRefused(s: string)
    requires exists k :: 0 <= k < |Split(s)| && '-' in Split(s)[k]
    ensures exists k :: 0 <= k < |Split(s)| && !AllDigits(Split(s)[k])
  {
    var k :| 0 <= k < |Split(s)| && '-' in Split(s)[k];
    assert !AllDigits(Split(s)[k]);
  }

  lemma {:induction false} SplitKeepsSign(s: string)
    requires '-' in s
    ensures exists k :: 0 <= k < |Split(s)| && '-' in Split(s)[k]
    decreases |s|
  {
    var i := FirstDot(s);
    if i == |s| {
      assert '-' in Split(s)[0];
    } else {
      assert s == s[..i] + [s[i]] + s[i + 1..];
      if '-' in s[..i] {
        assert '-' in Split(s)[0];
      } else {
        SplitKeepsSign(s[i + 1..]);
        var k :| 0 <= k < |Split(s[i + 1..])| && '-' in Split(s[i + 1..])[k];
        assert Split(s)[k + 1] == Split(s[i + 1..])[k];
      }
    }
  }

  lemma {:induction false} TrimSpaceKeepsSign(s: string)
    requires '-' in s
    ensures '-' in TrimSpace(s)
  {
    if IsSpace(s[0]) {
      assert s == [s[0]] + s[1..];
      TrimSpaceKeepsSign(s[1..]);
    } else if IsSpace(s[|s| - 1]) {
      assert s == s[..|s| - 1] + [s[|s| - 1]];
      TrimSpaceKeepsSign(s[..|s| - 1]);
    }
  }

  /** Negative amounts print with a minus sign, which parseCNY never accepts. */
  lemma NegativeIsRefused(v: int)
    requires v < 0
    ensures ParseCNY(PicoString(v)).Failure?
  {
    var q, r := FormatInt(Quo(v, PICO_PER_CNY)), FormatInt12(Rem(v, PICO_PER_CNY));
    var s := q + "." + r;
    assert '-' in s by {
      if v <= -PICO_PER_CNY { assert s[0] == '-'; } else { assert s[|q| + 1] == '-'; }
    }
    var i :| 0 <= i < |s| && s[i] == '-';
    TrimKeeps(s, '0', i);
    TrimKeeps(TrimRight(s, '0'), '.', i);
    assert PicoString(v)[i] == '-';
    TrimSpaceKeepsSign(PicoString(v));
    SplitKeepsSign(TrimSpace(PicoString(v)));
    SignIsRefused(TrimSpace(PicoString(v)));
  }

  lemma PrintedAmountParses(v: nat)
    ensures ParseCNY(PicoString(v)) == if v <= LIMIT then Success(v) else Failure(TooLarge)
  {
    var whole, f := v / PICO_PER_CNY, v % PICO_PER_CNY;
    PicoStringShape(v, whole, f);
    DecimalIsNumeral(whole);
    TrimmedFractionFacts(f);
    ParseJoined(Decimal(whole), TrimmedFraction(f));
  }

  /** Printing then parsing gives back the amount exactly on 0 to 100000 CNY, and an error elsewhere. */
  lemma PicoRoundTrip(v: int)
    ensures ParseCNY(PicoString(v)) == Success(v) <==> 0 <= v <= LIMIT
    ensures ParseCNY(PicoString(v)).Success? ==> ParseCNY(PicoString(v)) == Success(v)
  {
    if v < 0 {
      NegativeIsRefused(v);
    } else {
      PrintedAmountParses(v);
    }
  }

  lemma PicoStringCanonical(v: nat)
    ensures Canonical(PicoString(v))
  {
    var whole, f := v / PICO_PER_CNY, v % PICO_PER_CNY;
    PicoStringShape(v, whole, f);
    DecimalIsNumeral(whole);
    TrimmedFractionFacts(f);
    JoinIsCanonical(Decimal(whole), TrimmedFraction(f));
  }

  lemma JoinIsCanonical(w: string, t: string)
    requires AllDigits(w) && w != "" && (w[0] == '0' ==> |w| == 1)
    requires AllDigits(t) && |t| <= 12 && (t != "" ==> t[|t| - 1] != '0')
    ensures Canonical(Join(w, t))
  {
    DigitsHaveNoDot(w, t);
    DigitsHaveNoDot(w, "");
    var s := Join(w, t);
    assert s[..|w|] == w;
    if t != "" {
      assert s[|w| + 1..] == t;
    }
  }

  /** The canonical notation of an amount is unique: parsing a canonical text and printing the
      result gives the text back. */
  lemma CanonicalIsPicoString(s: string, v: int)
    requires Canonical(s) && ParseCNY(s) == Success(v)
    ensures 0 <= v && PicoString(v) == s
  {
    var i := FirstDot(s);
    var w, f := s[..i], if i < |s| then s[i + 1..] else "";
    assert s == Join(w, f);
    ParseJoined(w, f);
    FractionBound(f);
    PicoStringShape(v, Value(w), FractionPico(f));
    NumeralIsDecimal(w);
    CanonicalFraction(f);
  }

  lemma CanonicalFraction(f: string)
    requires AllDigits(f) && |f| <= 12 && (f != "" ==> f[|f| - 1] != '0')
    ensures TrimmedFraction(FractionPico(f)) == f
  {
    ZerosHaveNoValue(12 - |f|);
    PaddedNumeral(f + Zeros(12 - |f|));
    RepeatedZeros(12 - |f|);
    TrimRepeated(f, '0', 12 - |f|);
  }

  /** evaluationMoney on plain decimals: digits, optionally a dot and more digits. The value is
      accepted when scaling it by the pico unit leaves an integer. */
  function EvaluationMoney(text: string): Result<int, MoneyError> {
    EvaluationOfParts(Split(text))
  }

  function EvaluationOfParts(parts: seq<string>): Result<int, MoneyError>
    requires parts != []
  {
    if |parts| > 2 || parts[0] == "" || exists k :: 0 <= k < |parts| && !AllDigits(parts[k]) then Failure(BadFormat)
    else EvaluationOf(parts[0], if |parts| == 2 then parts[1] else "")
  }

  function EvaluationOf(units: string, fraction: string): Result<int, MoneyError>
    requires AllDigits(units) && AllDigits(fraction)
  {
    ValueConcat(units, fraction);
    DivideExactly(Value(units + fraction) * PICO_PER_CNY, |fraction|)
  }

  /** A rational with a power of ten as denominator, when it is an integer. */
  function DivideExactly(numerator: nat, places: nat): Result<int, MoneyError> {
    PowPositive(places);
    if numerator % Pow10(places) != 0 then Failure(TooPrecise) else Success(numerator / Pow10(places))
  }

  lemma {:induction false} PowPositive(k: nat)
    ensures Pow10(k) > 0
  {
    if k > 0 {
      PowPositive(k - 1);
    }
  }

  lemma {:induction false} PowSplit(a: nat, b: nat)
    ensures Pow10(a + b) == Pow10(a) * Pow10(b)
  {
    if a > 0 {
      PowSplit(a - 1, b);
      assert Pow10(a) * Pow10(b) == 10 * (Pow10(a - 1) * Pow10(b));
    }
  }

  lemma ScaledSum(a: int, b: int, p: int, q: int, unit: int)
    requires unit == p * q
    ensures (a * p + b) * unit == (a * unit + b * q) * p
  {
    calc {
      (a * p + b) * unit;
      a * p * unit + b * unit;
      a * unit * p + b * (q * p);
      a * unit * p + b * q * p;
      (a * unit + b * q) * p;
    }
  }

  /** With a unit of places plus rest decimal places, scaling a * 10^places + b divides exactly. */
  lemma ScaledDivision(a: nat, b: nat, places: nat, q: nat, unit: nat)
    requires unit == Pow10(places) * q
    ensures DivideExactly((a * Pow10(places) + b) * unit, places) == Success(a * unit + b * q)
  {
    PowPositive(places);
    ScaledSum(a, b, Pow10(places), q, unit);
    QuotientUnique((a * Pow10(places) + b) * unit, Pow10(places), a * unit + b * q, 0);
  }

  lemma FractionPicoValue(fraction: string, missing: nat)
    requires AllDigits(fraction) && |fraction| + missing == 12
    ensures FractionPico(fraction) == Value(fraction) * Pow10(missing)
  {
    assert missing == 12 - |fraction|;
    AppendZeros(fraction, missing);
  }

  lemma AppendZeros(s: string, k: nat)
    requires AllDigits(s)
    ensures AllDigits(s + Zeros(k)) && Value(s + Zeros(k)) == Value(s) * Pow10(k)
  {
    ZerosHaveNoValue(k);
    ValueConcat(s, Zeros(k));
  }

  lemma UnitSplit(places: nat)
    requires places <= 12
    ensures PICO_PER_CNY == Pow10(places) * Pow10(12 - places)
  {
    PowSplit(places, 12 - places);
    Pow10Twelve();
  }

  lemma ScaleByUnit(whole: string, fraction: string, share: nat, unit: nat)
    requires AllDigits(whole) && AllDigits(fraction)
    requires unit == Pow10(|fraction|) * share
    ensures AllDigits(whole + fraction)
    ensures DivideExactly(Value(whole + fraction) * unit, |fraction|)
            == Success(Value(whole) * unit + Value(fraction) * share)
  {
    ValueConcat(whole, fraction);
    ScaledDivision(Value(whole), Value(fraction), |fraction|, share, unit);
  }

  /** Scaling a decimal with at most twelve places by the pico unit shifts in zeros. */
  lemma ScaleByPico(whole: string, fraction: string)
    requires AllDigits(whole) && AllDigits(fraction) && |fraction| <= 12
    ensures AllDigits(whole + fraction)
    ensures DivideExactly(Value(whole + fraction) * PICO_PER_CNY, |fraction|)
            == Success(Value(whole) * PICO_PER_CNY + FractionPico(fraction))
  {
    UnitSplit(|fraction|);
    FractionPicoValue(fraction, 12 - |fraction|);
    ScaleByUnit(whole, fraction, Pow10(12 - |fraction|), PICO_PER_CNY);
  }

  /** evaluationMoney on a joined amount is the pico value, whatever its size. */
  lemma EvaluateJoined(whole: string, fraction: string)
    requires AllDigits(whole) && whole != "" && AllDigits(fraction) && |fraction| <= 12
    ensures EvaluationMoney(Join(whole, fraction)) == Success(Value(whole) * PICO_PER_CNY + FractionPico(fraction))
  {
    SplitJoined(whole, fraction);
    ScaleByPico(whole, fraction);
    assert EvaluationOfParts(Split(Join(whole, fraction))) == EvaluationOf(whole, fraction);
  }

  lemma PrintedIsRead(v: nat, whole: nat, f: nat)
    requires v == whole * PICO_PER_CNY + f && f < PICO_PER_CNY
    ensures EvaluationMoney(EvaluationMoneyString(v)) == Success(v)
  {
    EvaluationStringAgrees(v);
    PicoStringShape(v, whole, f);
    DecimalIsNumeral(whole);
    TrimmedFractionFacts(f);
    EvaluateJoined(Decimal(whole), TrimmedFraction(f));
  }

  /** evaluationMoney undoes evaluationMoneyString on every non-negative integer, int64 or not. */
  lemma EvaluationRoundTrip(v: nat)
    ensures EvaluationMoney(EvaluationMoneyString(v)) == Success(v)
  {
    PrintedIsRead(v, v / PICO_PER_CNY, v % PICO_PER_CNY);
  }
}
