/** Decimal notation: digit strings, their values, zero padding and right trimming. */
module Decimals {
  function DigitChar(d: nat): char
    requires d < 10
  {
    ('0' as int + d) as char
  }

  function DigitValue(c: char): int {
    c as int - '0' as int
  }

  predicate IsDigit(c: char) {
    '0' <= c <= '9'
  }

  predicate AllDigits(s: string) {
    forall i :: 0 <= i < |s| ==> IsDigit(s[i])
  }

  /** Go's %d for non-negative numbers. */
  function Decimal(n: nat): string {
    if n < 10 then [DigitChar(n)] else Decimal(n / 10) + [DigitChar(n % 10)]
  }

  function Value(s: string): nat
    requires AllDigits(s)
  {
    if s == "" then 0 else Value(s[..|s| - 1]) * 10 + DigitValue(s[|s| - 1])
  }

  function Pow10(k: nat): nat {
    if k == 0 then 1 else 10 * Pow10(k - 1)
  }

  function Zeros(k: nat): (z: string)
    ensures |z| == k && forall i :: 0 <= i < k ==> z[i] == '0'
  {
    if k == 0 then "" else Zeros(k - 1) + "0"
  }

  /** Left padding with zeros to the given width; longer strings are left alone. */
  function PadLeft(s: string, width: nat): string {
    if |s| < width then Zeros(width - |s|) + s else s
  }

  /** strings.TrimRight for a one-character cut set. */
  function TrimRight(s: string, c: char): string {
    if s != "" && s[|s| - 1] == c then TrimRight(s[..|s| - 1], c) else s
  }

  function Repeated(c: char, k: nat): string {
    if k == 0 then "" else Repeated(c, k - 1) + [c]
  }

  lemma {:induction false} DecimalIsNumeral(n: nat)
    ensures AllDigits(Decimal(n)) && Value(Decimal(n)) == n && Decimal(n) != ""
    ensures Decimal(n)[0] == '0' ==> n == 0
    ensures |Decimal(n)| == 1 <==> n < 10
  {
    if n >= 10 {
      DecimalIsNumeral(n / 10);
      assert Decimal(n)[..|Decimal(n)| - 1] == Decimal(n / 10);
    } else {
      assert Decimal(n)[..0] == "";
    }
  }

  /** A numeral without superfluous leading zeros is the notation of its value. */
  lemma {:induction false} NumeralIsDecimal(s: string)
    requires AllDigits(s) && s != "" && (s[0] == '0' ==> |s| == 1)
    ensures Decimal(Value(s)) == s
  {
    var front, last := s[..|s| - 1], DigitValue(s[|s| - 1]);
    if |s| == 1 {
      assert front == "" && Value(s) == last;
    } else {
      NumeralIsDecimal(front);
      PositiveValue(front);
      assert Value(s) / 10 == Value(front) && Value(s) % 10 == last;
    }
  }

  lemma {:induction false} PositiveValue(s: string)
    requires AllDigits(s) && s != "" && s[0] != '0'
    ensures Value(s) > 0
  {
    if |s| > 1 {
      PositiveValue(s[..|s| - 1]);
    }
  }

  lemma OneDigitMore(v: int, p: int, f: int, d: int)
    ensures (v * p + f) * 10 + d == v * (10 * p) + (f * 10 + d)
    ensures (v * p + f) * 10 + d == v * (p * 10) + (f * 10 + d)
  {
  }

  lemma {:induction false} ValueConcat(a: string, b: string)
    requires AllDigits(a) && AllDigits(b)
    ensures AllDigits(a + b)
    ensures Value(a + b) == Value(a) * Pow10(|b|) + Value(b)
  {
    if b == "" {
      assert a + b == a;
    } else {
      var front := b[..|b| - 1];
      assert (a + b)[..|a + b| - 1] == a + front;
      ValueConcat(a, front);
      OneDigitMore(Value(a), Pow10(|front|), Value(front), DigitValue(b[|b| - 1]));
    }
  }

  lemma {:induction false} ValueBound(s: string)
    requires AllDigits(s)
    ensures Value(s) < Pow10(|s|)
  {
    if s != "" {
      ValueBound(s[..|s| - 1]);
    }
  }

  lemma {:induction false} ZerosHaveNoValue(k: nat)
    ensures AllDigits(Zeros(k)) && Value(Zeros(k)) == 0
  {
    if k > 0 {
      ZerosHaveNoValue(k - 1);
      assert Zeros(k)[..k - 1] == Zeros(k - 1);
    }
  }

  lemma PadLeftKeepsValue(s: string, width: nat)
    requires AllDigits(s)
    ensures AllDigits(PadLeft(s, width)) && Value(PadLeft(s, width)) == Value(s)
  {
    if |s| < width {
      ZerosHaveNoValue(width - |s|);
      ValueConcat(Zeros(width - |s|), s);
    }
  }

  lemma {:induction false} DecimalWidth(n: nat, width: nat)
    requires width > 0 && n < Pow10(width)
    ensures |Decimal(n)| <= width
  {
    if width > 1 && n >= 10 {
      DecimalWidth(n / 10, width - 1);
    }
  }

  lemma LeadingZero(rest: string)
    requires AllDigits(rest)
    ensures AllDigits("0" + rest) && Value("0" + rest) == Value(rest)
  {
    ValueConcat("0", rest);
    assert "0"[..0] == "";
  }

  lemma PadOneMore(d: string, n: nat)
    requires |d| <= n
    ensures PadLeft(d, n + 1) == "0" + PadLeft(d, n)
  {
    ZerosShift(n + 1 - |d|);
    assert "0" + Zeros(n - |d|) + d == "0" + (Zeros(n - |d|) + d);
  }

  /** A numeral of a given width is the padded notation of its value. */
  lemma {:induction false} PaddedNumeral(s: string)
    requires AllDigits(s) && s != ""
    ensures PadLeft(Decimal(Value(s)), |s|) == s
  {
    if s[0] == '0' && |s| > 1 {
      var rest := s[1..];
      var value := Value(rest);
      assert s == "0" + rest;
      LeadingZero(rest);
      PaddedNumeral(rest);
      ValueBound(rest);
      DecimalWidth(value, |rest|);
      PadOneMore(Decimal(value), |rest|);
    } else {
      NumeralIsDecimal(s);
    }
  }

  lemma {:induction false} ZerosShift(k: nat)
    requires k > 0
    ensures Zeros(k) == "0" + Zeros(k - 1)
  {
  }

  lemma {:induction false} TrimRestores(s: string, c: char)
    ensures var t := TrimRight(s, c);
            |t| <= |s| && s == t + Repeated(c, |s| - |t|) && (t != "" ==> t[|t| - 1] != c)
  {
    if s != "" && s[|s| - 1] == c {
      TrimRestores(s[..|s| - 1], c);
      assert s == s[..|s| - 1] + [c];
    }
  }

  lemma {:induction false} TrimRepeated(s: string, c: char, k: nat)
    requires s != "" ==> s[|s| - 1] != c
    ensures TrimRight(s + Repeated(c, k), c) == s
  {
    if k > 0 {
      assert (s + Repeated(c, k))[..|s| + |Repeated(c, k)| - 1] == s + Repeated(c, k - 1);
      TrimRepeated(s, c, k - 1);
    } else {
      assert s + Repeated(c, k) == s;
    }
  }

  lemma {:induction false} RepeatedZeros(k: nat)
    ensures Repeated('0', k) == Zeros(k)
  {
    if k > 0 {
      RepeatedZeros(k - 1);
    }
  }

  lemma {:induction false} TrimConcat(a: string, b: string, c: char)
    ensures TrimRight(a + b, c) == if TrimRight(b, c) == "" then TrimRight(a, c) else a + TrimRight(b, c)
  {
    if b == "" {
      assert a + b == a;
    } else if b[|b| - 1] == c {
      assert (a + b)[..|a + b| - 1] == a + b[..|b| - 1];
      TrimConcat(a, b[..|b| - 1], c);
    }
  }

  lemma AtLeastOneTimes(k: int, d: nat)
    requires k >= 1
    ensures k * d >= d
  {
  }

  lemma QuotientUnique(n: int, d: nat, q: int, r: nat)
    requires r < d && n == q * d + r
    ensures n / d == q && n % d == r
  {
    var q', r' := n / d, n % d;
    assert n == q' * d + r';
    assert q * d - q' * d == (q - q') * d;
    assert q' * d - q * d == (q' - q) * d;
    if q - q' >= 1 {
      AtLeastOneTimes(q - q', d);
    } else if q' - q >= 1 {
      AtLeastOneTimes(q' - q, d);
    }
  }
}
