/** The numbers that formatted texts denote, read off their digits alone. */
module Numerals {
  import opened Json
  import opened Zval
  import opened ZvalNumbers

  /** The value of a string of digits, most significant first. */
  function DigitsValue(s: string): nat {
    if s == "" then 0
    else 10 * DigitsValue(s[..|s| - 1]) + (if IsDigit(s[|s| - 1]) then s[|s| - 1] as int - '0' as int else 0)
  }

  /** A decimal number: its digits without the point, and how many of them follow it. */
  datatype Decimal = Decimal(negative: bool, digits: nat, places: nat)

  /** The position of the decimal point, or the length of a text without one. */
  function PointAt(s: string): (p: nat)
    ensures p <= |s| && (p < |s| ==> s[p] == '.') && forall i :: 0 <= i < p ==> s[i] != '.'
  {
    if s == "" || s[0] == '.' then 0 else 1 + PointAt(s[1..])
  }

  /** What a number's text denotes; there are no exponents here. */
  function ReadDecimal(text: string): Decimal {
    var negative := text != "" && text[0] == '-';
    var t := if negative then text[1..] else text;
    var p := PointAt(t);
    if p == |t| then Decimal(negative, DigitsValue(t), 0)
    else Decimal(negative, DigitsValue(t[..p] + t[p + 1..]), |t| - p - 1)
  }

  /** The decimal that an integer is. */
  function Whole(n: int): Decimal { Decimal(n < 0, if n < 0 then -n else n, 0) }

  // ----- digits -----

  lemma {:induction false} DigitsSnoc(s: string, c: char)
    requires IsDigit(c)
    ensures DigitsValue(s + [c]) == 10 * DigitsValue(s) + (c as int - '0' as int)
  {
    assert (s + [c])[..|s|] == s;
  }

  lemma DigitOf(n: nat)
    requires n < 10
    ensures IsDigit(Digit(n)) && Digit(n) as int - '0' as int == n
  {
  }

  /** The decimal printer writes the number it is given. */
  lemma {:induction false} DecValue(n: nat)
    ensures DigitsValue(Dec(n)) == n
  {
    if n < 10 {
      DigitOf(n);
      assert Dec(n) == "" + [Digit(n)];
      DigitsSnoc("", Digit(n));
    } else {
      DecValue(n / 10);
      DigitOf(n % 10);
      DigitsSnoc(Dec(n / 10), Digit(n % 10));
    }
  }

  lemma DivideOnce(n: nat, k: nat)
    requires k > 0
    ensures n % Power10(k) == 10 * (n / 10 % Power10(k - 1)) + n % 10
    ensures n / Power10(k) == n / 10 / Power10(k - 1)
  {
    var m := Power10(k - 1);
    assert Power10(k) == 10 * m;
    hide Power10;
    DivideTens(n, m);
  }

  lemma DivideTens(n: nat, m: nat)
    requires m > 0
    ensures n % (10 * m) == 10 * (n / 10 % m) + n % 10 && n / (10 * m) == n / 10 / m
  {
    var a := n / 10;
    var q, r := a / m, a % m;
    DivMod(a, m);
    Distribute(q, m);
    QuotientIs(n, 10 * m, q, 10 * r + n % 10);
  }

  lemma DivMod(a: nat, m: nat)
    requires m > 0
    ensures a == a / m * m + a % m && a % m < m
  {
  }

  lemma Distribute(q: nat, m: nat)
    ensures 10 * (q * m) == q * (10 * m)
  {
  }

  lemma QuotientIs(n: nat, d: nat, q: nat, r: nat)
    requires d > 0 && n == q * d + r && r < d
    ensures n / d == q && n % d == r
  {
    DivMod(n, d);
    if n / d < q {
      LessQuotient(n / d, q, d);
    } else if q < n / d {
      LessQuotient(q, n / d, d);
    }
  }

  lemma LessQuotient(a: nat, q: nat, d: nat)
    requires a < q
    ensures a * d + d <= q * d
  {
    var e: nat := q - a - 1;
    Spread(a, e, d);
  }

  lemma Spread(a: nat, e: nat, d: nat)
    ensures (a + 1 + e) * d == a * d + d + e * d && e * d >= 0
  {
  }

  /** Padding writes the last digits of the number. */
  lemma {:induction false} PaddedValue(n: nat, width: nat)
    ensures DigitsValue(Padded(n, width)) == n % Power10(width)
    decreases width
  {
    if width > 0 {
      PaddedValue(n / 10, width - 1);
      DigitOf(n % 10);
      DigitsSnoc(Padded(n / 10, width - 1), Digit(n % 10));
      DivideOnce(n, width);
    }
  }

  lemma {:induction false} DigitsConcat(a: string, b: string)
    requires AllDigits(b)
    ensures DigitsValue(a + b) == DigitsValue(a) * Power10(|b|) + DigitsValue(b)
    decreases |b|
  {
    if b == "" {
      assert a + b == a;
    } else {
      var front, c := b[..|b| - 1], b[|b| - 1];
      assert b == front + [c] && a + b == (a + front) + [c];
      DigitsConcat(a, front);
      DigitsSnoc(a + front, c);
      DigitsSnoc(front, c);
      Distribute(DigitsValue(a), Power10(|front|));
    }
  }

  /** A number without its last `k` digits. */
  function Drop(n: nat, k: nat): nat { if k == 0 then n else Drop(n / 10, k - 1) }

  /** Cutting digits off drops them. */
  lemma {:induction false} DigitsCut(s: string, k: nat)
    requires AllDigits(s) && k <= |s|
    ensures DigitsValue(s[..|s| - k]) == Drop(DigitsValue(s), k)
    decreases k
  {
    if k == 0 {
      assert s[..|s|] == s;
    } else {
      var front, c := s[..|s| - 1], s[|s| - 1];
      DigitsCut(front, k - 1);
      assert s == front + [c] && front[..|front| - (k - 1)] == s[..|s| - k];
      DigitsSnoc(front, c);
      assert DigitsValue(s) / 10 == DigitsValue(front);
    }
  }

  // ----- whole texts -----

  lemma {:induction false} NoPoint(s: string)
    requires AllDigits(s)
    ensures PointAt(s) == |s|
  {
    if s != "" {
      NoPoint(s[1..]);
    }
  }

  lemma {:induction false} PointAfter(s: string, f: string)
    requires AllDigits(s)
    ensures PointAt(s + "." + f) == |s|
  {
    if s == "" {
      assert ("" + "." + f)[0] == '.';
    } else {
      PointAfter(s[1..], f);
      assert (s + "." + f)[1..] == s[1..] + "." + f;
    }
  }

  lemma {:induction false} ReadWhole(negative: bool, s: string)
    requires Integral(s)
    ensures ReadDecimal((if negative then "-" else "") + s) == Decimal(negative, DigitsValue(s), 0)
  {
    hide DigitsValue, PointAt;
    var text := (if negative then "-" else "") + s;
    assert (if negative then text[1..] else text) == s;
    NoPoint(s);
  }

  lemma {:induction false} ReadPoint(negative: bool, s: string, f: string)
    requires Integral(s)
    ensures ReadDecimal((if negative then "-" else "") + s + "." + f) == Decimal(negative, DigitsValue(s + f), |f|)
  {
    hide DigitsValue, PointAt;
    var text, t := (if negative then "-" else "") + s + "." + f, s + "." + f;
    assert (if negative then text[1..] else text) == t;
    PointAfter(s, f);
    assert t[..|s|] == s && t[|s| + 1..] == f;
  }

  /** An integer's text denotes the integer. */
  lemma {:induction false} SignedValue(n: int)
    ensures ReadDecimal(SignedText(n)) == Whole(n)
  {
    hide Dec, ReadDecimal;
    var m := if n < 0 then -n else n;
    DecIntegral(m);
    DecValue(m);
    ReadWhole(n < 0, Dec(m));
    assert "" + Dec(m) == Dec(m);
  }

  lemma LongValue(n: int64)
    ensures ReadDecimal(LongText(n)) == Whole(n as int)
  {
    SignedValue(n as int);
  }

  /** A number split into its whole part and its fraction, digit by digit. */
  lemma {:induction false} SplitDigits(n: nat, whole: nat, rest: nat, m: nat, k: nat)
    requires m == Power10(k) && rest < m && n == whole * m + rest
    ensures DigitsValue(Dec(whole) + Padded(rest, k)) == n
    ensures Integral(Dec(whole)) && AllDigits(Padded(rest, k)) && |Padded(rest, k)| == k
  {
    hide Dec, Padded, DigitsValue, Power10, Integral;
    DecIntegral(whole);
    IntegralDigits(Dec(whole));
    PaddedDigits(rest, k);
    DecValue(whole);
    PaddedValue(rest, k);
    SmallRest(rest, m);
    DigitsConcat(Dec(whole), Padded(rest, k));
  }

  lemma IntegralDigits(s: string)
    requires Integral(s)
    ensures AllDigits(s)
  {
  }

  lemma SmallRest(a: nat, m: nat)
    requires a < m
    ensures a % m == a
  {
  }

  lemma {:induction false} FitsWhole(negative: bool, s: string, f: string)
    requires Integral(s) && (if negative then 1 else 0) + |s| + 1 + |f| <= 63
    ensures ReadCut(negative, s, f) == Decimal(negative, DigitsValue(s + f), |f|)
  {
    hide ReadDecimal, DigitsValue, Integral;
    ReadPoint(negative, s, f);
  }

  lemma {:induction false} FitsPart(negative: bool, s: string, f: string)
    requires Integral(s) && AllDigits(f)
    requires var w := (if negative then 1 else 0) + |s|; w < 62 < w + |f|
    ensures var w := (if negative then 1 else 0) + |s|;
            ReadCut(negative, s, f) == Decimal(negative, Drop(DigitsValue(s + f), w + |f| - 62), 62 - w)
  {
    hide ReadDecimal, DigitsValue, Drop;
    var sign := if negative then "-" else "";
    var w, cut := |sign| + |s|, f[..62 - |sign| - |s|];
    assert (sign + s + "." + f)[..63] == sign + s + "." + cut;
    DigitsJoin(s, f);
    ReadPoint(negative, s, cut);
    hide Integral, AllDigits;
    assert s + cut == (s + f)[..|s + f| - (w + |f| - 62)];
    DigitsCut(s + f, w + |f| - 62);
  }

  lemma {:induction false} DigitsJoin(s: string, f: string)
    requires AllDigits(s) && AllDigits(f)
    ensures AllDigits(s + f)
  {
  }

  lemma FrontOf(sign: string, s: string, rest: string, m: nat)
    requires m <= |s|
    ensures (sign + s + rest)[..|sign| + m] == sign + s[..m]
  {
  }

  lemma {:induction false} FrontIntegral(s: string, m: nat)
    requires Integral(s) && 2 <= m <= |s|
    ensures Integral(s[..m])
  {
  }

  lemma {:induction false} FitsNoPoint(negative: bool, s: string, f: string)
    requires Integral(s) && AllDigits(f) && (if negative then 1 else 0) + |s| > 62
    ensures var w := (if negative then 1 else 0) + |s|;
            ReadCut(negative, s, f) == Decimal(negative, Drop(DigitsValue(s + f), w + |f| - 63), 0)
  {
    hide ReadDecimal, DigitsValue, Drop;
    var sign := if negative then "-" else "";
    var w, cut := |sign| + |s|, s[..63 - |sign|];
    DigitsJoin(s, f);
    FrontOf(sign, s, "." + f, 63 - |sign|);
    assert sign + s + "." + f == sign + s + ("." + f);
    FrontIntegral(s, 63 - |sign|);
    ReadWhole(negative, cut);
    hide Integral, AllDigits;
    assert cut == (s + f)[..|s + f| - (w + |f| - 63)];
    DigitsCut(s + f, w + |f| - 63);
  }

  /** What the 64-byte buffer keeps of a number: everything, or the number without its last
      decimals, or without any decimals and its last digits. */
  lemma {:induction false} CutValue(negative: bool, s: string, f: string)
    requires Integral(s) && AllDigits(f) && 1 <= |f|
    ensures var w, v := (if negative then 1 else 0) + |s|, ReadCut(negative, s, f);
            && (w + 1 + |f| <= 63 ==> v == Decimal(negative, DigitsValue(s + f), |f|))
            && (w < 62 < w + |f| ==> v == Decimal(negative, Drop(DigitsValue(s + f), w + |f| - 62), 62 - w))
            && (w > 62 ==> v == Decimal(negative, Drop(DigitsValue(s + f), w + |f| - 63), 0))
  {
    hide ReadCut, DigitsValue, Drop, Integral, AllDigits;
    var w := (if negative then 1 else 0) + |s|;
    if w + 1 + |f| <= 63 {
      FitsWhole(negative, s, f);
    } else if w < 62 {
      FitsPart(negative, s, f);
    } else if w > 62 {
      FitsNoPoint(negative, s, f);
    }
  }

  function ReadCut(negative: bool, s: string, f: string): Decimal {
    ReadDecimal(Fit64((if negative then "-" else "") + s + "." + f))
  }

  lemma Millions()
    ensures Power10(6) == 1000000 && Power10(3) == 1000
  {
  }

  /** What a finite double's text denotes: the double while sign and whole part take at most
      56 characters, then with the last of its six decimals cut off, and from 63 characters on
      another number, the last digits of its whole part missing. */
  predicate DoubleReads(negative: bool, micros: nat, v: Decimal) {
    var w := IntegerWidth(negative, micros);
    && (w <= 56 ==> v == Decimal(negative, micros, 6))
    && (56 < w < 62 ==> v == Decimal(negative, Drop(micros, w - 56), 62 - w))
    && (w > 62 ==> v == Decimal(negative, Drop(micros, w - 57), 0))
  }

  lemma {:induction false} DoubleValue(negative: bool, micros: nat)
    ensures DoubleReads(negative, micros, ReadDecimal(DoubleText(Finite(negative, micros))))
  {
    Millions();
    SplitDigits(micros, micros / 1000000, micros % 1000000, 1000000, 6);
    hide ReadDecimal, DigitsValue, Power10, Dec, Padded, Drop, Integral, AllDigits;
    CutValue(negative, Dec(micros / 1000000), Padded(micros % 1000000, 6));
  }

  /** The same for a time in milliseconds, with three decimals. */
  predicate MilliReads(micros: nat, v: Decimal) {
    var w := MilliWidth(micros);
    && (w <= 59 ==> v == Decimal(false, micros, 3))
    && (59 < w < 62 ==> v == Decimal(false, Drop(micros, w - 59), 62 - w))
    && (w > 62 ==> v == Decimal(false, Drop(micros, w - 60), 0))
  }

  lemma {:induction false} MilliValue(micros: nat)
    ensures MilliReads(micros, ReadDecimal(MilliText(micros)))
  {
    Millions();
    SplitDigits(micros, micros / 1000, micros % 1000, 1000, 3);
    hide ReadDecimal, DigitsValue, Power10, Dec, Padded, Drop, Integral, AllDigits;
    CutValue(false, Dec(micros / 1000), Padded(micros % 1000, 3));
    assert "" + Dec(micros / 1000) == Dec(micros / 1000);
  }
}
