/** Which formatted numbers are JSON numbers, given the 64-byte buffer they pass through. */
module ZvalNumbers {
  import opened Seqs
  import opened Json
  import opened Zval
  import opened ZvalJson

  predicate AllDigits(s: string) { forall i :: 0 <= i < |s| ==> IsDigit(s[i]) }

  /** Digits as `Dec` writes them: none missing and no leading zero. */
  predicate Integral(s: string) { s != "" && AllDigits(s) && (s[0] == '0' ==> |s| == 1) }

  lemma {:induction false} SkipAllDigits(q: string, tail: string)
    requires AllDigits(q) && (tail == "" || !IsDigit(tail[0]))
    ensures SkipDigits(q + tail) == tail
  {
    if q == "" {
      assert q + tail == tail;
    } else {
      SkipAllDigits(q[1..], tail);
      assert (q + tail)[1..] == q[1..] + tail;
    }
  }

  lemma ScanIntegral(s: string, tail: string)
    requires Integral(s) && (tail == "" || !IsDigit(tail[0]))
    ensures ScanInt(s + tail) == Some(tail)
  {
    assert (s + tail)[1..] == s[1..] + tail;
    if s[0] == '0' {
      assert s[1..] + tail == tail;
    } else {
      SkipAllDigits(s[1..], tail);
    }
  }

  lemma {:induction false} DecIntegral(n: nat)
    ensures Integral(Dec(n))
  {
    DecDigits(n);
    if n != 0 {
      assert Dec(n)[0] != '0';
    }
  }

  lemma {:induction false} PaddedDigits(n: nat, width: nat)
    ensures |Padded(n, width)| == width && AllDigits(Padded(n, width))
    decreases width
  {
    if width > 0 {
      PaddedDigits(n / 10, width - 1);
    }
  }

  /** An optional sign and an integer. */
  lemma IntegerIsValid(negative: bool, s: string)
    requires Integral(s)
    ensures ValidNumber((if negative then "-" else "") + s)
  {
    UnsignedScan(negative, s, "");
    var text := (if negative then "-" else "") + s;
    assert text + "" == text;
  }

  /** ... followed by a fraction with at least one digit. */
  lemma DecimalIsValid(negative: bool, s: string, fraction: string)
    requires Integral(s) && AllDigits(fraction) && fraction != ""
    ensures ValidNumber((if negative then "-" else "") + s + "." + fraction)
  {
    var text, tail := (if negative then "-" else "") + s, "." + fraction;
    UnsignedScan(negative, s, tail);
    assert text + tail == text + "." + fraction;
    SkipAllDigits(fraction, "");
    assert fraction + "" == fraction && tail[1..] == fraction;
    hide ScanInt;
    assert ScanFrac(tail) == Some("");
  }

  /** ... followed by a bare decimal point. */
  lemma BarePointIsBroken(negative: bool, s: string)
    requires Integral(s)
    ensures var text := (if negative then "-" else "") + s + ".";
            BrokenNumber(text) && ScanNumber(text) == None
  {
    UnsignedScan(negative, s, ".");
    hide ScanInt;
    assert ScanFrac(".") == None;
  }

  lemma UnsignedScan(negative: bool, s: string, tail: string)
    requires Integral(s) && (tail == "" || !IsDigit(tail[0]))
    ensures var text := (if negative then "-" else "") + s + tail;
            ScanInt(if Starts(text, '-') then text[1..] else text) == Some(tail)
  {
    ScanIntegral(s, tail);
    var text := (if negative then "-" else "") + s + tail;
    if negative {
      assert text[1..] == s + tail;
    } else {
      assert text == s + tail;
    }
  }

  lemma SignedTextIsValid(n: int)
    ensures ValidNumber(SignedText(n))
  {
    var m := if n < 0 then -n else n;
    DecIntegral(m);
    IntegerIsValid(n < 0, Dec(m));
    assert "" + Dec(m) == Dec(m);
  }

  lemma LongTextIsValid(n: int64)
    ensures ValidNumber(LongText(n))
  {
    hide ValidNumber, SignedText;
    SignedTextIsValid(n as int);
  }

  /** The characters before the decimal point. */
  function IntegerWidth(negative: bool, micros: nat): nat {
    (if negative then 1 else 0) + |Dec(micros / 1000000)|
  }

  /** A double's text is a JSON number exactly when the double is finite and the buffer
      does not cut it right after its decimal point. */
  lemma DoubleTextIsValidIff(d: Double)
    ensures ValidNumber(DoubleText(d)) <==> d.Finite? && IntegerWidth(d.negative, d.micros) != 62
    ensures ValidNumber(DoubleText(d)) || BrokenNumber(DoubleText(d))
  {
    match d {
      case NotANumber => assert ScanInt("nan") == None;
      case Infinite(negative) => assert "-inf"[1..] == "inf" && ScanInt("inf") == None;
      case Finite(negative, micros) => FiniteText(negative, micros);
    }
  }

  lemma FiniteText(negative: bool, micros: nat)
    ensures var text := DoubleText(Finite(negative, micros));
            if IntegerWidth(negative, micros) != 62 then ValidNumber(text) else !ValidNumber(text) && BrokenNumber(text)
  {
    hide ValidNumber, BrokenNumber, Fit64;
    DecIntegral(micros / 1000000);
    PaddedDigits(micros % 1000000, 6);
    FixedText(negative, Dec(micros / 1000000), Padded(micros % 1000000, 6));
  }

  /** A number with any fraction, cut off by the buffer. */
  lemma FixedText(negative: bool, s: string, f: string)
    requires Integral(s) && AllDigits(f) && f != ""
    ensures var sign := if negative then "-" else "";
            var text := Fit64(sign + s + "." + f);
            if |sign| + |s| != 62 then ValidNumber(text) else !ValidNumber(text) && BrokenNumber(text)
  {
    var sign := if negative then "-" else "";
    var w, full := |sign| + |s|, sign + s + "." + f;
    hide ScanNumber;
    if w + 1 + |f| <= 63 {
      DecimalIsValid(negative, s, f);
      assert Fit64(full) == full;
    } else if w < 62 {
      var cut := f[..62 - w];
      DecimalIsValid(negative, s, cut);
      assert full[..63] == sign + s + "." + cut;
    } else if w == 62 {
      BarePointIsBroken(negative, s);
      assert full[..63] == sign + s + ".";
    } else {
      var cut := s[..63 - |sign|];
      assert Integral(cut);
      IntegerIsValid(negative, cut);
      assert full[..63] == sign + cut;
    }
  }

  /** The characters before the decimal point of a time in milliseconds. */
  function MilliWidth(micros: nat): nat { |Dec(micros / 1000)| }

  lemma MilliTextIsValidIff(micros: nat)
    ensures ValidNumber(MilliText(micros)) <==> MilliWidth(micros) != 62
    ensures ValidNumber(MilliText(micros)) || BrokenNumber(MilliText(micros))
  {
    hide ValidNumber, BrokenNumber, Fit64;
    DecIntegral(micros / 1000);
    PaddedDigits(micros % 1000, 3);
    FixedText(false, Dec(micros / 1000), Padded(micros % 1000, 3));
    assert "" + Dec(micros / 1000) == Dec(micros / 1000);
  }

  function Power2(k: nat): nat { if k == 0 then 1 else 2 * Power2(k - 1) }

  /** Two to the 203rd power, a double with 62 digits before its point, prints with a bare
      point at the end. */
  lemma {:induction false} HugeDoubleBreaks()
    ensures !ValidNumber(DoubleText(Finite(false, Power2(203) * 1000000)))
  {
    var n := Power2(203);
    assert n == 12855504354071922204335696738729300820177623950262342682411008 by { PowerOfTwo(); }
    assert Power10(61) <= n < Power10(62) by { PowersOfTen(); }
    DecLength(n, 62);
    DoubleTextIsValidIff(Finite(false, n * 1000000));
    assert n * 1000000 / 1000000 == n;
  }

  lemma {:induction false} PowerOfTwo()
    ensures Power2(203) == 12855504354071922204335696738729300820177623950262342682411008
  {
    assert Power2(3) == 8 && Power2(8) == 256;
    Power2Sum(8, 8, 256, 256);
    Power2Sum(16, 16, 65536, 65536);
    Power2Sum(32, 32, 4294967296, 4294967296);
    Power2Sum(64, 64, 18446744073709551616, 18446744073709551616);
    Power2Sum(128, 64, 340282366920938463463374607431768211456, 18446744073709551616);
    Power2Sum(192, 8, 6277101735386680763835789423207666416102355444464034512896, 256);
    Power2Sum(200, 3, 1606938044258990275541962092341162602522202993782792835301376, 8);
  }

  lemma {:induction false} Power2Sum(a: nat, b: nat, x: nat, y: nat)
    requires Power2(a) == x && Power2(b) == y
    ensures Power2(a + b) == x * y
    decreases b
  {
    if b > 0 {
      Power2Sum(a, b - 1, x, y / 2);
      assert x * y == 2 * (x * (y / 2));
    }
  }

  lemma {:induction false} PowersOfTen()
    ensures Power10(61) == 10000000000000000000000000000000000000000000000000000000000000
    ensures Power10(62) == 100000000000000000000000000000000000000000000000000000000000000
  {
    assert Power10(1) == 10 && Power10(5) == 100000;
    Power10Sum(5, 5, 100000, 100000);
    Power10Sum(10, 10, 10000000000, 10000000000);
    Power10Sum(20, 20, 100000000000000000000, 100000000000000000000);
    Power10Sum(40, 20, 10000000000000000000000000000000000000000, 100000000000000000000);
    Power10Sum(60, 1, 1000000000000000000000000000000000000000000000000000000000000, 10);
    Power10Sum(61, 1, 10000000000000000000000000000000000000000000000000000000000000, 10);
  }

  lemma {:induction false} Power10Sum(a: nat, b: nat, x: nat, y: nat)
    requires Power10(a) == x && Power10(b) == y
    ensures Power10(a + b) == x * y
    decreases b
  {
    if b > 0 {
      Power10Sum(a, b - 1, x, y / 10);
      assert x * y == 10 * (x * (y / 10));
    }
  }

  function Power10(k: nat): (p: nat)
    ensures p > 0
  {
    if k == 0 then 1 else 10 * Power10(k - 1)
  }

  lemma {:induction false} PowerTen(j: nat)
    ensures j > 0 ==> Power10(j) >= 10
  {
  }

  lemma {:induction false} DecLength(n: nat, k: nat)
    requires k >= 1 && n < Power10(k)
    ensures |Dec(n)| <= k
    ensures forall j: nat :: Power10(j) <= n ==> j < |Dec(n)|
    decreases k
  {
    if n >= 10 {
      assert k > 1;
      DecLength(n / 10, k - 1);
      forall j: nat | Power10(j) <= n
        ensures j < |Dec(n)|
      {
        if j > 0 {
          assert Power10(j - 1) <= n / 10;
        }
      }
    } else {
      forall j: nat | Power10(j) <= n
        ensures j < |Dec(n)|
      {
        PowerTen(j);
      }
    }
  }
}
