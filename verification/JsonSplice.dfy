/** Taking a text apart: what a parser consumed parses the same in front of any other text,
    and the members of one object can be continued by those of another. */
module JsonSplice {
  import opened Seqs
  import opened Json
  import opened JsonRoundTrip
  import opened JsonFragments

  // ----- what a parser consumed -----

  lemma {:induction false} SkippedWs(s: string) returns (w: string)
    ensures s == w + SkipWs(s) && SkipWs(w) == ""
    ensures SkipWs(s) != "" ==> !IsWs(SkipWs(s)[0])
  {
    if s != "" && IsWs(s[0]) {
      hide IsWs;
      var w' := SkippedWs(s[1..]);
      w := [s[0]] + w';
      assert w[0] == s[0] && w[1..] == w';
      var rest := SkipWs(s);
      assert SkipWs(s[1..]) == rest && SkipWs(w') == SkipWs(w);
      hide SkipWs;
      assert s == [s[0]] + s[1..] && [s[0]] + (w' + rest) == w + rest;
    } else {
      w := "";
    }
  }

  /** How many characters stand for the first one of a string that does not end here. */
  function HeadLength(s: string): (k: nat)
    requires ParseString(s).Ok? && s[0] != '"'
    ensures 0 < k <= |s|
  {
    if s[0] != '\\' then 1 else if Unescape(s[1]).Some? then 2 else 6
  }

  function HeadFront(s: string): string
    requires ParseString(s).Ok? && s[0] != '"'
  {
    if s[0] != '\\' then [s[0]]
    else if Unescape(s[1]).Some? then [Unescape(s[1]).value]
    else Utf8(Hex4(s[2..6]).value)
  }

  /** The first character, escaped or not, parses the same in front of any text. */
  lemma {:induction false} StringHead(s: string, z: string)
    requires ParseString(s).Ok? && s[0] != '"'
    ensures ParseString(s) == Prepend(HeadFront(s), ParseString(s[HeadLength(s)..]))
    ensures ParseString(s[..HeadLength(s)] + z) == Prepend(HeadFront(s), ParseString(z))
  {
    hide Utf8, Hex4, Unescape, Prepend;
    var k := HeadLength(s);
    var u := s[..k] + z;
    assert u[k..] == z && u[0] == s[0];
    if k > 1 {
      assert u[1] == s[1];
    }
    if k > 2 {
      assert u[2..6] == s[2..6];
    }
  }

  lemma {:induction false} QuoteEnds(s: string, y: string)
    requires s != "" && s[0] == '"'
    ensures ParseString(s) == Ok("", s[1..]) && ParseString(s[..1] + y) == Ok("", y)
  {
    assert (s[..1] + y)[1..] == y;
  }

  lemma {:induction false} StringNotEmpty(s: string)
    requires ParseString(s).Ok?
    ensures s != ""
  {
  }

  lemma {:induction false} ParseStringSwap(s: string, y: string) returns (c: string)
    requires ParseString(s).Ok?
    ensures s == c + ParseString(s).rest && ParseString(c + y) == Ok(ParseString(s).value, y)
  {
    hide ParseString, HeadFront, HeadLength, Unescape;
    StringNotEmpty(s);
    if s[0] == '"' {
      QuoteEnds(s, y);
      c := s[..1];
    } else {
      var k := HeadLength(s);
      StringHead(s, "");
      var c' := ParseStringSwap(s[k..], y);
      StringHead(s, c' + y);
      c := s[..k] + c';
      assert c + y == s[..k] + (c' + y);
      assert s == s[..k] + s[k..] == c + ParseString(s).rest;
    }
  }

  lemma {:induction false} DigitsSwap(s: string) returns (c: string)
    ensures s == c + SkipDigits(s) && SkipDigits(c) == ""
  {
    if s != "" && IsDigit(s[0]) {
      hide IsDigit;
      var c' := DigitsSwap(s[1..]);
      c := [s[0]] + c';
      assert c[0] == s[0] && c[1..] == c';
      var rest := SkipDigits(s);
      assert SkipDigits(s[1..]) == rest && SkipDigits(c') == SkipDigits(c);
      hide SkipDigits;
      assert s == [s[0]] + s[1..] && [s[0]] + (c' + rest) == c + rest;
    } else {
      c := "";
    }
  }

  lemma {:induction false} IntSwap(s: string) returns (c: string)
    requires ScanInt(s).Some?
    ensures s == c + ScanInt(s).value && ScanInt(c) == Some("") && c != "" && c[0] == s[0]
  {
    if s[0] == '0' {
      c := s[..1];
    } else {
      var c' := DigitsSwap(s[1..]);
      c := [s[0]] + c';
      assert c[1..] == c';
    }
  }

  lemma {:induction false} FracSwap(s: string) returns (c: string)
    requires ScanFrac(s).Some?
    ensures s == c + ScanFrac(s).value && ScanFrac(c) == Some("") && (c == "" || c[0] == '.')
  {
    if Starts(s, '.') {
      var c' := DigitsSwap(s[1..]);
      c := [s[0]] + c';
      assert c[1..] == c' && c' != "" && c'[0] == s[1];
    } else {
      c := "";
    }
  }

  lemma {:induction false} ExpSwap(s: string) returns (c: string)
    requires ScanExp(s).Some?
    ensures s == c + ScanExp(s).value && ScanExp(c) == Some("") && (c == "" || c[0] == 'e' || c[0] == 'E')
  {
    if !Starts(s, 'e') && !Starts(s, 'E') {
      c := "";
    } else if Starts(s[1..], '+') || Starts(s[1..], '-') {
      var c' := DigitsSwap(s[2..]);
      c := s[..2] + c';
      assert c[1..][0] == s[1..][0] && c[2..] == c' && c' != "" && c'[0] == s[2];
    } else {
      var c' := DigitsSwap(s[1..]);
      c := s[..1] + c';
      assert c[1..] == c' && c' != "" && c'[0] == s[1];
    }
  }

  /** The scanned part of a number is a number. */
  lemma {:induction false} NumberSwap(t: string) returns (c: string)
    requires ScanNumber(t).Some?
    ensures t == c + ScanNumber(t).value && ValidNumber(c)
  {
    hide ScanInt, ScanFrac, ScanExp;
    var sign := if Starts(t, '-') then "-" else "";
    var t0 := if Starts(t, '-') then t[1..] else t;
    assert t == sign + t0;
    c := UnsignedSwap(t, sign, t0);
  }

  lemma {:induction false} UnsignedSwap(t: string, sign: string, t0: string) returns (c: string)
    requires ScanNumber(t).Some? && t == sign + t0
    requires if Starts(t, '-') then sign == "-" else sign == ""
    ensures t == c + ScanNumber(t).value && ValidNumber(c)
  {
    hide ScanFrac, ScanExp, ValidNumber;
    assert t0 == if Starts(t, '-') then t[1..] else t;
    var t1 := ScanInt(t0).value;
    var t2 := ScanFrac(t1).value;
    var i := IntSwap(t0);
    hide ScanInt;
    var f := FracSwap(t1);
    var e := ExpSwap(t2);
    c := sign + (i + (f + e));
    SignedNumber(sign, i, f, e, t0);
    FourParts(sign, i, f, e, ScanNumber(t).value);
  }

  lemma {:induction false} FourParts(sign: string, i: string, f: string, e: string, r: string)
    ensures sign + (i + (f + (e + r))) == sign + (i + (f + e)) + r
  {
  }

  lemma {:induction false} SignedNumber(sign: string, i: string, f: string, e: string, t0: string)
    requires ScanInt(i) == Some("") && ScanFrac(f) == Some("") && ScanExp(e) == Some("")
    requires i != "" && (f == "" || f[0] == '.') && (e == "" || e[0] == 'e' || e[0] == 'E')
    requires sign == "-" || (sign == "" && i[0] != '-')
    ensures ValidNumber(sign + (i + (f + e)))
  {
    var c := sign + (i + (f + e));
    IntThen(i, f + e);
    FracThen(f, e);
    assert (if Starts(c, '-') then c[1..] else c) == i + (f + e) by {
      assert sign == "-" ==> c[1..] == i + (f + e);
      assert sign == "" ==> c == i + (f + e) && c[0] == i[0];
    }
  }

  /** A fraction or an exponent is no part of an integer. */
  lemma {:induction false} IntThen(i: string, x: string)
    requires ScanInt(i) == Some("") && (x == "" || x[0] == '.' || x[0] == 'e' || x[0] == 'E')
    ensures ScanInt(i + x) == Some(x)
  {
    if i[0] == '0' {
      assert (i + x)[1..] == x;
    } else {
      DigitsThen(i[1..], x);
      assert (i + x)[1..] == i[1..] + x;
    }
  }

  lemma {:induction false} FracThen(f: string, x: string)
    requires ScanFrac(f) == Some("") && (f == "" || f[0] == '.') && (x == "" || x[0] == 'e' || x[0] == 'E')
    ensures ScanFrac(f + x) == Some(x)
  {
    if f != "" {
      DigitsThen(f[1..], x);
      assert (f + x)[1..] == f[1..] + x;
    } else {
      assert f + x == x;
    }
  }

  lemma {:induction false} DigitsThen(d: string, x: string)
    requires SkipDigits(d) == "" && (x == "" || !IsDigit(x[0]))
    ensures SkipDigits(d + x) == x
    decreases |d|
  {
    if d == "" {
      assert d + x == x;
    } else {
      DigitsThen(d[1..], x);
      assert (d + x)[1..] == d[1..] + x;
    }
  }

  // ----- values, arrays, objects -----

  /** `c` is what parsing `s` consumed, and parses to the same value in front of `y`. */
  ghost predicate Consumed<T>(p: Parsed<T>, s: string, c: string, q: Parsed<T>, y: string) {
    p.Ok? && s == c + p.rest && q == Ok(p.value, y)
  }

  lemma {:induction false} ValueAfterWs(w: string, u: string)
    requires SkipWs(w) == ""
    ensures ParseValue(w + ("[" + u)) == ParseArray(u)
    ensures ParseValue(w + ("{" + u)) == ParseObject(u)
    ensures ParseValue(w + ("\"" + u)) ==
              match ParseString(u) case Fail => Fail case Ok(str, rest) => Ok(Str(str), rest)
    ensures SkipWs(w + ("[" + u)) != "" && SkipWs(w + ("{" + u)) != "" && SkipWs(w + ("\"" + u)) != ""
  {
    hide ParseArray, ParseObject, ParseString, ScanNumber;
    AfterWs(w, '[', u);
    AfterWs(w, '{', u);
    AfterWs(w, '"', u);
    assert ("[" + u)[1..] == u && ("{" + u)[1..] == u && ("\"" + u)[1..] == u;
  }

  /** The consumed part of a value that starts with `a` and goes on with `d`. */
  lemma {:induction false} Frame(s: string, w: string, t: string, d: string, r: string, y: string)
    requires s == w + t && t != "" && t[1..] == d + r
    ensures s == w + ([t[0]] + t[1..]) && s == (w + ([t[0]] + d)) + r
    ensures (w + ([t[0]] + d)) + y == w + ([t[0]] + (d + y))
  {
    assert t == [t[0]] + t[1..];
  }

  lemma {:induction false} ValueNotEmpty(s: string)
    requires ParseValue(s).Ok?
    ensures SkipWs(s) != ""
  {
    hide ParseArray, ParseObject, ParseString, ScanNumber;
  }

  lemma {:induction false} ParseValueSwap(s: string, y: string) returns (c: string)
    requires ParseValue(s).Ok? && StopsNumber(y)
    ensures Consumed(ParseValue(s), s, c, ParseValue(c + y), y) && SkipWs(c) != ""
    decreases |s|, 2
  {
    ValueNotEmpty(s);
    var t := SkipWs(s);
    var w := SkippedWs(s);
    if t[0] == '"' {
      c := QuotedSwap(s, t, w, y);
    } else if t[0] == '[' {
      hide ParseValue, ParseArray, SkipWs;
      assert t == "[" + t[1..];
      ValueAfterWs(w, t[1..]);
      var d := ParseArraySwap(t[1..], y);
      Frame(s, w, t, d, ParseArray(t[1..]).rest, y);
      ValueAfterWs(w, d + y);
      ValueAfterWs(w, d);
      c := w + ("[" + d);
    } else if t[0] == '{' {
      hide ParseValue, ParseObject, SkipWs;
      assert t == "{" + t[1..];
      ValueAfterWs(w, t[1..]);
      var d := ParseObjectSwap(t[1..], y);
      Frame(s, w, t, d, ParseObject(t[1..]).rest, y);
      ValueAfterWs(w, d + y);
      ValueAfterWs(w, d);
      c := w + ("{" + d);
    } else {
      hide ParseValue;
      if "null" <= t || "true" <= t || "false" <= t {
        c := LiteralSwap(s, t, w, y);
      } else {
        c := NumberValueSwap(s, t, w, y);
      }
    }
  }

  lemma {:induction false} QuotedSwap(s: string, t: string, w: string, y: string) returns (c: string)
    requires SkipWs(s) == t && s == w + t && SkipWs(w) == "" && ParseValue(s).Ok? && t != "" && t[0] == '"'
    ensures Consumed(ParseValue(s), s, c, ParseValue(c + y), y) && SkipWs(c) != ""
  {
    hide ParseValue, ParseString, SkipWs;
    assert t == "\"" + t[1..];
    ValueAfterWs(w, t[1..]);
    var d := ParseStringSwap(t[1..], y);
    Frame(s, w, t, d, ParseString(t[1..]).rest, y);
    ValueAfterWs(w, d + y);
    ValueAfterWs(w, d);
    c := w + ("\"" + d);
  }

  lemma {:induction false} AfterWs(w: string, a: char, x: string)
    requires SkipWs(w) == "" && !IsWs(a)
    ensures SkipWs(w + ([a] + x)) == [a] + x
  {
    SkipWsBefore(w, [a] + x);
  }

  predicate Literal(text: string) { text == "null" || text == "true" || text == "false" }

  function LiteralJson(text: string): Json
    requires Literal(text)
  {
    if text == "null" then Null else Bool(text == "true")
  }

  /** White space in front of a value does not matter. */
  lemma {:induction false} SameSkipped(s: string, t: string)
    requires SkipWs(s) == SkipWs(t)
    ensures ParseValue(s) == ParseValue(t)
  {
    hide SkipWs, ParseString, ParseArray, ParseObject, ScanNumber;
  }

  lemma {:induction false} LiteralValue(w: string, text: string, x: string)
    requires SkipWs(w) == "" && Literal(text)
    ensures ParseValue(w + (text + x)) == Ok(LiteralJson(text), x) && SkipWs(w + text) != ""
  {
    ParseLiteral(LiteralJson(text), x);
    assert Print(LiteralJson(text)) == text;
    hide SkipWs, ParseValue;
    SkipWsBefore(w, text + x);
    SkipWsBefore(w, text);
    VisibleFront(text + x);
    SameSkipped(w + (text + x), text + x);
  }

  lemma {:induction false} VisibleFront(u: string)
    requires u != "" && !IsWs(u[0])
    ensures SkipWs(u) == u
  {
  }

  lemma {:induction false} LiteralSwap(s: string, t: string, w: string, y: string) returns (c: string)
    requires SkipWs(s) == t && s == w + t && SkipWs(w) == "" && ("null" <= t || "true" <= t || "false" <= t)
    ensures Consumed(ParseValue(s), s, c, ParseValue(c + y), y) && SkipWs(c) != ""
  {
    hide ParseValue, SkipWs, LiteralJson;
    var text := if "null" <= t then "null" else if "true" <= t then "true" else "false";
    var r := t[|text|..];
    assert t == text + r;
    LiteralValue(w, text, r);
    LiteralValue(w, text, y);
    c := w + text;
    Regroup(w, text, r);
    Regroup(w, text, y);
  }

  lemma {:induction false} NumberAfterWs(w: string, d: string)
    requires SkipWs(w) == "" && ValidNumber(d)
    ensures SkipWs(w + d) != ""
  {
    hide ScanNumber;
    NumberStart(d);
    SkipWsBefore(w, d);
  }

  lemma {:induction false} NumberValueSwap(s: string, t: string, w: string, y: string) returns (c: string)
    requires SkipWs(s) == t && s == w + t && SkipWs(w) == "" && ParseValue(s).Ok? && StopsNumber(y)
    requires t != "" && t[0] != '"' && t[0] != '[' && t[0] != '{' && !("null" <= t) && !("true" <= t) && !("false" <= t)
    ensures Consumed(ParseValue(s), s, c, ParseValue(c + y), y) && SkipWs(c) != ""
  {
    hide ScanNumber, ParseValue, SkipWs, StopsNumber, IsDigit, ValidNumber;
    OtherIsNumber(s, t);
    NumberStep(s, t);
    var d := NumberSwap(t);
    c := w + d;
    NumberAfterWs(w, d);
    ValueOfNumber(w, d, y);
    hide NumberFirst;
    var rest := ScanNumber(t).value;
    assert t[..|t| - |rest|] == d;
    assert w + (d + rest) == w + d + rest;
  }

  lemma {:induction false} ValueOfNumber(w: string, d: string, y: string)
    requires SkipWs(w) == "" && ValidNumber(d) && StopsNumber(y)
    ensures ParseValue(w + d + y) == Ok(Num(d), y)
  {
    hide ScanNumber, ParseValue;
    NumberStart(d);
    SkipWsBefore(w, d + y);
    assert w + d + y == w + (d + y);
    NumberStep(w + (d + y), d + y);
    ScanNumberExtend(d, y);
    assert "" + y == y && (d + y)[..|d + y| - |y|] == d;
  }

  lemma {:induction false} ParseArraySwap(s: string, y: string) returns (c: string)
    requires ParseArray(s).Ok?
    ensures Consumed(ParseArray(s), s, c, ParseArray(c + y), y)
    decreases |s|, 4
  {
    hide ParseItems;
    var t := SkipWs(s);
    if Starts(t, ']') {
      var w := SkippedWs(s);
      c := w + "]";
      AfterWs(w, ']', y);
      assert c + y == w + ("]" + y) && ("]" + y)[1..] == y;
      assert t == "]" + t[1..];
    } else {
      c := ParseItemsSwap(s, y);
      FrontStays(s, c, ParseItems(s).rest, y);
    }
  }

  /** What follows the consumed part does not change how it starts. */
  lemma {:induction false} FrontStays(s: string, c: string, r: string, y: string)
    requires s == c + r && SkipWs(c) != ""
    ensures SkipWs(s) != "" && SkipWs(c + y) != "" && SkipWs(c + y)[0] == SkipWs(s)[0]
  {
    SkipWsExtend(c, r);
    SkipWsExtend(c, y);
  }

  /** White space and a delimiter after a value. */
  lemma {:induction false} Delimiter(w: string, a: char, x: string)
    requires SkipWs(w) == "" && (a == ',' || a == ']' || a == '}')
    ensures StopsNumber(w + ([a] + x)) && SkipWs(w + ([a] + x)) == [a] + x && ([a] + x)[1..] == x
  {
    AfterWs(w, a, x);
  }

  /** The first item, and what its delimiter leads to. */
  lemma {:induction false} ItemsShape(s: string) returns (w: string, tail: string, last: bool)
    requires ParseItems(s).Ok?
    ensures ParseValue(s).Ok? && SkipWs(w) == "" && |tail| < |s|
    ensures ParseValue(s).rest == w + ((if last then "]" else ",") + tail)
    ensures last ==> ParseItems(s) == Ok([ParseValue(s).value], tail)
    ensures !last ==> ParseItems(tail).Ok?
    ensures !last ==> ParseItems(s) == Ok([ParseValue(s).value] + ParseItems(tail).value, ParseItems(tail).rest)
  {
    hide ParseValue;
    var rest := ParseValue(s).rest;
    var t := SkipWs(rest);
    w := SkippedWs(rest);
    tail, last := t[1..], Starts(t, ']');
    assert t == [t[0]] + t[1..];
  }

  lemma {:induction false} ItemsMade(s: string, item: Json, w: string, tail: string, last: bool, rest: string)
    requires SkipWs(w) == "" && ParseValue(s) == Ok(item, w + ((if last then "]" else ",") + tail))
    ensures last ==> ParseItems(s) == Ok([item], tail)
    ensures !last && ParseItems(tail).Ok? ==>
              ParseItems(s) == Ok([item] + ParseItems(tail).value, ParseItems(tail).rest)
  {
    hide ParseValue, StopsNumber;
    Delimiter(w, if last then ']' else ',', tail);
  }

  lemma {:induction false} ParseItemsSwap(s: string, y: string) returns (c: string)
    requires ParseItems(s).Ok?
    ensures Consumed(ParseItems(s), s, c, ParseItems(c + y), y) && SkipWs(c) != ""
    decreases |s|, 3
  {
    hide ParseValue, ParseItems, StopsNumber, SkipWs;
    var w, tail, last := ItemsShape(s);
    var item := ParseValue(s).value;
    var d, y' := "", y;
    if !last {
      d := ParseItemsSwap(tail, y);
      y' := d + y;
    }
    var a := if last then ']' else ',';
    Delimiter(w, a, y');
    var c1 := ParseValueSwap(s, w + ([a] + y'));
    c := c1 + (w + ([a] + d));
    Joined(s, c1, w, a, d, y, if last then tail else ParseItems(tail).rest, y', tail);
    ItemsMade(c + y, item, w, y', last, y);
    SkipWsExtend(c1, w + ([a] + d));
  }

  /** Putting the consumed part together. */
  lemma {:induction false} Joined(s: string, c1: string, w: string, a: char, d: string, y: string, r: string,
        y': string, tail: string)
    requires s == c1 + (w + ([a] + tail)) && tail == d + r && y' == d + y
    ensures s == (c1 + (w + ([a] + d))) + r
    ensures (c1 + (w + ([a] + d))) + y == c1 + (w + ([a] + y'))
  {
    assert (c1 + (w + ([a] + d))) + r == c1 + (w + ([a] + (d + r)));
    assert (c1 + (w + ([a] + d))) + y == c1 + (w + ([a] + (d + y)));
  }

  lemma {:induction false} ParseObjectSwap(s: string, y: string) returns (c: string)
    requires ParseObject(s).Ok?
    ensures Consumed(ParseObject(s), s, c, ParseObject(c + y), y)
    decreases |s|, 4
  {
    hide ParseMembers;
    var t := SkipWs(s);
    if Starts(t, '}') {
      var w := SkippedWs(s);
      c := w + "}";
      AfterWs(w, '}', y);
      assert c + y == w + ("}" + y) && ("}" + y)[1..] == y;
      assert t == "}" + t[1..];
    } else {
      c := ParseMembersSwap(s, y);
      FrontStays(s, c, ParseMembers(s).rest, y);
    }
  }

  /** The name, the colon and the value of a member. */
  lemma {:induction false} MemberShape(s: string) returns (w: string, t: string, v: string, u: string)
    requires ParseMember(s).Ok?
    ensures s == w + ("\"" + t) && SkipWs(w) == "" && SkipWs(v) == ""
    ensures ParseString(t).Ok? && ParseString(t).rest == v + (":" + u) && ParseValue(u).Ok? && |u| < |s|
    ensures ParseMember(s) == Ok(Member(ParseString(t).value, ParseValue(u).value), ParseValue(u).rest)
  {
    hide ParseValue, ParseString;
    var t0 := SkipWs(s);
    w := SkippedWs(s);
    t := t0[1..];
    var u0 := SkipWs(ParseString(t).rest);
    v := SkippedWs(ParseString(t).rest);
    u := u0[1..];
    assert t0 == "\"" + t && u0 == ":" + u;
  }

  lemma {:induction false} MemberMade(w: string, t: string, v: string, u: string)
    requires SkipWs(w) == "" && SkipWs(v) == ""
    requires ParseString(t).Ok? && ParseString(t).rest == v + (":" + u) && ParseValue(u).Ok?
    ensures ParseMember(w + ("\"" + t))
         == Ok(Member(ParseString(t).value, ParseValue(u).value), ParseValue(u).rest)
  {
    hide ParseValue, ParseString;
    AfterWs(w, '"', t);
    AfterWs(v, ':', u);
    assert ("\"" + t)[1..] == t && (":" + u)[1..] == u;
  }

  lemma {:induction false} ParseMemberSwap(s: string, y: string) returns (c: string)
    requires ParseMember(s).Ok? && StopsNumber(y)
    ensures Consumed(ParseMember(s), s, c, ParseMember(c + y), y) && SkipWs(c) != ""
    decreases |s|, 2
  {
    hide ParseValue, ParseString, ParseMember, StopsNumber, SkipWs;
    var w, t, v, u := MemberShape(s);
    var d := ParseValueSwap(u, y);
    var e := ParseStringSwap(t, v + (":" + (d + y)));
    var inner := e + (v + (":" + d));
    MemberMade(w, e + (v + (":" + (d + y))), v, d + y);
    c := w + ("\"" + inner);
    AfterWs(w, '"', inner);
    MemberJoined(s, w, t, e, v, u, d, ParseValue(u).rest, y);
  }

  lemma {:induction false} MemberJoined(s: string, w: string, t: string, e: string, v: string, u: string, d: string,
        r: string, y: string)
    requires s == w + ("\"" + t) && t == e + (v + (":" + u)) && u == d + r
    ensures s == (w + ("\"" + (e + (v + (":" + d))))) + r
    ensures (w + ("\"" + (e + (v + (":" + d))))) + y == w + ("\"" + (e + (v + (":" + (d + y)))))
  {
    assert (w + ("\"" + (e + (v + (":" + d))))) + r == w + ("\"" + (e + (v + (":" + (d + r)))));
  }

  /** The first member, and what its delimiter leads to. */
  lemma {:induction false} MembersShape(s: string) returns (w: string, tail: string, last: bool)
    requires ParseMembers(s).Ok?
    ensures ParseMember(s).Ok? && SkipWs(w) == "" && |tail| < |s|
    ensures ParseMember(s).rest == w + ((if last then "}" else ",") + tail)
    ensures last ==> ParseMembers(s) == Ok([ParseMember(s).value], tail)
    ensures !last ==> ParseMembers(tail).Ok?
    ensures !last ==> ParseMembers(s) == Ok([ParseMember(s).value] + ParseMembers(tail).value, ParseMembers(tail).rest)
  {
    hide ParseMember;
    var rest := ParseMember(s).rest;
    var t := SkipWs(rest);
    w := SkippedWs(rest);
    tail, last := t[1..], Starts(t, '}');
    assert t == [t[0]] + t[1..];
  }

  lemma {:induction false} ParseMembersSwap(s: string, y: string) returns (c: string)
    requires ParseMembers(s).Ok?
    ensures Consumed(ParseMembers(s), s, c, ParseMembers(c + y), y) && SkipWs(c) != ""
    decreases |s|, 3
  {
    hide ParseMember, ParseMembers, StopsNumber, SkipWs;
    var w, tail, last := MembersShape(s);
    var m := ParseMember(s).value;
    var d, y' := "", y;
    if !last {
      d := ParseMembersSwap(tail, y);
      y' := d + y;
    }
    var a := if last then '}' else ',';
    Delimiter(w, a, y');
    var c1 := ParseMemberSwap(s, w + ([a] + y'));
    c := c1 + (w + ([a] + d));
    Joined(s, c1, w, a, d, y, if last then tail else ParseMembers(tail).rest, y', tail);
    if last {
      LastStep(c + y, m, w, y);
    } else {
      NextStep(c + y, m, w, y', ParseMembers(y').value, ParseMembers(y').rest);
    }
    SkipWsExtend(c1, w + ([a] + d));
  }

  // ----- continuing an object -----

  /** The members of one object, without its closing brace, continued by those of another. */
  lemma {:induction false} MembersContinue(s: string, v: string) returns (u: string)
    requires ParseMembers(s).Ok? && ParseMembers(v).Ok?
    ensures s == u + ("}" + ParseMembers(s).rest) && u != ""
    ensures ParseMembers(u + ("," + v)) == Ok(ParseMembers(s).value + ParseMembers(v).value, ParseMembers(v).rest)
    decreases |s|
  {
    hide ParseMember, ParseMembers, StopsNumber, SkipWs;
    var w, tail, last := MembersShape(s);
    if last {
      u := LastContinue(s, w, tail, v);
    } else {
      var u' := MembersContinue(tail, v);
      u := NextContinue(s, w, tail, u', v);
    }
  }

  lemma {:induction false} LastContinue(s: string, w: string, tail: string, v: string) returns (u: string)
    requires ParseMembers(s).Ok? && ParseMember(s).Ok? && SkipWs(w) == "" && ParseMembers(v).Ok?
    requires ParseMember(s).rest == w + ("}" + tail) && ParseMembers(s) == Ok([ParseMember(s).value], tail)
    ensures s == u + ("}" + tail) && u != ""
    ensures ParseMembers(u + ("," + v)) == Ok([ParseMember(s).value] + ParseMembers(v).value, ParseMembers(v).rest)
  {
    hide ParseMember, ParseMembers, StopsNumber, SkipWs;
    Delimiter(w, ',', v);
    var c := ParseMemberSwap(s, w + ("," + v));
    NextStep(c + (w + ("," + v)), ParseMember(s).value, w, v, ParseMembers(v).value, ParseMembers(v).rest);
    u := c + w;
    Regroup(c, w, "," + v);
    Regroup(c, w, "}" + tail);
    NotBlank(c, w);
  }

  lemma {:induction false} NextContinue(s: string, w: string, tail: string, u': string, v: string) returns (u: string)
    requires ParseMembers(s).Ok? && ParseMember(s).Ok? && SkipWs(w) == "" && ParseMembers(tail).Ok? &&
               ParseMembers(v).Ok?
    requires ParseMember(s).rest == w + ("," + tail)
    requires ParseMembers(s) == Ok([ParseMember(s).value] + ParseMembers(tail).value, ParseMembers(tail).rest)
    requires tail == u' + ("}" + ParseMembers(tail).rest)
    requires ParseMembers(u' + ("," + v)) == Ok(ParseMembers(tail).value + ParseMembers(v).value, ParseMembers(v).rest)
    ensures s == u + ("}" + ParseMembers(s).rest) && u != ""
    ensures ParseMembers(u + ("," + v)) == Ok(ParseMembers(s).value + ParseMembers(v).value, ParseMembers(v).rest)
  {
    hide ParseMember, ParseMembers, StopsNumber, SkipWs;
    var after := u' + ("," + v);
    var m, more, rest := ParseMember(s).value, ParseMembers(tail).value, ParseMembers(tail).rest;
    Delimiter(w, ',', after);
    var c := ParseMemberSwap(s, w + ("," + after));
    NextStep(c + (w + ("," + after)), m, w, after, more + ParseMembers(v).value, ParseMembers(v).rest);
    u := c + (w + ("," + u'));
    assert u + ("," + v) == c + (w + ("," + after));
    assert c + (w + ("," + (u' + ("}" + rest)))) == u + ("}" + rest);
    assert [m] + (more + ParseMembers(v).value) == ([m] + more) + ParseMembers(v).value;
  }

  lemma {:induction false} NotBlank(c: string, w: string)
    requires SkipWs(c) != ""
    ensures c + w != ""
  {
  }
}
