/** A four-state scan that any JSON text survives: it tracks whether a position lies inside
    a string, and dies on a byte that cannot occur there. It shows malformed text malformed. */
module JsonScan {
  import opened Json

  datatype Mode = Out | In | Escaped | Dead

  /** The bytes that occur outside strings: punctuation, white space, numbers, the three literals. */
  predicate OutsideChar(c: char) {
    || c == '{' || c == '}' || c == '[' || c == ']' || c == ':' || c == ',' || IsWs(c)
    || IsDigit(c) || c == '+' || c == '-' || c == '.' || c == 'e' || c == 'E'
    || c == 'n' || c == 'u' || c == 'l' || c == 't' || c == 'r' || c == 'f' || c == 'a' || c == 's'
  }

  function Next(m: Mode, c: char): Mode {
    match m
    case Dead => Dead
    case Escaped => In
    case Out => if c == '"' then In else if OutsideChar(c) then Out else Dead
    case In => if c == '"' then Out else if c == '\\' then Escaped else if c < ' ' then Dead else In
  }

  function Scan(m: Mode, s: string): Mode
    decreases |s|
  {
    if s == "" then m else Scan(Next(m, s[0]), s[1..])
  }

  lemma {:induction false} ScanConcat(m: Mode, s: string, t: string)
    ensures Scan(m, s + t) == Scan(Scan(m, s), t)
    decreases |s|
  {
    hide Next;
    if s == "" {
      assert s + t == t;
    } else {
      ScanConcat(Next(m, s[0]), s[1..], t);
      assert (s + t)[0] == s[0] && (s + t)[1..] == s[1..] + t;
    }
  }

  lemma {:induction false} DeadStaysDead(s: string)
    ensures Scan(Dead, s) == Dead
  {
    if s != "" {
      DeadStaysDead(s[1..]);
    }
  }

  // ----- whatever the parser accepts, the scan survives -----

  lemma {:induction false} WsScan(s: string)
    ensures Scan(Out, s) == Scan(Out, SkipWs(s))
  {
    if s != "" && IsWs(s[0]) {
      WsScan(s[1..]);
    }
  }

  lemma {:induction false} OneOutside(s: string)
    requires s != "" && OutsideChar(s[0])
    ensures Scan(Out, s) == Scan(Out, s[1..])
  {
  }

  // Numbers leave the mode as it is, inside a string too.

  predicate NumberChar(c: char) {
    IsDigit(c) || c == '+' || c == '-' || c == '.' || c == 'e' || c == 'E'
  }

  lemma {:induction false} OneNumberChar(m: Mode, s: string)
    requires (m == Out || m == In) && s != "" && NumberChar(s[0])
    ensures Scan(m, s) == Scan(m, s[1..])
  {
  }

  lemma {:induction false} DigitsScan(m: Mode, s: string)
    requires m == Out || m == In
    ensures Scan(m, s) == Scan(m, SkipDigits(s))
  {
    if s != "" && IsDigit(s[0]) {
      DigitsScan(m, s[1..]);
    }
  }

  lemma {:induction false} NumberScan(m: Mode, s: string)
    requires (m == Out || m == In) && ScanNumber(s).Some?
    ensures Scan(m, s) == Scan(m, ScanNumber(s).value)
  {
    hide Scan, ScanInt;
    var s' := if Starts(s, '-') then s[1..] else s;
    if Starts(s, '-') {
      OneNumberChar(m, s);
    }
    var t := ScanInt(s').value;
    IntScan(m, s');
    FracScan(m, t);
    ExpScan(m, ScanFrac(t).value);
  }

  lemma {:induction false} IntScan(m: Mode, s: string)
    requires (m == Out || m == In) && ScanInt(s).Some?
    ensures Scan(m, s) == Scan(m, ScanInt(s).value)
  {
    hide Scan, SkipDigits;
    OneNumberChar(m, s);
    DigitsScan(m, s[1..]);
  }

  lemma {:induction false} FracScan(m: Mode, t: string)
    requires (m == Out || m == In) && ScanFrac(t).Some?
    ensures Scan(m, t) == Scan(m, ScanFrac(t).value)
  {
    hide Scan, SkipDigits;
    if Starts(t, '.') {
      OneNumberChar(m, t);
      DigitsScan(m, t[1..]);
    }
  }

  lemma {:induction false} ExpScan(m: Mode, u: string)
    requires (m == Out || m == In) && ScanExp(u).Some?
    ensures Scan(m, u) == Scan(m, ScanExp(u).value)
  {
    hide Scan, SkipDigits;
    if Starts(u, 'e') || Starts(u, 'E') {
      OneNumberChar(m, u);
      if Starts(u[1..], '+') || Starts(u[1..], '-') {
        OneNumberChar(m, u[1..]);
        assert u[1..][1..] == u[2..];
        DigitsScan(m, u[2..]);
      } else {
        DigitsScan(m, u[1..]);
      }
    }
  }

  lemma {:induction false} StringScan(s: string)
    requires ParseString(s).Ok?
    ensures Scan(In, s) == Scan(Out, ParseString(s).rest)
  {
    if s[0] == '"' {
    } else if s[0] != '\\' {
      StringScan(s[1..]);
    } else if |s| >= 2 && Unescape(s[1]).Some? {
      StringScan(s[2..]);
      assert s[1..][1..] == s[2..];
    } else {
      StringScan(s[6..]);
      HexScan(s);
    }
  }

  lemma {:induction false} HexScan(s: string)
    requires |s| >= 6 && s[0] == '\\' && s[1] == 'u' && Hex4(s[2..6]).Some?
    ensures Scan(In, s) == Scan(In, s[6..])
  {
    assert s[2..6][0] == s[2] && s[2..6][1] == s[3] && s[2..6][2] == s[4] && s[2..6][3] == s[5];
    assert s[1..][1..] == s[2..] && s[2..][1..] == s[3..] && s[3..][1..] == s[4..] && s[4..][1..] == s[5..]
           && s[5..][1..] == s[6..];
    InStep(s[2..]);
    InStep(s[3..]);
    InStep(s[4..]);
    InStep(s[5..]);
  }

  lemma {:induction false} InStep(s: string)
    requires s != "" && HexValue(s[0]).Some?
    ensures Scan(In, s) == Scan(In, s[1..])
  {
  }

  lemma {:induction false} LiteralScan(s: string)
    ensures "null" <= s ==> Scan(Out, s) == Scan(Out, s[4..])
    ensures "true" <= s ==> Scan(Out, s) == Scan(Out, s[4..])
    ensures "false" <= s ==> Scan(Out, s) == Scan(Out, s[5..])
  {
    if "null" <= s || "true" <= s || "false" <= s {
      var k := if "false" <= s then 5 else 4;
      OutsideRun(s, k);
    }
  }

  lemma {:induction false} OutsideRun(s: string, k: nat)
    requires k <= |s| && forall i :: 0 <= i < k ==> OutsideChar(s[i])
    ensures Scan(Out, s) == Scan(Out, s[k..])
    decreases k
  {
    if k > 0 {
      OutsideRun(s[1..], k - 1);
      assert s[1..][k - 1..] == s[k..];
    }
  }

  lemma {:induction false} ValueScan(s: string)
    requires ParseValue(s).Ok?
    ensures Scan(Out, s) == Scan(Out, ParseValue(s).rest)
    decreases |s|, 2
  {
    hide Scan, ParseString, ParseArray, ParseObject, ScanNumber;
    WsScan(s);
    var t := SkipWs(s);
    if t[0] == '"' {
      StringScan(t[1..]);
      QuoteStep(t);
    } else if t[0] == '[' {
      OneOutside(t);
      ArrayScan(t[1..]);
    } else if t[0] == '{' {
      OneOutside(t);
      ObjectScan(t[1..]);
    } else if "null" <= t || "true" <= t || "false" <= t {
      LiteralScan(t);
    } else {
      NumberScan(Out, t);
    }
  }

  lemma {:induction false} QuoteStep(t: string)
    requires Starts(t, '"')
    ensures Scan(Out, t) == Scan(In, t[1..])
  {
  }

  lemma {:induction false} ArrayScan(s: string)
    requires ParseArray(s).Ok?
    ensures Scan(Out, s) == Scan(Out, ParseArray(s).rest)
    decreases |s|, 4
  {
    hide Scan, ParseItems;
    var t := SkipWs(s);
    WsScan(s);
    if Starts(t, ']') {
      OneOutside(t);
    } else {
      ItemsScan(s);
    }
  }

  lemma {:induction false} ItemsScan(s: string)
    requires ParseItems(s).Ok?
    ensures Scan(Out, s) == Scan(Out, ParseItems(s).rest)
    decreases |s|, 3
  {
    hide Scan, ParseValue;
    ValueScan(s);
    var t := SkipWs(ParseValue(s).rest);
    WsScan(ParseValue(s).rest);
    OneOutside(t);
    if !Starts(t, ']') {
      ItemsScan(t[1..]);
    }
  }

  lemma {:induction false} ObjectScan(s: string)
    requires ParseObject(s).Ok?
    ensures Scan(Out, s) == Scan(Out, ParseObject(s).rest)
    decreases |s|, 4
  {
    hide Scan, ParseMembers;
    var t := SkipWs(s);
    WsScan(s);
    if Starts(t, '}') {
      OneOutside(t);
    } else {
      MembersScan(s);
    }
  }

  lemma {:induction false} MemberScan(s: string)
    requires ParseMember(s).Ok?
    ensures Scan(Out, s) == Scan(Out, ParseMember(s).rest)
    decreases |s|, 2
  {
    hide Scan, ParseValue, ParseString;
    var t := SkipWs(s);
    WsScan(s);
    QuoteStep(t);
    StringScan(t[1..]);
    var rest := ParseString(t[1..]).rest;
    WsScan(rest);
    var u := SkipWs(rest);
    OneOutside(u);
    ValueScan(u[1..]);
  }

  lemma {:induction false} MembersScan(s: string)
    requires ParseMembers(s).Ok?
    ensures Scan(Out, s) == Scan(Out, ParseMembers(s).rest)
    decreases |s|, 3
  {
    hide Scan, ParseMember;
    MemberScan(s);
    var t := SkipWs(ParseMember(s).rest);
    WsScan(ParseMember(s).rest);
    OneOutside(t);
    if !Starts(t, '}') {
      MembersScan(t[1..]);
    }
  }

  /** A well-formed text ends outside every string. */
  lemma {:induction false} WellFormedScan(s: string)
    requires WellFormed(s)
    ensures Scan(Out, s) == Out
  {
    hide ParseValue;
    ValueScan(s);
    WsScan(ParseValue(s).rest);
  }
}
