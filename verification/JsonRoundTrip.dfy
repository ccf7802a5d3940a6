/** Parsing undoes printing, for every JSON value and whatever text follows it. */
module JsonRoundTrip {
  import opened Seqs
  import opened Json

  /** `rest` cannot extend a number: it is empty or starts with a delimiter. */
  predicate Delimited(rest: string) {
    rest == "" || rest[0] == ',' || rest[0] == ']' || rest[0] == '}' || IsWs(rest[0])
  }

  // ----- strings -----

  lemma {:induction false} ParseEscapedChar(c: char, tail: string)
    ensures ParseString(EscapeChar(c) + tail) == Prepend([c], ParseString(tail))
  {
    var e := EscapeChar(c);
    if c >= ' ' && c != '"' && c != '\\' {
      assert ([c] + tail)[1..] == tail;
    } else if |e| == 2 {
      assert e[0] == '\\' && Unescape(e[1]) == Some(c);
      assert (e + tail)[2..] == tail;
    } else {
      assert e == ['\\', 'u', '0', '0', HexDigit(c as int / 16), HexDigit(c as int % 16)];
      assert (e + tail)[2..6] == e[2..6];
      assert Hex4(e[2..6]) == Some(c as int);
      assert (e + tail)[6..] == tail;
    }
  }

  /** Decoding a quoted escaped string followed by any text returns the string and that text. */
  lemma {:induction false} ParseEscaped(s: string, rest: string)
    ensures ParseString(Escape(s) + "\"" + rest) == Ok(s, rest)
  {
    if s == "" {
      assert ("" + "\"" + rest)[1..] == rest;
    } else {
      ParseEscaped(s[1..], rest);
      var tail := Escape(s[1..]) + "\"" + rest;
      assert Escape(s) + "\"" + rest == EscapeChar(s[0]) + tail;
      ParseEscapedChar(s[0], tail);
      assert [s[0]] + s[1..] == s;
    }
  }

  lemma {:induction false} EscapeInjective(s: string, t: string)
    requires Escape(s) == Escape(t)
    ensures s == t
  {
    ParseEscaped(s, "");
    ParseEscaped(t, "");
  }

  // ----- numbers -----

  /** Text that a digit run, a fraction or an exponent could continue into. */
  predicate StopsNumber(rest: string) {
    rest == "" ||
      (!IsDigit(rest[0]) && rest[0] != '.' && rest[0] != 'e' && rest[0] != 'E' && rest[0] != '+' && rest[0] != '-')
  }

  lemma {:induction false} SkipDigitsExtend(s: string, rest: string)
    requires SkipDigits(s) != "" || StopsNumber(rest)
    ensures SkipDigits(s + rest) == SkipDigits(s) + rest
    decreases |s|
  {
    if s == "" {
      assert s + rest == rest;
    } else if IsDigit(s[0]) {
      SkipDigitsExtend(s[1..], rest);
      assert (s + rest)[1..] == s[1..] + rest;
    }
  }

  lemma ScanIntExtend(s: string, rest: string)
    requires ScanInt(s).Some? && (ScanInt(s).value != "" || StopsNumber(rest))
    ensures ScanInt(s + rest) == Some(ScanInt(s).value + rest)
  {
    assert (s + rest)[1..] == s[1..] + rest;
    if s[0] != '0' {
      SkipDigitsExtend(s[1..], rest);
    }
  }

  lemma ScanFracExtend(s: string, rest: string)
    requires ScanFrac(s).Some? && (ScanFrac(s).value != "" || StopsNumber(rest))
    ensures ScanFrac(s + rest) == Some(ScanFrac(s).value + rest)
  {
    if Starts(s, '.') {
      assert (s + rest)[1..] == s[1..] + rest;
      SkipDigitsExtend(s[1..], rest);
    }
  }

  lemma ScanExpExtend(s: string, rest: string)
    requires ScanExp(s).Some? && (ScanExp(s).value != "" || StopsNumber(rest))
    ensures ScanExp(s + rest) == Some(ScanExp(s).value + rest)
  {
    if Starts(s, 'e') || Starts(s, 'E') {
      assert (s + rest)[1..] == s[1..] + rest;
      if Starts(s[1..], '+') || Starts(s[1..], '-') {
        assert (s + rest)[2..] == s[2..] + rest;
        SkipDigitsExtend(s[2..], rest);
      } else {
        SkipDigitsExtend(s[1..], rest);
      }
    }
  }

  lemma ScanNumberExtend(s: string, rest: string)
    requires ScanNumber(s).Some? && (ScanNumber(s).value != "" || StopsNumber(rest))
    ensures ScanNumber(s + rest) == Some(ScanNumber(s).value + rest)
  {
    var s' := if Starts(s, '-') then s[1..] else s;
    assert s != "";
    assert (s + rest)[1..] == s[1..] + rest;
    var t := ScanInt(s').value;
    var u := ScanFrac(t).value;
    ScanIntExtend(s', rest);
    ScanFracExtend(t, rest);
    ScanExpExtend(u, rest);
  }

  // ----- values -----

  lemma {:induction false} PrintStart(j: Json, rest: string)
    requires NumbersValid(j)
    ensures var s := Print(j) + rest;
            s != "" && SkipWs(s) == s && s[0] != ']' && s[0] != '}'
  {
  }

  // One step of each parser, on text whose shape is given.

  lemma {:induction false} ParseLiteral(j: Json, rest: string)
    requires j.Null? || j.Bool?
    ensures ParseValue(Print(j) + rest) == Ok(j, rest)
  {
    hide ParseString, ParseArray, ParseObject, ScanNumber;
    var s := Print(j) + rest;
    match j {
      case Null => assert s[4..] == rest;
      case Bool(b) => assert s[if b then 4 else 5..] == rest;
    }
  }

  lemma NumberStart(text: string)
    requires ValidNumber(text)
    ensures text != "" && (IsDigit(text[0]) || text[0] == '-')
  {
  }

  lemma {:induction false} ParseNumber(text: string, rest: string)
    requires ValidNumber(text) && StopsNumber(rest)
    ensures ParseValue(text + rest) == Ok(Num(text), rest)
  {
    hide ParseString, ParseArray, ParseObject, SkipDigits, ScanInt, ScanFrac, ScanExp;
    var s := text + rest;
    ScanNumberExtend(text, rest);
    assert "" + rest == rest;
    assert s[..|s| - |rest|] == text;
    NumberStart(text);
    hide ScanNumber;
    assert s[0] == text[0] && SkipWs(s) == s;
  }

  lemma {:induction false} ParseQuoted(str: string, rest: string)
    ensures ParseValue(Quote(str) + rest) == Ok(Str(str), rest)
  {
    hide Escape, ParseString, ParseArray, ParseObject, ScanNumber;
    var s := Quote(str) + rest;
    ParseEscaped(str, rest);
    assert s[0] == '"' && s[1..] == Escape(str) + "\"" + rest;
  }

  lemma {:induction false} ParseBracket(u: string, j: Json, rest: string)
    requires ParseArray(u) == Ok(j, rest)
    ensures ParseValue("[" + u) == Ok(j, rest)
  {
    assert ("[" + u)[1..] == u;
  }

  lemma {:induction false} ParseBrace(u: string, j: Json, rest: string)
    requires ParseObject(u) == Ok(j, rest)
    ensures ParseValue("{" + u) == Ok(j, rest)
  {
    assert ("{" + u)[1..] == u;
  }

  lemma {:induction false} ParseLastItem(s: string, item: Json, rest: string)
    requires ParseValue(s) == Ok(item, "]" + rest)
    ensures ParseItems(s) == Ok([item], rest)
  {
    assert ("]" + rest)[1..] == rest;
  }

  lemma {:induction false} ParseNextItem(s: string, item: Json, u: string, items: seq<Json>, rest: string)
    requires ParseValue(s) == Ok(item, "," + u) && ParseItems(u) == Ok(items, rest)
    ensures ParseItems(s) == Ok([item] + items, rest)
  {
    assert ("," + u)[1..] == u;
  }

  lemma {:induction false} ParseLastMember(s: string, m: Member, rest: string)
    requires ParseMember(s) == Ok(m, "}" + rest)
    ensures ParseMembers(s) == Ok([m], rest)
  {
    assert ("}" + rest)[1..] == rest;
  }

  lemma {:induction false} ParseNextMember(s: string, m: Member, u: string, members: seq<Member>, rest: string)
    requires ParseMember(s) == Ok(m, "," + u) && ParseMembers(u) == Ok(members, rest)
    ensures ParseMembers(s) == Ok([m] + members, rest)
  {
    assert ("," + u)[1..] == u;
  }

  lemma {:induction false} ParseColon(name: string, u: string, value: Json, rest: string)
    requires ParseValue(u) == Ok(value, rest)
    ensures ParseMember(Quote(name) + (":" + u)) == Ok(Member(name, value), rest)
  {
    var s, tail := Quote(name) + (":" + u), ":" + u;
    assert s[1..] == Escape(name) + "\"" + tail;
    ParseEscaped(name, tail);
    assert tail[1..] == u;
  }

  lemma {:induction false} ParsePrint(j: Json, rest: string)
    requires NumbersValid(j) && Delimited(rest)
    ensures ParseValue(Print(j) + rest) == Ok(j, rest)
    decreases j, 2
  {
    hide ParseValue, ParseArray, ParseObject, PrintItems, PrintMembers, Quote;
    match j {
      case Null => ParseLiteral(j, rest);
      case Bool(b) => ParseLiteral(j, rest);
      case Num(text) => ParseNumber(text, rest);
      case Str(str) => ParseQuoted(str, rest);
      case Arr(items) =>
        ParseArrayPrint(items, rest);
        ParseBracket(PrintItems(items) + ("]" + rest), j, rest);
        assert Print(j) + rest == "[" + (PrintItems(items) + ("]" + rest));
      case Obj(members) =>
        ParseObjectPrint(members, rest);
        ParseBrace(PrintMembers(members) + ("}" + rest), j, rest);
        assert Print(j) + rest == "{" + (PrintMembers(members) + ("}" + rest));
    }
  }

  lemma {:induction false} ParseArrayPrint(items: seq<Json>, rest: string)
    requires forall i :: 0 <= i < |items| ==> NumbersValid(items[i])
    ensures ParseArray(PrintItems(items) + ("]" + rest)) == Ok(Arr(items), rest)
    decreases items, 1
  {
    var s := PrintItems(items) + ("]" + rest);
    if items == [] {
      assert s == "]" + rest;
      assert s[1..] == rest;
    } else {
      ParseItemsPrint(items, rest);
      ItemsStart(items, "]" + rest);
    }
  }

  lemma {:induction false} ItemsStart(items: seq<Json>, tail: string)
    requires items != [] && NumbersValid(items[0])
    ensures var s := PrintItems(items) + tail;
            s != "" && SkipWs(s) == s && s[0] != ']'
  {
    if |items| == 1 {
      PrintStart(items[0], tail);
    } else {
      PrintStart(items[0], "," + PrintItems(items[1..]) + tail);
      assert PrintItems(items) + tail == Print(items[0]) + ("," + PrintItems(items[1..]) + tail);
    }
  }

  lemma {:induction false} PrintItemsCons(items: seq<Json>, tail: string)
    requires |items| > 1
    ensures PrintItems(items) + tail == Print(items[0]) + ("," + (PrintItems(items[1..]) + tail))
  {
  }

  lemma {:induction false} PrintMembersCons(members: seq<Member>, tail: string)
    requires |members| > 1
    ensures PrintMembers(members) + tail == PrintMember(members[0]) + ("," + (PrintMembers(members[1..]) + tail))
  {
  }

  lemma {:induction false} ParseItemsPrint(items: seq<Json>, rest: string)
    requires items != []
    requires forall i :: 0 <= i < |items| ==> NumbersValid(items[i])
    ensures ParseItems(PrintItems(items) + ("]" + rest)) == Ok(items, rest)
    decreases items, 0
  {
    hide ParseItems, ParseValue;
    if |items| == 1 {
      ParsePrint(items[0], "]" + rest);
      ParseLastItem(Print(items[0]) + ("]" + rest), items[0], rest);
      assert items == [items[0]];
    } else {
      var u := PrintItems(items[1..]) + ("]" + rest);
      ParsePrint(items[0], "," + u);
      ParseItemsPrint(items[1..], rest);
      ParseNextItem(Print(items[0]) + ("," + u), items[0], u, items[1..], rest);
      PrintItemsCons(items, "]" + rest);
      assert [items[0]] + items[1..] == items;
    }
  }

  lemma {:induction false} ParseMemberPrint(m: Member, rest: string)
    requires NumbersValid(m.value) && Delimited(rest)
    ensures ParseMember(PrintMember(m) + rest) == Ok(m, rest)
    decreases m, 3
  {
    hide ParseMember, ParseValue, Quote, Print;
    ParsePrint(m.value, rest);
    ParseColon(m.name, Print(m.value) + rest, m.value, rest);
    assert PrintMember(m) + rest == Quote(m.name) + (":" + (Print(m.value) + rest));
  }

  lemma {:induction false} ParseObjectPrint(members: seq<Member>, rest: string)
    requires forall i :: 0 <= i < |members| ==> NumbersValid(members[i].value)
    ensures ParseObject(PrintMembers(members) + ("}" + rest)) == Ok(Obj(members), rest)
    decreases members, 1
  {
    var s := PrintMembers(members) + ("}" + rest);
    if members == [] {
      assert s == "}" + rest;
      assert s[1..] == rest;
    } else {
      ParseMembersPrint(members, rest);
      assert s[0] == '"';
    }
  }

  lemma {:induction false} ParseMembersPrint(members: seq<Member>, rest: string)
    requires members != []
    requires forall i :: 0 <= i < |members| ==> NumbersValid(members[i].value)
    ensures ParseMembers(PrintMembers(members) + ("}" + rest)) == Ok(members, rest)
    decreases members, 0
  {
    hide ParseMembers, ParseMember, PrintMember;
    if |members| == 1 {
      ParseMemberPrint(members[0], "}" + rest);
      ParseLastMember(PrintMember(members[0]) + ("}" + rest), members[0], rest);
      assert members == [members[0]];
    } else {
      var u := PrintMembers(members[1..]) + ("}" + rest);
      ParseMemberPrint(members[0], "," + u);
      ParseMembersPrint(members[1..], rest);
      ParseNextMember(PrintMember(members[0]) + ("," + u), members[0], u, members[1..], rest);
      PrintMembersCons(members, "}" + rest);
      assert [members[0]] + members[1..] == members;
    }
  }

  /** Decoding is a left inverse of printing. */
  lemma {:induction false} DecodePrint(j: Json)
    requires NumbersValid(j)
    ensures Decode(Print(j)) == Some(j)
  {
    ParsePrint(j, "");
    assert Print(j) + "" == Print(j);
  }
}
