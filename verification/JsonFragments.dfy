/** Embedding: a text that parses keeps parsing, to the same value, when more text follows;
    so well-formed fragments can be joined into one object. */
module JsonFragments {
  import opened Seqs
  import opened Json
  import opened JsonRoundTrip

  lemma {:induction false} SkipWsExtend(s: string, x: string)
    requires SkipWs(s) != ""
    ensures SkipWs(s + x) == SkipWs(s) + x
  {
    if IsWs(s[0]) {
      SkipWsExtend(s[1..], x);
      assert (s + x)[1..] == s[1..] + x;
    }
  }

  /** White space in front of text that starts with something else. */
  lemma {:induction false} SkipWsBefore(w: string, x: string)
    requires SkipWs(w) == "" && (x == "" || !IsWs(x[0]))
    ensures SkipWs(w + x) == x
  {
    if w == "" {
      assert w + x == x;
    } else {
      SkipWsBefore(w[1..], x);
      assert (w + x)[1..] == w[1..] + x;
    }
  }

  /** The result `p` of a parser, with `x` after what it left over. */
  function Extended<T>(p: Parsed<T>, x: string): Parsed<T> {
    match p
    case Fail => Fail
    case Ok(value, rest) => Ok(value, rest + x)
  }

  lemma PrependExtended(front: string, p: Parsed<string>, x: string)
    ensures Prepend(front, Extended(p, x)) == Extended(Prepend(front, p), x)
  {
  }

  lemma ExtendedOk(s: string, rest: string, x: string)
    ensures Extended(Ok(s, rest), x) == Ok(s, rest + x)
  {
  }

  lemma {:induction false} ParseStringExtend(s: string, x: string)
    requires ParseString(s).Ok?
    ensures ParseString(s + x) == Extended(ParseString(s), x)
  {
    hide Utf8, Hex4, Unescape, Prepend, Extended;
    if s[0] == '"' {
      ExtendedOk("", s[1..], x);
      assert (s + x)[1..] == s[1..] + x;
    } else if s[0] != '\\' {
      ParseStringExtend(s[1..], x);
      PrependExtended([s[0]], ParseString(s[1..]), x);
      assert (s + x)[1..] == s[1..] + x;
    } else if Unescape(s[1]).Some? {
      ParseStringExtend(s[2..], x);
      PrependExtended([Unescape(s[1]).value], ParseString(s[2..]), x);
      assert (s + x)[2..] == s[2..] + x;
    } else {
      ParseStringExtend(s[6..], x);
      PrependExtended(Utf8(Hex4(s[2..6]).value), ParseString(s[6..]), x);
      assert (s + x)[6..] == s[6..] + x;
      assert (s + x)[2..6] == s[2..6];
    }
  }

  // ----- one step of each parser, on the skipped text -----

  lemma {:induction false} StringStep(s: string, t: string)
    requires t != "" && t[0] == '"' && SkipWs(s) == t
    ensures ParseValue(s) == match ParseString(t[1..]) case Fail => Fail case Ok(str, rest) => Ok(Str(str), rest)
  {
  }

  lemma {:induction false} LiteralStep(s: string, t: string, x: string)
    requires SkipWs(s) == t && ("null" <= t || "true" <= t || "false" <= t) && SkipWs(s + x) == t + x
    ensures ParseValue(s + x) == Extended(ParseValue(s), x)
  {
    hide ParseString, ParseArray, ParseObject, ScanNumber;
    var u := t + x;
    if "null" <= t {
      assert t[0] == 'n' && u[..4] == "null" && u[4..] == t[4..] + x;
    } else if "true" <= t {
      assert t[0] == 't' && u[..4] == "true" && u[4..] == t[4..] + x;
    } else {
      assert t[0] == 'f' && u[..5] == "false" && u[5..] == t[5..] + x;
    }
  }

  predicate NumberFirst(t: string) { t != "" && (IsDigit(t[0]) || t[0] == '-') }

  lemma {:induction false} NumberStep(s: string, t: string)
    requires SkipWs(s) == t && NumberFirst(t)
    ensures ParseValue(s) == match ScanNumber(t) case None => Fail case Some(rest) => Ok(Num(t[..|t| - |rest|]), rest)
  {
    hide ScanNumber, ParseString, ParseArray, ParseObject;
  }

  lemma {:induction false} NumberExtend(s: string, t: string, x: string)
    requires SkipWs(s) == t && NumberFirst(t) && ParseValue(s).Ok? && SkipWs(s + x) == t + x
    requires ParseValue(s).rest != "" || StopsNumber(x)
    ensures ParseValue(s + x) == Extended(ParseValue(s), x)
  {
    hide ScanNumber, ParseValue;
    NumberStep(s, t);
    NumberStep(s + x, t + x);
    ScanNumberExtend(t, x);
    var rest := ScanNumber(t).value;
    assert (t + x)[..|t + x| - |rest + x|] == t[..|t| - |rest|];
  }

  lemma {:induction false} OtherIsNumber(s: string, t: string)
    requires SkipWs(s) == t && ParseValue(s).Ok?
    requires t != "" && t[0] != '"' && t[0] != '[' && t[0] != '{' && !("null" <= t) && !("true" <= t) && !("false" <= t)
    ensures NumberFirst(t)
  {
  }

  lemma {:induction false} ParseValueExtend(s: string, x: string)
    requires ParseValue(s).Ok? && (ParseValue(s).rest != "" || StopsNumber(x))
    ensures ParseValue(s + x) == Extended(ParseValue(s), x)
    decreases |s|, 2
  {
    var t := SkipWs(s);
    SkipWsExtend(s, x);
    assert (t + x)[0] == t[0] && (t + x)[1..] == t[1..] + x;
    if t[0] == '"' {
      StringStep(s, t);
      StringStep(s + x, t + x);
      ParseStringExtend(t[1..], x);
    } else if t[0] == '[' {
      hide ParseArray, ParseObject, ParseString, ScanNumber;
      ParseArrayExtend(t[1..], x);
    } else if t[0] == '{' {
      hide ParseArray, ParseObject, ParseString, ScanNumber;
      ParseObjectExtend(t[1..], x);
    } else if "null" <= t || "true" <= t || "false" <= t {
      LiteralStep(s, t, x);
    } else {
      OtherIsNumber(s, t);
      NumberExtend(s, t, x);
    }
  }

  lemma {:induction false} ParseArrayExtend(s: string, x: string)
    requires ParseArray(s).Ok?
    ensures ParseArray(s + x) == Extended(ParseArray(s), x)
    decreases |s|, 4
  {
    hide ParseItems;
    var t := SkipWs(s);
    if Starts(t, ']') {
      SkipWsExtend(s, x);
      assert (t + x)[1..] == t[1..] + x;
    } else {
      ItemsNotEmpty(s);
      SkipWsExtend(s, x);
      ParseItemsExtend(s, x);
    }
  }

  lemma {:induction false} ItemsNotEmpty(s: string)
    requires ParseItems(s).Ok?
    ensures SkipWs(s) != ""
  {
    hide ParseArray, ParseObject, ScanNumber, ParseString;
  }

  lemma {:induction false} ParseItemsExtend(s: string, x: string)
    requires ParseItems(s).Ok?
    ensures ParseItems(s + x) == Extended(ParseItems(s), x)
    decreases |s|, 3
  {
    hide ParseValue;
    var rest := ParseValue(s).rest;
    var t := SkipWs(rest);
    ParseValueExtend(s, x);
    SkipWsExtend(rest, x);
    assert (t + x)[1..] == t[1..] + x;
    if !Starts(t, ']') {
      ParseItemsExtend(t[1..], x);
    }
  }

  lemma {:induction false} ParseObjectExtend(s: string, x: string)
    requires ParseObject(s).Ok?
    ensures ParseObject(s + x) == Extended(ParseObject(s), x)
    decreases |s|, 4
  {
    hide ParseMembers;
    var t := SkipWs(s);
    if Starts(t, '}') {
      SkipWsExtend(s, x);
      assert (t + x)[1..] == t[1..] + x;
    } else {
      MembersNotEmpty(s);
      SkipWsExtend(s, x);
      ParseMembersExtend(s, x);
    }
  }

  lemma {:induction false} MembersNotEmpty(s: string)
    requires ParseMembers(s).Ok?
    ensures SkipWs(s) != ""
  {
    hide ParseValue, ParseString;
  }

  lemma {:induction false} ParseMemberExtend(s: string, x: string)
    requires ParseMember(s).Ok? && ParseMember(s).rest != ""
    ensures ParseMember(s + x) == Extended(ParseMember(s), x)
    decreases |s|, 2
  {
    hide ParseValue, ParseString;
    var t := SkipWs(s);
    SkipWsExtend(s, x);
    assert (t + x)[1..] == t[1..] + x;
    ParseStringExtend(t[1..], x);
    var rest := ParseString(t[1..]).rest;
    var u := SkipWs(rest);
    SkipWsExtend(rest, x);
    assert (u + x)[1..] == u[1..] + x;
    ParseValueExtend(u[1..], x);
  }

  lemma {:induction false} ParseMembersExtend(s: string, x: string)
    requires ParseMembers(s).Ok?
    ensures ParseMembers(s + x) == Extended(ParseMembers(s), x)
    decreases |s|, 3
  {
    hide ParseMember;
    var rest := ParseMember(s).rest;
    var t := SkipWs(rest);
    ParseMemberExtend(s, x);
    SkipWsExtend(rest, x);
    assert (t + x)[1..] == t[1..] + x;
    if !Starts(t, '}') {
      ParseMembersExtend(t[1..], x);
    }
  }

  // ----- an object put together from fragments -----

  /** A member name and the text of its value. */
  datatype Part = Part(name: string, text: string)

  function PartText(p: Part): string { Quote(p.name) + ":" + p.text }

  function JoinParts(parts: seq<Part>): string {
    if parts == [] then ""
    else if |parts| == 1 then PartText(parts[0])
    else PartText(parts[0]) + "," + JoinParts(parts[1..])
  }

  lemma {:induction false} JoinSnoc(parts: seq<Part>, p: Part)
    requires parts != []
    ensures JoinParts(parts + [p]) == JoinParts(parts) + "," + PartText(p)
  {
    hide PartText;
    assert (parts + [p])[0] == parts[0] && (parts + [p])[1..] == parts[1..] + [p];
    if |parts| == 1 {
      assert parts[1..] + [p] == [p];
    } else {
      JoinSnoc(parts[1..], p);
      var a, b := PartText(parts[0]) + ",", JoinParts(parts[1..]);
      assert a + (b + "," + PartText(p)) == (a + b) + "," + PartText(p);
    }
  }

  predicate AllRead(parts: seq<Part>) {
    forall i :: 0 <= i < |parts| ==> WellFormed(parts[i].text)
  }

  function ReadMember(p: Part): Member
    requires WellFormed(p.text)
  {
    Member(p.name, Decode(p.text).value)
  }

  function ReadAll(parts: seq<Part>): (r: seq<Member>)
    requires AllRead(parts)
    ensures |r| == |parts|
    ensures forall i :: 0 <= i < |parts| ==> r[i] == ReadMember(parts[i])
  {
    if parts == [] then [] else [ReadMember(parts[0])] + ReadAll(parts[1..])
  }

  /** Reading one member, white space after its value included. */
  lemma ReadPart(p: Part, x: string) returns (w: string)
    requires WellFormed(p.text) && StopsNumber(x)
    ensures ParseMember(PartText(p) + x) == Ok(ReadMember(p), w + x) && SkipWs(w) == ""
  {
    hide ParseMember, ParseValue, Quote;
    w := ParseValue(p.text).rest;
    ParseValueExtend(p.text, x);
    ParseColon(p.name, p.text + x, Decode(p.text).value, w + x);
    assert PartText(p) + x == Quote(p.name) + (":" + (p.text + x));
  }

  lemma {:induction false} LastStep(s: string, m: Member, w: string, rest: string)
    requires ParseMember(s) == Ok(m, w + ("}" + rest)) && SkipWs(w) == ""
    ensures ParseMembers(s) == Ok([m], rest)
  {
    hide ParseMember;
    SkipWsBefore(w, "}" + rest);
    assert ("}" + rest)[1..] == rest;
  }

  lemma {:induction false} NextStep(s: string, m: Member, w: string, u: string, members: seq<Member>, rest: string)
    requires ParseMember(s) == Ok(m, w + ("," + u)) && SkipWs(w) == "" && ParseMembers(u) == Ok(members, rest)
    ensures ParseMembers(s) == Ok([m] + members, rest)
  {
    hide ParseMember;
    SkipWsBefore(w, "," + u);
    assert ("," + u)[1..] == u;
  }

  lemma {:induction false} ReadParts(parts: seq<Part>, rest: string)
    requires parts != [] && AllRead(parts)
    ensures ParseMembers(JoinParts(parts) + ("}" + rest)) == Ok(ReadAll(parts), rest)
  {
    hide ParseMembers, ParseMember, PartText, WellFormed, ReadMember;
    var tail := "}" + rest;
    if |parts| == 1 {
      var w := ReadPart(parts[0], tail);
      LastStep(PartText(parts[0]) + tail, ReadMember(parts[0]), w, rest);
      assert ReadAll(parts) == [ReadMember(parts[0])];
    } else {
      var u := JoinParts(parts[1..]) + tail;
      var w := ReadPart(parts[0], "," + u);
      ReadParts(parts[1..], rest);
      NextStep(PartText(parts[0]) + ("," + u), ReadMember(parts[0]), w, u, ReadAll(parts[1..]), rest);
      assert JoinParts(parts) + tail == PartText(parts[0]) + ("," + u);
    }
  }

  /** Well-formed fragments joined under their names decode to one object holding exactly
      those members, in that order. */
  lemma {:induction false} DecodeParts(parts: seq<Part>)
    requires parts != [] && AllRead(parts)
    ensures Decode("{" + JoinParts(parts) + "}") == Some(Obj(ReadAll(parts)))
  {
    hide ParseValue, ParseMembers, JoinParts, WellFormed, ReadMember;
    ReadParts(parts, "");
    var s := JoinParts(parts) + ("}" + "");
    ObjectStep(s);
    ParseBrace(s, Obj(ReadAll(parts)), "");
    assert "{" + s == "{" + JoinParts(parts) + "}";
  }

  lemma {:induction false} ObjectStep(s: string)
    requires ParseMembers(s).Ok?
    ensures ParseObject(s) == Ok(Obj(ParseMembers(s).value), ParseMembers(s).rest)
  {
    hide ParseValue, ParseString;
  }
}
