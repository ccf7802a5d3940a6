/** JSON as RFC 8259 defines it: a printer and a full parser for its grammar. Text is a
    string whose characters stand for bytes. */
module Json {
  import opened Seqs

  /** A number keeps its text; an object keeps its members in order. */
  datatype Json =
    | Null
    | Bool(b: bool)
    | Num(text: string)
    | Str(s: string)
    | Arr(items: seq<Json>)
    | Obj(members: seq<Member>)

  datatype Member = Member(name: string, value: Json)

  datatype Parsed<+T> = Fail | Ok(value: T, rest: string)

  const BS: char := 8 as char
  const FF: char := 12 as char

  predicate Starts(s: string, c: char) { s != "" && s[0] == c }

  // ----- white space (section 2) -----

  predicate IsWs(c: char) { c == ' ' || c == '\t' || c == '\n' || c == '\r' }

  function SkipWs(s: string): (r: string)
    ensures |r| <= |s|
    ensures s != "" && !IsWs(s[0]) ==> r == s
  {
    if s != "" && IsWs(s[0]) then SkipWs(s[1..]) else s
  }

  // ----- numbers (section 6) -----

  predicate IsDigit(c: char) { '0' <= c <= '9' }

  function SkipDigits(s: string): (r: string)
    ensures |r| <= |s|
  {
    if s != "" && IsDigit(s[0]) then SkipDigits(s[1..]) else s
  }

  function ScanInt(s: string): (r: Option<string>)
    ensures r.Some? ==> |r.value| < |s|
  {
    if s == "" || !IsDigit(s[0]) then None
    else if s[0] == '0' then Some(s[1..])
    else Some(SkipDigits(s[1..]))
  }

  function ScanFrac(s: string): (r: Option<string>)
    ensures r.Some? ==> |r.value| <= |s|
  {
    if !Starts(s, '.') then Some(s)
    else if |s| > 1 && IsDigit(s[1]) then Some(SkipDigits(s[1..]))
    else None
  }

  function ScanExp(s: string): (r: Option<string>)
    ensures r.Some? ==> |r.value| <= |s|
  {
    if !Starts(s, 'e') && !Starts(s, 'E') then Some(s)
    else
      var t := if Starts(s[1..], '+') || Starts(s[1..], '-') then s[2..] else s[1..];
      if t != "" && IsDigit(t[0]) then Some(SkipDigits(t)) else None
  }

  /** What follows the longest number at the front of `s`. */
  function ScanNumber(s: string): (r: Option<string>)
    ensures r.Some? ==> |r.value| < |s|
  {
    match ScanInt(if Starts(s, '-') then s[1..] else s)
    case None => None
    case Some(t) =>
      match ScanFrac(t)
      case None => None
      case Some(u) => ScanExp(u)
  }

  predicate ValidNumber(text: string) { ScanNumber(text) == Some("") }

  // ----- strings (section 7) -----

  function HexValue(c: char): (r: Option<nat>)
    ensures r.Some? ==> r.value < 16
  {
    if '0' <= c <= '9' then Some(c as int - '0' as int)
    else if 'a' <= c <= 'f' then Some(c as int - 'a' as int + 10)
    else if 'A' <= c <= 'F' then Some(c as int - 'A' as int + 10)
    else None
  }

  function Hex4(s: string): (r: Option<nat>)
    requires |s| >= 4
    ensures r.Some? ==> r.value < 0x10000
  {
    match (HexValue(s[0]), HexValue(s[1]), HexValue(s[2]), HexValue(s[3]))
    case (Some(a), Some(b), Some(c), Some(d)) => Some(a * 4096 + b * 256 + c * 16 + d)
    case _ => None
  }

  /** The bytes of one UTF-16 code unit written as \uXXXX, in UTF-8 form. */
  function Utf8(u: nat): string
    requires u < 0x10000
  {
    if u < 0x80 then [u as char]
    else if u < 0x800 then [(0xC0 + u / 64) as char, (0x80 + u % 64) as char]
    else [(0xE0 + u / 4096) as char, (0x80 + u / 64 % 64) as char, (0x80 + u % 64) as char]
  }

  function Unescape(c: char): Option<char> {
    if c == '"' || c == '\\' || c == '/' then Some(c)
    else if c == 'b' then Some(BS)
    else if c == 'f' then Some(FF)
    else if c == 'n' then Some('\n')
    else if c == 'r' then Some('\r')
    else if c == 't' then Some('\t')
    else None
  }

  function Prepend(front: string, p: Parsed<string>): (r: Parsed<string>)
    ensures r.Ok? <==> p.Ok?
    ensures r.Ok? ==> r.rest == p.rest
  {
    match p
    case Fail => Fail
    case Ok(s, rest) => Ok(front + s, rest)
  }

  /** The rest of a string after its opening quote. */
  function ParseString(s: string): (r: Parsed<string>)
    ensures r.Ok? ==> |r.rest| < |s|
  {
    if s == "" then Fail
    else if s[0] == '"' then Ok("", s[1..])
    else if s[0] < ' ' then Fail
    else if s[0] != '\\' then Prepend([s[0]], ParseString(s[1..]))
    else if |s| >= 2 && Unescape(s[1]).Some? then Prepend([Unescape(s[1]).value], ParseString(s[2..]))
    else if |s| >= 6 && s[1] == 'u' && Hex4(s[2..6]).Some? then Prepend(Utf8(Hex4(s[2..6]).value), ParseString(s[6..]))
    else Fail
  }

  // ----- values, arrays, objects (sections 3 to 5) -----

  function ParseValue(s: string): (r: Parsed<Json>)
    ensures r.Ok? ==> |r.rest| < |s|
    decreases |s|, 2
  {
    var t := SkipWs(s);
    if t == "" then Fail
    else if t[0] == '"' then
      match ParseString(t[1..])
      case Fail => Fail
      case Ok(str, rest) => Ok(Str(str), rest)
    else if t[0] == '[' then ParseArray(t[1..])
    else if t[0] == '{' then ParseObject(t[1..])
    else if "null" <= t then Ok(Null, t[4..])
    else if "true" <= t then Ok(Bool(true), t[4..])
    else if "false" <= t then Ok(Bool(false), t[5..])
    else
      match ScanNumber(t)
      case None => Fail
      case Some(rest) => Ok(Num(t[..|t| - |rest|]), rest)
  }

  function ParseArray(s: string): (r: Parsed<Json>)
    ensures r.Ok? ==> |r.rest| < |s|
    decreases |s|, 4
  {
    var t := SkipWs(s);
    if Starts(t, ']') then Ok(Arr([]), t[1..])
    else
      match ParseItems(s)
      case Fail => Fail
      case Ok(items, rest) => Ok(Arr(items), rest)
  }

  function ParseItems(s: string): (r: Parsed<seq<Json>>)
    ensures r.Ok? ==> |r.rest| < |s|
    decreases |s|, 3
  {
    match ParseValue(s)
    case Fail => Fail
    case Ok(item, rest) =>
      var t := SkipWs(rest);
      if Starts(t, ']') then Ok([item], t[1..])
      else if !Starts(t, ',') then Fail
      else
        match ParseItems(t[1..])
        case Fail => Fail
        case Ok(items, rest') => Ok([item] + items, rest')
  }

  function ParseObject(s: string): (r: Parsed<Json>)
    ensures r.Ok? ==> |r.rest| < |s|
    decreases |s|, 4
  {
    var t := SkipWs(s);
    if Starts(t, '}') then Ok(Obj([]), t[1..])
    else
      match ParseMembers(s)
      case Fail => Fail
      case Ok(members, rest) => Ok(Obj(members), rest)
  }

  function ParseMember(s: string): (r: Parsed<Member>)
    ensures r.Ok? ==> |r.rest| < |s|
    decreases |s|, 2
  {
    var t := SkipWs(s);
    if !Starts(t, '"') then Fail
    else
      match ParseString(t[1..])
      case Fail => Fail
      case Ok(name, rest) =>
        var u := SkipWs(rest);
        if !Starts(u, ':') then Fail
        else
          match ParseValue(u[1..])
          case Fail => Fail
          case Ok(value, rest') => Ok(Member(name, value), rest')
  }

  function ParseMembers(s: string): (r: Parsed<seq<Member>>)
    ensures r.Ok? ==> |r.rest| < |s|
    decreases |s|, 3
  {
    match ParseMember(s)
    case Fail => Fail
    case Ok(member, rest) =>
      var t := SkipWs(rest);
      if Starts(t, '}') then Ok([member], t[1..])
      else if !Starts(t, ',') then Fail
      else
        match ParseMembers(t[1..])
        case Fail => Fail
        case Ok(members, rest') => Ok([member] + members, rest')
  }

  /** The value of a complete JSON text. */
  function Decode(s: string): Option<Json> {
    match ParseValue(s)
    case Fail => None
    case Ok(value, rest) => if SkipWs(rest) == "" then Some(value) else None
  }

  predicate WellFormed(s: string) { Decode(s).Some? }

  // ----- printing -----

  function HexDigit(n: nat): char
    requires n < 16
  {
    if n < 10 then ('0' as int + n) as char else ('a' as int + n - 10) as char
  }

  /** How the escapers write one byte. */
  function EscapeChar(c: char): (r: string)
    ensures |r| > 0
  {
    if c == '"' then "\\\""
    else if c == '\\' then "\\\\"
    else if c == BS then "\\b"
    else if c == FF then "\\f"
    else if c == '\n' then "\\n"
    else if c == '\r' then "\\r"
    else if c == '\t' then "\\t"
    else if c < ' ' then "\\u00" + [HexDigit(c as int / 16), HexDigit(c as int % 16)]
    else [c]
  }

  function Escape(s: string): string {
    if s == "" then "" else EscapeChar(s[0]) + Escape(s[1..])
  }

  lemma EscapeStep(done: string, str: string, i: nat)
    requires i < |str|
    ensures done + Escape(str[i..]) == (done + EscapeChar(str[i])) + Escape(str[i + 1..])
  {
    assert str[i..][1..] == str[i + 1..];
  }

  function Quote(s: string): string { "\"" + Escape(s) + "\"" }

  function Print(j: Json): string
    decreases j, 1
  {
    match j
    case Null => "null"
    case Bool(b) => if b then "true" else "false"
    case Num(text) => text
    case Str(s) => Quote(s)
    case Arr(items) => "[" + PrintItems(items) + "]"
    case Obj(members) => "{" + PrintMembers(members) + "}"
  }

  function PrintItems(items: seq<Json>): string
    decreases items, 0
  {
    if items == [] then ""
    else if |items| == 1 then Print(items[0])
    else Print(items[0]) + "," + PrintItems(items[1..])
  }

  function PrintMember(m: Member): string
    decreases m, 2
  {
    Quote(m.name) + ":" + Print(m.value)
  }

  function PrintMembers(members: seq<Member>): string
    decreases members, 0
  {
    if members == [] then ""
    else if |members| == 1 then PrintMember(members[0])
    else PrintMember(members[0]) + "," + PrintMembers(members[1..])
  }

  /** Every number in the value is spelled as the grammar demands. */
  predicate NumbersValid(j: Json)
    decreases j
  {
    match j
    case Num(text) => ValidNumber(text)
    case Arr(items) => forall i :: 0 <= i < |items| ==> NumbersValid(items[i])
    case Obj(members) => forall i :: 0 <= i < |members| ==> NumbersValid(members[i].value)
    case _ => true
  }
}
