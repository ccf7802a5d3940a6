/** Documents with any other defect: a broken number or a map entry without a key makes
    the parser fail at that point, whatever the rest of the text is. */
module ZvalDefects {
  import opened Seqs
  import opened Json
  import opened JsonRoundTrip
  import opened Zval
  import opened ZvalJson
  import opened ZvalScan

  // ----- the other defects: the parser stops at the first of them -----

  /** A broken number is no number, whatever follows. */
  lemma {:induction false} BrokenNumberFails(text: string, rest: string)
    requires BrokenNumber(text) && Delimited(rest)
    ensures ParseValue(text + rest).Fail?
  {
    hide ParseString, ParseArray, ParseObject, SkipDigits;
    var s := text + rest;
    BrokenStart(text);
    assert s[0] == text[0] && SkipWs(s) == s;
    if text == "nan" || text == "inf" {
      assert ScanInt(s) == None;
      assert !("null" <= s) by { assert s[1] == text[1]; }
    } else if text == "-inf" {
      assert s[1..][0] == 'i';
      assert ScanInt(s[1..]) == None;
    } else {
      PointFails(text, rest);
    }
  }

  lemma BrokenStart(text: string)
    requires BrokenNumber(text)
    ensures text != "" && (IsDigit(text[0]) || text[0] == '-' || text[0] == 'i' || text == "nan")
  {
  }

  lemma PointFails(text: string, rest: string)
    requires ScanInt(if Starts(text, '-') then text[1..] else text) == Some(".") && Delimited(rest)
    ensures ScanNumber(text + rest) == None
  {
    var s, s' := text + rest, if Starts(text, '-') then text[1..] else text;
    ScanIntExtend(s', rest);
    assert s' + rest == if Starts(s, '-') then s[1..] else s;
    assert ScanFrac("." + rest) == None;
  }

  /** What follows a rendered value: the end, a comma or a closing bracket. */
  predicate Closed(rest: string) {
    rest == "" || rest[0] == ',' || rest[0] == ']' || rest[0] == '}'
  }

  lemma {:induction false} DocStart(d: Doc)
    requires Shape(d)
    ensures var t := Render(d); t != "" && !IsWs(t[0]) && t[0] != ']' && t[0] != '}'
    ensures Render(d)[0] == '"' <==> d.DStr? || d.DCircular? || d.DTooDeep? || d.DOther?
  {
    hide Field, Dec, Escape, RenderItems, RenderEntries, ListMore, MapMore, ScanNumber, ScanInt;
    match d {
      case DNum(text) =>
        if ValidNumber(text) {
          NumberStart(text);
        } else {
          BrokenStart(text);
        }
      case DTooLarge(count) => hide Quote;
      case _ =>
    }
  }

  lemma QuotedRender(d: Doc) returns (s: string)
    requires d.DStr? || d.DCircular? || d.DTooDeep? || d.DOther?
    ensures Render(d) == Quote(s)
  {
    hide Quote;
    s := if d.DStr? then d.s else if d.DCircular? then CIRCULAR else if d.DTooDeep? then TOO_DEEP else UNSUPPORTED;
  }

  /** The rendered text of a value that lacks its key is no member. */
  lemma {:induction false} KeylessFails(d: Doc, rest: string)
    requires Shape(d) && Closed(rest)
    ensures ParseMember(Render(d) + rest).Fail?
  {
    DocStart(d);
    hide ParseMember, Quote, Shape, Render;
    if d.DStr? || d.DCircular? || d.DTooDeep? || d.DOther? {
      var s := QuotedRender(d);
      QuotedIsNoMember(s, rest);
    } else {
      UnquotedIsNoMember(Render(d) + rest);
    }
  }

  lemma {:induction false} UnquotedIsNoMember(s: string)
    requires s != "" && s[0] != '"' && !IsWs(s[0])
    ensures ParseMember(s).Fail?
  {
  }

  lemma {:induction false} QuotedIsNoMember(s: string, rest: string)
    requires Closed(rest)
    ensures ParseMember(Quote(s) + rest).Fail?
  {
    var t := Quote(s) + rest;
    ParseEscaped(s, rest);
    hide Escape, ParseString;
    assert t[0] == '"' && t[1..] == Escape(s) + "\"" + rest;
    NoColonFails(t, s, rest);
  }

  lemma {:induction false} NoColonFails(t: string, name: string, rest: string)
    requires Starts(t, '"') && ParseString(t[1..]) == Ok(name, rest) && Closed(rest)
    ensures ParseMember(t).Fail?
  {
    hide ParseString, ParseValue;
    assert SkipWs(t) == t && SkipWs(rest) == rest;
  }

  lemma {:induction false} BadFails(d: Doc, rest: string)
    requires Shape(d) && !HasTooLarge(d) && !DocOk(d) && Closed(rest)
    ensures ParseValue(Render(d) + rest).Fail?
    decreases d, 2
  {
    hide ParseValue, ParseArray, ParseObject, Render, ParseItems, ParseMembers, BrokenNumber, ValidNumber;
    match d {
      case DNum(text) =>
        RenderNumber(text);
        BrokenNumberFails(text, rest);
      case DList(items, more) =>
        ListFails(items, ListMore(more) + "]" + rest);
        RenderListTail(items, more, rest);
        BracketFails(RenderItems(items, true) + (ListMore(more) + "]" + rest));
      case DMap(entries, more) =>
        MapFails(entries, MapMore(more) + "}" + rest);
        RenderMapTail(entries, more, rest);
        BraceFails(RenderEntries(entries, true) + (MapMore(more) + "}" + rest));
    }
  }

  lemma RenderNumber(text: string)
    ensures Render(DNum(text)) == text
  {
  }

  lemma {:induction false} RenderListTail(items: seq<Doc>, more: Option<nat>, rest: string)
    ensures Render(DList(items, more)) + rest == "[" + (RenderItems(items, true) + (ListMore(more) + "]" + rest))
  {
    hide RenderItems, ListMore;
  }

  lemma {:induction false} RenderMapTail(entries: seq<DEntry>, more: Option<nat>, rest: string)
    ensures Render(DMap(entries, more)) + rest == "{" + (RenderEntries(entries, true) + (MapMore(more) + "}" + rest))
  {
    hide RenderEntries, MapMore;
  }

  lemma {:induction false} BracketFails(u: string)
    requires ParseArray(u).Fail?
    ensures ParseValue("[" + u).Fail?
  {
    assert ("[" + u)[1..] == u;
  }

  lemma {:induction false} BraceFails(u: string)
    requires ParseObject(u).Fail?
    ensures ParseValue("{" + u).Fail?
  {
    assert ("{" + u)[1..] == u;
  }

  lemma {:induction false} ListFails(items: seq<Doc>, tail: string)
    requires forall i :: 0 <= i < |items| ==> Shape(items[i])
    requires !AnyTooLarge(items) && !(forall i :: 0 <= i < |items| ==> DocOk(items[i])) && tail != "" && Closed(tail)
    ensures ParseArray(RenderItems(items, true) + tail).Fail?
    decreases items, 1
  {
    ItemsFail(items, tail);
    DocStart(items[0]);
    hide Render, ParseItems;
    var s := RenderItems(items, true) + tail;
    assert s[0] == Render(items[0])[0];
  }

  lemma {:induction false} ItemsFail(items: seq<Doc>, tail: string)
    requires forall i :: 0 <= i < |items| ==> Shape(items[i])
    requires !AnyTooLarge(items) && !(forall i :: 0 <= i < |items| ==> DocOk(items[i])) && tail != "" && Closed(tail)
    ensures ParseItems(RenderItems(items, true) + tail).Fail?
    decreases items, 0
  {
    hide Shape, DocOk, ParseItems, ParseValue, Render, HasTooLarge, Print, ToJson, RenderItems;
    var first, rest := items[0], items[1..];
    var after := RenderItems(rest, false) + tail;
    ItemsTail(items, tail);
    if !DocOk(first) {
      BadFails(first, after);
      FirstItemFails(Render(first) + after);
    } else {
      assert exists i :: 0 <= i < |rest| && !DocOk(rest[i]) by {
        var i :| 0 <= i < |items| && !DocOk(items[i]);
        assert rest[i - 1] == items[i];
      }
      ItemsFail(rest, tail);
      RenderIsPrint(first);
      ParsePrint(ToJson(first), after);
      LaterItemFails(Render(first) + after, ToJson(first), RenderItems(rest, true) + tail);
    }
  }

  lemma {:induction false} ItemsTail(items: seq<Doc>, tail: string)
    requires items != [] && tail != "" && Closed(tail)
    ensures var after := RenderItems(items[1..], false) + tail;
            && RenderItems(items, true) + tail == Render(items[0]) + after && Closed(after)
            && (items[1..] != [] ==> after == "," + (RenderItems(items[1..], true) + tail))
  {
    hide RenderItems, Render;
    var rest := items[1..];
    ItemsCommas(items);
    ItemsCommas(rest);
    Regroup(Render(items[0]), RenderItems(rest, false), tail);
    if rest == [] {
      assert RenderItems(rest, false) + tail == tail;
    } else {
      Regroup(",", RenderItems(rest, true), tail);
      assert ("," + (RenderItems(rest, true) + tail))[0] == ',';
    }
  }

  lemma {:induction false} ItemsCommas(items: seq<Doc>)
    ensures items == [] ==> RenderItems(items, false) == ""
    ensures items != [] ==> RenderItems(items, true) == Render(items[0]) + RenderItems(items[1..], false)
    ensures items != [] ==> RenderItems(items, false) == "," + RenderItems(items, true)
  {
    hide Render;
  }

  lemma {:induction false} FirstItemFails(s: string)
    requires ParseValue(s).Fail?
    ensures ParseItems(s).Fail?
  {
  }

  lemma {:induction false} LaterItemFails(s: string, item: Json, u: string)
    requires ParseValue(s) == Ok(item, "," + u) && ParseItems(u).Fail?
    ensures ParseItems(s).Fail?
  {
    hide ParseValue;
    assert ("," + u)[1..] == u;
  }

  lemma {:induction false} MapFails(entries: seq<DEntry>, tail: string)
    requires forall i :: 0 <= i < |entries| ==> Shape(entries[i].value)
    requires !AnyEntryTooLarge(entries) && !(forall i :: 0 <= i < |entries| ==> EntryOk(entries[i])) && tail != "" &&
               Closed(tail)
    ensures ParseObject(RenderEntries(entries, true) + tail).Fail?
    decreases entries, 1
  {
    EntriesFail(entries, tail);
    EntryStart(entries[0]);
    hide RenderEntry, ParseMembers;
    var s := RenderEntries(entries, true) + tail;
    assert s[0] == RenderEntry(entries[0])[0];
  }

  lemma {:induction false} EntryStart(e: DEntry)
    requires Shape(e.value)
    ensures var t := RenderEntry(e); t != "" && !IsWs(t[0]) && t[0] != '}'
  {
    DocStart(e.value);
    hide Render, Escape;
  }

  lemma {:induction false} EntryFails(e: DEntry, after: string)
    requires Shape(e.value) && !EntryTooLarge(e) && !EntryOk(e) && Closed(after)
    ensures ParseMember(RenderEntry(e) + after).Fail?
    decreases e, 3
  {
    hide Escape, Shape, DocOk, HasTooLarge;
    if e.key.None? {
      KeylessFails(e.value, after);
      hide Render, ParseMember;
      assert RenderEntry(e) + after == Render(e.value) + after;
    } else {
      BadFails(e.value, after);
      hide Render, ParseValue, Quote;
      KeyedFails(e.key.value, Render(e.value) + after);
      assert RenderEntry(e) + after == Quote(e.key.value) + (":" + (Render(e.value) + after));
    }
  }

  lemma {:induction false} KeyedFails(name: string, u: string)
    requires ParseValue(u).Fail?
    ensures ParseMember(Quote(name) + (":" + u)).Fail?
  {
    var s, tail := Quote(name) + (":" + u), ":" + u;
    assert s[1..] == Escape(name) + "\"" + tail;
    ParseEscaped(name, tail);
    hide Escape, ParseString, ParseValue;
    assert tail[1..] == u;
  }

  lemma {:induction false} EntriesFail(entries: seq<DEntry>, tail: string)
    requires forall i :: 0 <= i < |entries| ==> Shape(entries[i].value)
    requires !AnyEntryTooLarge(entries) && !(forall i :: 0 <= i < |entries| ==> EntryOk(entries[i])) && tail != "" &&
               Closed(tail)
    ensures ParseMembers(RenderEntries(entries, true) + tail).Fail?
    decreases entries, 0
  {
    hide Shape, EntryOk, ParseMembers, ParseMember, RenderEntry, EntryTooLarge, PrintMember, ToMember, RenderEntries;
    var first, rest := entries[0], entries[1..];
    var after := RenderEntries(rest, false) + tail;
    EntriesTail(entries, tail);
    if !EntryOk(first) {
      EntryFails(first, after);
      FirstMemberFails(RenderEntry(first) + after);
    } else {
      assert exists i :: 0 <= i < |rest| && !EntryOk(rest[i]) by {
        var i :| 0 <= i < |entries| && !EntryOk(entries[i]);
        assert rest[i - 1] == entries[i];
      }
      EntriesFail(rest, tail);
      RenderEntryIsPrint(first);
      ParseMemberPrint(ToMember(first), after);
      LaterMemberFails(RenderEntry(first) + after, ToMember(first), RenderEntries(rest, true) + tail);
    }
  }

  lemma {:induction false} EntriesTail(entries: seq<DEntry>, tail: string)
    requires entries != [] && tail != "" && Closed(tail)
    ensures var after := RenderEntries(entries[1..], false) + tail;
            && RenderEntries(entries, true) + tail == RenderEntry(entries[0]) + after && Closed(after)
            && (entries[1..] != [] ==> after == "," + (RenderEntries(entries[1..], true) + tail))
  {
    hide RenderEntries, RenderEntry;
    var rest := entries[1..];
    EntriesCommas(entries);
    EntriesCommas(rest);
    Regroup(RenderEntry(entries[0]), RenderEntries(rest, false), tail);
    if rest == [] {
      assert RenderEntries(rest, false) + tail == tail;
    } else {
      Regroup(",", RenderEntries(rest, true), tail);
      assert ("," + (RenderEntries(rest, true) + tail))[0] == ',';
    }
  }

  lemma {:induction false} EntriesCommas(entries: seq<DEntry>)
    ensures entries == [] ==> RenderEntries(entries, false) == ""
    ensures entries != [] ==>
              RenderEntries(entries, true) == RenderEntry(entries[0]) + RenderEntries(entries[1..], false)
    ensures entries != [] ==> RenderEntries(entries, false) == "," + RenderEntries(entries, true)
  {
    hide RenderEntry;
  }

  lemma {:induction false} FirstMemberFails(s: string)
    requires ParseMember(s).Fail?
    ensures ParseMembers(s).Fail?
  {
  }

  lemma {:induction false} LaterMemberFails(s: string, m: Member, u: string)
    requires ParseMember(s) == Ok(m, "," + u) && ParseMembers(u).Fail?
    ensures ParseMembers(s).Fail?
  {
    hide ParseMember;
    assert ("," + u)[1..] == u;
  }
}
