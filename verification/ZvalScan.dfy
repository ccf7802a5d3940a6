/** Documents with an oversized table: their text ends inside a string, wherever it is
    read from, because the 64-byte placeholder is cut inside its last string. */
module ZvalScan {
  import opened Seqs
  import opened Json
  import opened JsonScan
  import opened Zval
  import opened ZvalJson
  import opened ZvalNumbers

  predicate HasTooLarge(d: Doc)
    decreases d, 1
  {
    match d
    case DTooLarge(_) => true
    case DList(items, _) => AnyTooLarge(items)
    case DMap(entries, _) => AnyEntryTooLarge(entries)
    case _ => false
  }

  predicate AnyTooLarge(items: seq<Doc>)
    decreases items, 0
  {
    items != [] && (HasTooLarge(items[0]) || AnyTooLarge(items[1..]))
  }

  predicate EntryTooLarge(e: DEntry)
    decreases e, 2
  {
    HasTooLarge(e.value)
  }

  predicate AnyEntryTooLarge(entries: seq<DEntry>)
    decreases entries, 0
  {
    entries != [] && (EntryTooLarge(entries[0]) || AnyEntryTooLarge(entries[1..]))
  }

  // ----- oversized tables: the text ends inside a string -----

  /** Read from outside or inside a string, `t` ends where it began, or dies. */
  ghost predicate Even(t: string) {
    && (Scan(Out, t) == Out || Scan(Out, t) == Dead)
    && (Scan(In, t) == In || Scan(In, t) == Dead)
  }

  /** Wherever `t` starts, it ends inside a string, or dies. */
  ghost predicate Stuck(t: string) {
    && (Scan(Out, t) == In || Scan(Out, t) == Dead)
    && (Scan(In, t) == In || Scan(In, t) == Dead)
  }

  lemma EvenConcat(s: string, t: string)
    requires Even(s) && Even(t)
    ensures Even(s + t)
  {
    ScanConcat(Out, s, t);
    ScanConcat(In, s, t);
    DeadStaysDead(t);
  }

  lemma StuckConcat(s: string, t: string)
    requires (Stuck(s) && (Even(t) || Stuck(t))) || (Even(s) && Stuck(t))
    ensures Stuck(s + t)
  {
    ScanConcat(Out, s, t);
    ScanConcat(In, s, t);
    DeadStaysDead(t);
  }

  lemma {:induction false} EvenPlain(t: string)
    requires Plain(t)
    ensures Even(t)
  {
    if t != "" {
      assert PlainChar(t[0]);
      EvenPlain(t[1..]);
      DeadStaysDead(t[1..]);
    }
  }

  lemma {:induction false} EscapeScan(s: string)
    ensures Even(Escape(s))
  {
    if s != "" {
      EscapeScan(s[1..]);
      EscapeCharScan(s[0]);
      hide EscapeChar, Scan;
      EvenConcat(EscapeChar(s[0]), Escape(s[1..]));
    }
  }

  lemma EscapeCharScan(c: char)
    ensures Even(EscapeChar(c))
  {
    var e := EscapeChar(c);
    if PlainChar(c) {
      EvenPlain([c]);
    } else {
      assert e[0] == '\\';
      DeadStaysDead(e[1..]);
      assert Scan(Out, e) == Dead;
      if |e| == 2 {
        assert e[1..][1..] == "";
        assert Scan(Escaped, e[1..]) == Scan(In, "");
      } else {
        var tail := e[2..];
        assert e[1..][1..] == tail;
        assert Scan(In, e) == Scan(In, tail);
        assert Plain(tail);
        EvenPlain(tail);
      }
    }
  }

  lemma EvenQuote(s: string)
    ensures Even(Quote(s))
  {
    EscapeScan(s);
    var e, q := Escape(s), "\"";
    ScanConcat(Out, q, e + q);
    ScanConcat(In, q, e + q);
    ScanConcat(Out, e, q);
    ScanConcat(In, e, q);
    DeadStaysDead(q);
    assert Quote(s) == q + (e + q);
    assert q[1..] == "";
  }

  lemma EvenNumber(text: string)
    requires ValidNumber(text) || BrokenNumber(text)
    ensures Even(text)
  {
    if ValidNumber(text) {
      NumberScan(Out, text);
      NumberScan(In, text);
    } else if text == "inf" || text == "-inf" || text == "nan" {
      EvenPlain(text);
    } else {
      PointScan(Out, text);
      PointScan(In, text);
    }
  }

  lemma {:induction false} PointScan(m: Mode, text: string)
    requires m == Out || m == In
    requires ScanInt(if Starts(text, '-') then text[1..] else text) == Some(".")
    ensures Scan(m, text) == m
  {
    IntScan(m, if Starts(text, '-') then text[1..] else text);
    if Starts(text, '-') {
      OneNumberChar(m, text);
    }
    OneNumberChar(m, ".");
    assert "."[1..] == "";
  }

  // The placeholder is cut inside its last string.

  lemma {:induction false} CountLength(count: nat)
    requires MAX_ELEMENTS < count < 0x1_0000_0000
    ensures 4 <= |Dec(count)| <= 10
  {
    assert Power10(3) == 1000;
    assert Power10(6) == 1000000 by { assert Power10(5) == 100000; }
    assert Power10(10) == 10000000000 by { assert Power10(8) == 100000000; }
    DecLength(count, 10);
  }

  const TOO_LARGE := "Array too large (truncated)"

  /** The placeholder up to its last value. */
  function TooLargeFront(count: nat): string {
    "{" + Field("_type", "array") + "," + Quote("_count") + ":" + Dec(count) + ("," + Quote("_value") + ":")
  }

  /** The first 63 bytes of the placeholder: everything up to some way into its last string. */
  lemma TooLargeCut(count: nat) returns (s: string)
    requires MAX_ELEMENTS < count < 0x1_0000_0000
    ensures Plain(s) && TooLargeText(count) == TooLargeFront(count) + ("\"" + s)
  {
    CountLength(count);
    FrontLength(count);
    LastString();
    FullPlaceholder(count);
    hide TooLargeText, TooLargeFront, Dec, Fit64;
    s := CutText(TooLargeFront(count), TOO_LARGE);
  }

  lemma CutText(front: string, s: string) returns (cut: string)
    requires Plain(s) && |front| < 63 <= |front| + 1 + |s|
    ensures Plain(cut) && Fit64(front + ("\"" + s + "\"") + "}") == front + ("\"" + cut)
  {
    var m := 62 - |front|;
    cut := s[..m];
    var full := front + ("\"" + s + "\"") + "}";
    assert full[..63] == front + ("\"" + cut);
  }

  lemma FullPlaceholder(count: nat)
    ensures TooLargeText(count) == Fit64(TooLargeFront(count) + ("\"" + TOO_LARGE + "\"") + "}")
  {
    LastString();
    hide Quote, Dec, Fit64;
    var a, b := "{" + Field("_type", "array") + "," + Quote("_count") + ":" + Dec(count), "," + Quote("_value") + ":";
    assert a + ("," + Field("_value", TOO_LARGE) + "}") == a + b + Quote(TOO_LARGE) + "}";
  }

  lemma LastString()
    ensures Quote(TOO_LARGE) == "\"" + TOO_LARGE + "\"" && |TOO_LARGE| == 27
    ensures Plain(TOO_LARGE)
  {
    assert Plain(TOO_LARGE);
    QuotePlain(TOO_LARGE);
  }

  lemma {:induction false} FrontLength(count: nat)
    ensures |TooLargeFront(count)| == 36 + |Dec(count)|
    ensures var t := TooLargeFront(count); t[0] == '{' && t[1] == '"' && t[2] == '_'
  {
    LiteralsArePlain();
    QuotePlain("_type");
    QuotePlain("_value");
    QuotePlain("array");
    QuotePlain("_count");
    hide Quote, Dec;
  }

  lemma TooLargeScan(count: nat)
    requires MAX_ELEMENTS < count < 0x1_0000_0000
    ensures Stuck(TooLargeText(count))
  {
    hide Stuck, Even, TooLargeText, TooLargeFront, Scan;
    var s := TooLargeCut(count);
    FrontIsEven(count);
    FrontLength(count);
    StuckOpen(TooLargeFront(count), s);
  }

  lemma StuckOpen(front: string, s: string)
    requires Even(front) && Plain(s)
    requires |front| >= 3 && front[0] == '{' && front[1] == '"' && front[2] == '_'
    ensures Stuck(front + ("\"" + s))
  {
    var tail := "\"" + s;
    OpenString(s);
    DeadStaysDead(tail);
    hide Scan;
    ScanConcat(Out, front, tail);
    DiesInside(front + tail);
  }

  lemma {:induction false} OpenString(s: string)
    requires Plain(s)
    ensures Scan(Out, "\"" + s) == In || Scan(Out, "\"" + s) == Dead
  {
    EvenPlain(s);
    assert ("\"" + s)[1..] == s;
  }

  /** Read from inside a string, the placeholder's first quote closes it and the
      underscore cannot follow. */
  lemma {:induction false} DiesInside(text: string)
    requires |text| >= 3 && text[0] == '{' && text[1] == '"' && text[2] == '_'
    ensures Scan(In, text) == Dead
  {
    assert text[1..][1..] == text[2..] && text[2..][1..] == text[3..];
    assert Scan(In, text) == Scan(In, text[1..]);
    assert Scan(In, text[1..]) == Scan(Out, text[2..]);
    DeadStaysDead(text[3..]);
  }

  lemma FrontIsEven(count: nat)
    ensures Even(TooLargeFront(count))
  {
    hide Even, Quote, Field;
    DecDigits(count);
    EvenPlain(Dec(count));
    EvenPlainText("{");
    EvenPlainText(",");
    EvenPlainText(":");
    EvenField("_type", "array");
    EvenQuote("_count");
    EvenQuote("_value");
    hide Dec;
    var a := "{" + Field("_type", "array");
    EvenConcat("{", Field("_type", "array"));
    EvenConcat(a, ",");
    EvenConcat(a + ",", Quote("_count"));
    EvenConcat(a + "," + Quote("_count"), ":");
    EvenConcat(a + "," + Quote("_count") + ":", Dec(count));
    EvenConcat(",", Quote("_value"));
    EvenConcat("," + Quote("_value"), ":");
    EvenConcat(a + "," + Quote("_count") + ":" + Dec(count), "," + Quote("_value") + ":");
  }

  // ----- the classification of every document's text -----

  lemma {:induction false} DocScan(d: Doc)
    requires Shape(d)
    ensures if HasTooLarge(d) then Stuck(Render(d)) else Even(Render(d))
    decreases d, 2
  {
    hide Scan, Even, Stuck, ObjectText, ResourceText, Quote, ListMore, MapMore, RenderItems, RenderEntries,
        ValidNumber, BrokenNumber, TooLargeText;
    match d {
      case DNull => EvenPlainText("null");
      case DBool(b) => EvenPlainText(if b then "true" else "false");
      case DNum(text) => EvenNumber(text);
      case DStr(s) => EvenQuote(s);
      case DList(items, more) =>
        ItemsScanAll(items);
        ListMoreScan(more);
        Bracket("[", RenderItems(items, true), ListMore(more), "]");
      case DMap(entries, more) =>
        EntriesScanAll(entries);
        MapMoreScan(more);
        Bracket("{", RenderEntries(entries, true), MapMore(more), "}");
      case DObject(class_, deep) => ObjectScanAll(class_, deep);
      case DResource(kind) => ResourceScanAll(kind);
      case DCircular => EvenQuote(CIRCULAR);
      case DTooDeep => EvenQuote(TOO_DEEP);
      case DTooLarge(count) => TooLargeScan(count);
      case DOther => EvenQuote(UNSUPPORTED);
    }
  }

  lemma EvenPlainText(t: string)
    requires t == "null" || t == "true" || t == "false" || t == "[" || t == "]" || t == "{" || t == "}" || t == "," ||
               t == ":"
    ensures Even(t)
  {
    EvenPlain(t);
  }

  lemma Bracket(open_: string, body: string, more: string, close: string)
    requires open_ == "[" || open_ == "{"
    requires close == "]" || close == "}"
    requires Even(more)
    ensures Even(body) ==> Even(open_ + body + more + close)
    ensures Stuck(body) ==> Stuck(open_ + body + more + close)
  {
    EvenPlainText(open_);
    EvenPlainText(close);
    hide Even, Stuck;
    if Even(body) {
      EvenConcat(open_, body);
      EvenConcat(open_ + body, more);
      EvenConcat(open_ + body + more, close);
    }
    if Stuck(body) {
      StuckConcat(open_, body);
      StuckConcat(open_ + body, more);
      StuckConcat(open_ + body + more, close);
    }
  }

  lemma EvenField(name: string, s: string)
    ensures Even(Field(name, s))
  {
    EvenQuote(name);
    EvenQuote(s);
    EvenPlainText(":");
    hide Even, Quote;
    EvenConcat(Quote(name), ":");
    EvenConcat(Quote(name) + ":", Quote(s));
  }

  lemma ListMoreScan(more: Option<nat>)
    ensures Even(ListMore(more))
  {
    if more.Some? {
      EvenPlainText(",");
      EvenQuote(TruncatedItem(more.value));
      EvenConcat(",", Quote(TruncatedItem(more.value)));
    }
  }

  lemma MapMoreScan(more: Option<nat>)
    ensures Even(MapMore(more))
  {
    if more.Some? {
      EvenPlainText(",");
      EvenField("...", TruncatedValue(more.value));
      EvenConcat(",", Field("...", TruncatedValue(more.value)));
    }
  }

  lemma ResourceScanAll(kind: string)
    ensures Even(ResourceText(kind))
  {
    hide Even, Field;
    var a, b := Field("_type", "resource"), Field("_value", kind + " resource");
    EvenField("_type", "resource");
    EvenField("_value", kind + " resource");
    EvenPlainText("{");
    EvenPlainText(",");
    EvenPlainText("}");
    EvenConcat(a, ",");
    EvenConcat(a + ",", b);
    EvenConcat("{", a + "," + b);
    EvenConcat("{" + (a + "," + b), "}");
  }

  lemma ObjectScanAll(class_: Option<string>, deep: bool)
    ensures Even(ObjectText(class_, deep))
  {
    hide Even, Field, Quote;
    EvenPlainText("{");
    EvenPlainText(",");
    EvenPlainText("}");
    EvenField("_type", "object");
    var a := "{" + Field("_type", "object");
    EvenConcat("{", Field("_type", "object"));
    var b := if class_.Some? then "," + Field("_class", class_.value) else "";
    if class_.Some? {
      EvenField("_class", class_.value);
      EvenConcat(",", Field("_class", class_.value));
    } else {
      EvenPlain("");
    }
    var c := if deep then "," + Field("_value", "Object (depth limit)") else "," + (Quote("_properties") + ":" + "{}");
    if deep {
      EvenField("_value", "Object (depth limit)");
      EvenConcat(",", Field("_value", "Object (depth limit)"));
    } else {
      EvenQuote("_properties");
      EvenPlain(":");
      EvenPlain("{}");
      EvenConcat(Quote("_properties"), ":");
      EvenConcat(Quote("_properties") + ":", "{}");
      EvenConcat(",", Quote("_properties") + ":" + "{}");
    }
    EvenConcat(a, b);
    EvenConcat(a + b, c);
    EvenConcat(a + b + c, "}");
  }

  lemma {:induction false} ItemsScanAll(items: seq<Doc>)
    requires forall i :: 0 <= i < |items| ==> Shape(items[i])
    ensures AnyTooLarge(items) ==> Stuck(RenderItems(items, true)) && Stuck(RenderItems(items, false))
    ensures !AnyTooLarge(items) ==> Even(RenderItems(items, true)) && Even(RenderItems(items, false))
    decreases items, 0
  {
    hide Scan, Even, Stuck, Render, Shape;
    if items == [] {
      EvenNothing();
    } else {
      DocScan(items[0]);
      ItemsScanAll(items[1..]);
      Join(Render(items[0]), RenderItems(items[1..], false));
    }
  }

  lemma EvenNothing()
    ensures Even("")
  {
  }

  /** A first piece and the rest, with or without a comma in front. */
  lemma Join(head: string, tail: string)
    requires (Even(head) || Stuck(head)) && (Even(tail) || Stuck(tail))
    ensures Even(head) && Even(tail) ==> Even(head + tail) && Even("," + (head + tail))
    ensures Stuck(head) || Stuck(tail) ==> Stuck(head + tail) && Stuck("," + (head + tail))
  {
    EvenPlainText(",");
    hide Even, Stuck;
    if Even(head) && Even(tail) {
      EvenConcat(head, tail);
      EvenConcat(",", head + tail);
    }
    if Stuck(head) || Stuck(tail) {
      StuckConcat(head, tail);
      StuckConcat(",", head + tail);
    }
  }

  lemma {:induction false} EntryScan(e: DEntry)
    requires Shape(e.value)
    ensures if EntryTooLarge(e) then Stuck(RenderEntry(e)) else Even(RenderEntry(e))
    decreases e, 3
  {
    hide Scan, Even, Stuck, Render, Quote;
    DocScan(e.value);
    if e.key.Some? {
      EvenQuote(e.key.value);
      EvenPlainText(":");
      EvenConcat(Quote(e.key.value), ":");
      if HasTooLarge(e.value) {
        StuckConcat(Quote(e.key.value) + ":", Render(e.value));
      } else {
        EvenConcat(Quote(e.key.value) + ":", Render(e.value));
      }
    } else {
      assert "" + Render(e.value) == Render(e.value);
    }
  }

  lemma {:induction false} EntriesScanAll(entries: seq<DEntry>)
    requires forall i :: 0 <= i < |entries| ==> Shape(entries[i].value)
    ensures AnyEntryTooLarge(entries) ==> Stuck(RenderEntries(entries, true)) && Stuck(RenderEntries(entries, false))
    ensures !AnyEntryTooLarge(entries) ==> Even(RenderEntries(entries, true)) && Even(RenderEntries(entries, false))
    decreases entries, 0
  {
    hide Scan, Even, Stuck, RenderEntry, EntryTooLarge, Shape;
    if entries == [] {
      EvenNothing();
    } else {
      EntryScan(entries[0]);
      EntriesScanAll(entries[1..]);
      Join(RenderEntry(entries[0]), RenderEntries(entries[1..], false));
    }
  }
}
