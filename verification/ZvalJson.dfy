/** When the serializer's output is JSON: the JSON value of a document, and the exact
    condition under which the rendered text parses. */
module ZvalJson {
  import opened Seqs
  import opened Json
  import opened Zval

  // ----- texts that escaping leaves alone -----

  predicate PlainChar(c: char) { c >= ' ' && c != '"' && c != '\\' }

  predicate Plain(s: string) { forall i :: 0 <= i < |s| ==> PlainChar(s[i]) }

  lemma {:induction false} EscapePlain(s: string)
    requires Plain(s)
    ensures Escape(s) == s
  {
    if s != "" {
      EscapePlain(s[1..]);
      assert [s[0]] + s[1..] == s;
    }
  }

  lemma QuotePlain(s: string)
    requires Plain(s)
    ensures Quote(s) == "\"" + s + "\""
  {
    EscapePlain(s);
  }

  lemma {:induction false} DecDigits(n: nat)
    ensures forall i :: 0 <= i < |Dec(n)| ==> IsDigit(Dec(n)[i])
    ensures |Dec(n)| > 0
    ensures Dec(n)[0] == '0' <==> n == 0
    ensures n == 0 ==> Dec(n) == "0"
    decreases n
  {
    if n >= 10 {
      DecDigits(n / 10);
    }
  }

  lemma LiteralsArePlain()
    ensures Plain("_type") && Plain("object") && Plain("_class") && Plain("_value") && Plain("Object (depth limit)")
    ensures Plain("_properties") && Plain("resource") && Plain(" resource")
  {
  }

  // ----- the JSON value of a document -----

  /** Nothing in the document breaks the grammar. */
  predicate DocOk(d: Doc)
    decreases d
  {
    match d
    case DNum(text) => ValidNumber(text)
    case DList(items, _) => forall i :: 0 <= i < |items| ==> DocOk(items[i])
    case DMap(entries, _) => forall i :: 0 <= i < |entries| ==> EntryOk(entries[i])
    case DTooLarge(_) => false
    case _ => true
  }

  predicate EntryOk(e: DEntry)
    decreases e
  {
    e.key.Some? && DocOk(e.value)
  }

  function ObjectMembers(class_: Option<string>, deep: bool): seq<Member> {
    [Member("_type", Str("object"))]
    + (if class_.Some? then [Member("_class", Str(class_.value))] else [])
    + (if deep then [Member("_value", Str("Object (depth limit)"))] else [Member("_properties", Obj([]))])
  }

  function ToJson(d: Doc): Json
    requires DocOk(d)
    decreases d, 1
  {
    match d
    case DNull => Null
    case DBool(b) => Bool(b)
    case DNum(text) => Num(text)
    case DStr(s) => Str(s)
    case DList(items, more) => Arr(ToItems(items) + if more.Some? then [Str(TruncatedItem(more.value))] else [])
    case DMap(entries, more) =>
      Obj(ToMembers(entries) + if more.Some? then [Member("...", Str(TruncatedValue(more.value)))] else [])
    case DObject(class_, deep) => Obj(ObjectMembers(class_, deep))
    case DResource(kind) => Obj([Member("_type", Str("resource")), Member("_value", Str(kind + " resource"))])
    case DCircular => Str(CIRCULAR)
    case DTooDeep => Str(TOO_DEEP)
    case DOther => Str(UNSUPPORTED)
  }

  function ToItems(items: seq<Doc>): (js: seq<Json>)
    requires forall i :: 0 <= i < |items| ==> DocOk(items[i])
    ensures |js| == |items|
    decreases items, 0
  {
    if items == [] then [] else [ToJson(items[0])] + ToItems(items[1..])
  }

  function ToMembers(entries: seq<DEntry>): (ms: seq<Member>)
    requires forall i :: 0 <= i < |entries| ==> EntryOk(entries[i])
    ensures |ms| == |entries|
    decreases entries, 0
  {
    if entries == [] then [] else [ToMember(entries[0])] + ToMembers(entries[1..])
  }

  function ToMember(e: DEntry): Member
    requires EntryOk(e)
    decreases e, 2
  {
    Member(e.key.value, ToJson(e.value))
  }

  lemma {:induction false} ItemsValues(docs: seq<Doc>)
    requires forall i :: 0 <= i < |docs| ==> DocOk(docs[i])
    ensures forall i :: 0 <= i < |docs| ==> ToItems(docs)[i] == ToJson(docs[i])
  {
    hide DocOk, ToJson;
    if docs != [] {
      ItemsValues(docs[1..]);
    }
  }

  lemma {:induction false} MembersIndexed(entries: seq<DEntry>)
    requires forall i :: 0 <= i < |entries| ==> EntryOk(entries[i])
    ensures forall i :: 0 <= i < |entries| ==> ToMembers(entries)[i] == ToMember(entries[i])
  {
    hide EntryOk, ToMember;
    if entries != [] {
      MembersIndexed(entries[1..]);
    }
  }

  /** What every document made by `View` satisfies. */
  predicate Shape(d: Doc)
    decreases d
  {
    match d
    case DNum(text) => ValidNumber(text) || BrokenNumber(text)
    case DList(items, more) => (more.Some? ==> items != []) && forall i :: 0 <= i < |items| ==> Shape(items[i])
    case DMap(entries, more) => entries != [] && forall i :: 0 <= i < |entries| ==> Shape(entries[i].value)
    case DTooLarge(count) => MAX_ELEMENTS < count < 0x1_0000_0000
    case _ => true
  }

  /** A non-finite double, or digits cut off right after the decimal point. */
  predicate BrokenNumber(text: string) {
    || text == "inf" || text == "-inf" || text == "nan"
    || ScanInt(if Starts(text, '-') then text[1..] else text) == Some(".")
  }

  // ----- rendering an acceptable document is printing its JSON value -----

  lemma PrintField(name: string, s: string)
    ensures PrintMember(Member(name, Str(s))) == Field(name, s)
  {
  }

  lemma {:induction false} PrintTwoMembers(a: Member, b: Member)
    ensures PrintMembers([a, b]) == PrintMember(a) + "," + PrintMember(b)
  {
    hide PrintMember;
    assert [a, b][1..] == [b];
    assert PrintMembers([b]) == PrintMember(b);
  }

  lemma ResourceIsObject(kind: string)
    ensures ResourceText(kind) == Print(ToJson(DResource(kind)))
  {
    hide Field, Quote, PrintMember;
    PrintField("_type", "resource");
    PrintField("_value", kind + " resource");
    PrintTwoMembers(Member("_type", Str("resource")), Member("_value", Str(kind + " resource")));
  }

  lemma {:induction false} ObjectIsObject(class_: Option<string>, deep: bool)
    ensures ObjectText(class_, deep) == Print(ToJson(DObject(class_, deep)))
  {
    hide Field, Quote, PrintMember;
    var a, b := Member("_type", Str("object")),
        if deep then Member("_value", Str("Object (depth limit)")) else Member("_properties", Obj([]));
    PrintField("_type", "object");
    PrintField("_value", "Object (depth limit)");
    PrintEmptyObject();
    PrintTwoMembers(a, b);
    if class_.Some? {
      var c := Member("_class", Str(class_.value));
      PrintField("_class", class_.value);
      PrintTwoMembers(c, b);
      assert ObjectMembers(class_, deep) == [a, c, b] && [a, c, b][1..] == [c, b];
      assert PrintMembers([a, c, b]) == PrintMember(a) + "," + PrintMembers([c, b]);
    } else {
      assert ObjectMembers(class_, deep) == [a, b];
    }
  }

  lemma PrintEmptyObject()
    ensures PrintMember(Member("_properties", Obj([]))) == Quote("_properties") + ":" + "{}"
  {
    hide Quote;
    assert PrintMembers([]) == "";
    assert "{" + "" + "}" == "{}";
  }

  lemma {:induction false} RenderIsPrint(d: Doc)
    requires DocOk(d) && Shape(d)
    ensures Render(d) == Print(ToJson(d)) && NumbersValid(ToJson(d))
    decreases d, 1
  {
    hide ObjectText, ResourceText, ListMore, MapMore, PrintItems, PrintMembers, RenderItems, RenderEntries, Dec, Escape;
    match d {
      case DList(items, more) => RenderListIsPrint(items, more);
      case DMap(entries, more) => RenderMapIsPrint(entries, more);
      case DObject(class_, deep) => ObjectIsObject(class_, deep);
      case DResource(kind) => ResourceIsObject(kind);
      case _ =>
    }
  }

  lemma {:induction false} RenderListIsPrint(items: seq<Doc>, more: Option<nat>)
    requires DocOk(DList(items, more)) && Shape(DList(items, more))
    ensures Render(DList(items, more)) == Print(ToJson(DList(items, more))) && NumbersValid(ToJson(DList(items, more)))
    decreases items, 1
  {
    RenderItemsIsPrint(items);
    hide RenderItems, PrintItems, Quote, ToItems, DocOk, Shape, NumbersValid;
    ListWithMore(ToItems(items), more);
  }

  lemma {:induction false} ListWithMore(js: seq<Json>, more: Option<nat>)
    requires more.Some? ==> js != []
    requires forall i :: 0 <= i < |js| ==> NumbersValid(js[i])
    ensures var all := js + if more.Some? then [Str(TruncatedItem(more.value))] else [];
            Print(Arr(all)) == "[" + PrintItems(js) + ListMore(more) + "]" && NumbersValid(Arr(all))
  {
    hide PrintItems, Quote, TruncatedItem;
    if more.Some? {
      var last := Str(TruncatedItem(more.value));
      PrintItemsSnoc(js, last);
      Regroup("[", PrintItems(js), "," + Print(last));
      assert forall i :: 0 <= i < |js| + 1 ==> NumbersValid((js + [last])[i]);
    } else {
      assert js + [] == js;
      assert "[" + PrintItems(js) + "" == "[" + PrintItems(js);
    }
  }

  lemma {:induction false} RenderMapIsPrint(entries: seq<DEntry>, more: Option<nat>)
    requires DocOk(DMap(entries, more)) && Shape(DMap(entries, more))
    ensures Render(DMap(entries, more)) == Print(ToJson(DMap(entries, more))) &&
              NumbersValid(ToJson(DMap(entries, more)))
    decreases entries, 1
  {
    RenderEntriesIsPrint(entries);
    hide RenderEntries, PrintMembers, ToMembers, EntryOk, Shape, NumbersValid;
    MapWithMore(ToMembers(entries), more);
  }

  lemma {:induction false} MapWithMore(ms: seq<Member>, more: Option<nat>)
    requires more.Some? ==> ms != []
    requires forall i :: 0 <= i < |ms| ==> NumbersValid(ms[i].value)
    ensures var all := ms + if more.Some? then [Member("...", Str(TruncatedValue(more.value)))] else [];
            Print(Obj(all)) == "{" + PrintMembers(ms) + MapMore(more) + "}" && NumbersValid(Obj(all))
  {
    hide PrintMembers, PrintMember, Field, TruncatedValue;
    if more.Some? {
      var last := Member("...", Str(TruncatedValue(more.value)));
      PrintField("...", TruncatedValue(more.value));
      PrintMembersSnoc(ms, last);
      Regroup("{", PrintMembers(ms), "," + PrintMember(last));
      NumbersSnoc(ms, last);
    } else {
      assert ms + [] == ms;
      assert "{" + PrintMembers(ms) + "" == "{" + PrintMembers(ms);
    }
  }

  lemma NumbersSnoc(ms: seq<Member>, last: Member)
    requires forall i :: 0 <= i < |ms| ==> NumbersValid(ms[i].value)
    requires NumbersValid(last.value)
    ensures NumbersValid(Obj(ms + [last]))
  {
  }

  lemma {:induction false} PrintItemsSnoc(items: seq<Json>, last: Json)
    requires items != []
    ensures PrintItems(items + [last]) == PrintItems(items) + ("," + Print(last))
  {
    hide Print;
    if |items| == 1 {
      assert (items + [last])[1..] == [last];
      assert PrintItems([last]) == Print(last);
    } else {
      PrintItemsSnoc(items[1..], last);
      assert (items + [last])[1..] == items[1..] + [last];
    }
  }

  lemma {:induction false} PrintMembersSnoc(members: seq<Member>, last: Member)
    requires members != []
    ensures PrintMembers(members + [last]) == PrintMembers(members) + ("," + PrintMember(last))
  {
    hide PrintMember;
    if |members| == 1 {
      assert (members + [last])[1..] == [last];
      assert PrintMembers([last]) == PrintMember(last);
    } else {
      PrintMembersSnoc(members[1..], last);
      assert (members + [last])[1..] == members[1..] + [last];
    }
  }

  lemma {:induction false} RenderItemsIsPrint(items: seq<Doc>)
    requires forall i :: 0 <= i < |items| ==> DocOk(items[i]) && Shape(items[i])
    ensures RenderItems(items, true) == PrintItems(ToItems(items))
    ensures items != [] ==> RenderItems(items, false) == "," + PrintItems(ToItems(items))
    ensures forall i :: 0 <= i < |items| ==> NumbersValid(ToItems(items)[i])
    decreases items, 0
  {
    if items != [] {
      RenderIsPrint(items[0]);
      RenderItemsIsPrint(items[1..]);
      hide Render, Print, ToJson, DocOk, Shape, NumbersValid, PrintItems, ToItems;
      ItemsUnfold(items);
    }
  }

  lemma {:induction false} ItemsUnfold(items: seq<Doc>)
    requires items != [] && forall i :: 0 <= i < |items| ==> DocOk(items[i])
    ensures var js := ToItems(items);
            && js[0] == ToJson(items[0]) && js[1..] == ToItems(items[1..])
            && PrintItems(js) == Print(js[0]) + if |js| == 1 then "" else "," + PrintItems(js[1..])
    ensures items[1..] == [] ==> RenderItems(items[1..], false) == ""
  {
    hide Render, Print, ToJson, DocOk, RenderItems, PrintItems;
    PrintItemsUnfold(ToItems(items));
    assert RenderItems([], false) == "" by { NothingRendered(false); }
  }

  lemma {:induction false} PrintItemsUnfold(js: seq<Json>)
    requires js != []
    ensures PrintItems(js) == Print(js[0]) + if |js| == 1 then "" else "," + PrintItems(js[1..])
  {
    hide Print;
  }

  lemma {:induction false} RenderEntryIsPrint(e: DEntry)
    requires EntryOk(e) && Shape(e.value)
    ensures RenderEntry(e) == PrintMember(ToMember(e)) && NumbersValid(ToMember(e).value)
    decreases e, 2
  {
    RenderIsPrint(e.value);
    hide Render, Print, ToJson, Quote;
    var q, v := Quote(e.key.value), Render(e.value);
    assert q + ":" + v == (q + ":") + v;
  }

  lemma {:induction false} RenderEntriesIsPrint(entries: seq<DEntry>)
    requires forall i :: 0 <= i < |entries| ==> EntryOk(entries[i]) && Shape(entries[i].value)
    ensures RenderEntries(entries, true) == PrintMembers(ToMembers(entries))
    ensures entries != [] ==> RenderEntries(entries, false) == "," + PrintMembers(ToMembers(entries))
    ensures forall i :: 0 <= i < |entries| ==> NumbersValid(ToMembers(entries)[i].value)
    decreases entries, 0
  {
    if entries != [] {
      RenderEntryIsPrint(entries[0]);
      var rest := entries[1..];
      assert forall i :: 0 <= i < |rest| ==> EntryOk(rest[i]) && Shape(rest[i].value);
      RenderEntriesIsPrint(rest);
      MembersUnfold(entries);
      hide RenderEntry, PrintMember, ToMember, EntryOk, Shape, NumbersValid, PrintMembers, ToMembers;
      var ms := ToMembers(entries);
      assert forall i :: 0 < i < |ms| ==> ms[i] == ms[1..][i - 1];
    }
  }

  lemma {:induction false} MembersUnfold(entries: seq<DEntry>)
    requires entries != [] && forall i :: 0 <= i < |entries| ==> EntryOk(entries[i])
    ensures var ms := ToMembers(entries);
            && ms[0] == ToMember(entries[0]) && ms[1..] == ToMembers(entries[1..])
            && PrintMembers(ms) == PrintMember(ms[0]) + if |ms| == 1 then "" else "," + PrintMembers(ms[1..])
    ensures entries[1..] == [] ==> RenderEntries(entries[1..], false) == ""
  {
    hide PrintMember, ToMember, EntryOk, PrintMembers, RenderEntries;
    PrintMembersUnfold(ToMembers(entries));
    assert RenderEntries([], false) == "" by { NothingRendered(false); }
  }

  lemma {:induction false} PrintMembersUnfold(ms: seq<Member>)
    requires ms != []
    ensures PrintMembers(ms) == PrintMember(ms[0]) + if |ms| == 1 then "" else "," + PrintMembers(ms[1..])
  {
    hide PrintMember;
  }
}
