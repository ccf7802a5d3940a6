/** What a receiver is told of a value, wherever in the graph it stands: the meaning of the
    serializer's output in terms of the value itself. */
module ZvalMeaning {
  import opened Seqs
  import opened Json
  import opened Zval
  import opened ZvalJson
  import opened ZvalNumbers
  import opened ZvalCycles
  import opened ZvalWellFormed
  import opened Numerals

  /** A text that announces a number. */
  predicate Announces(s: string, before: string, n: nat, after: string) {
    && |before| + |after| <= |s| && s[..|before|] == before && s[|s| - |after|..] == after
    && ReadDecimal(s[|before|..|s| - |after|]) == Whole(n)
  }

  predicate NumberIs(j: Json, n: int) { j.Num? && ReadDecimal(j.text) == Whole(n) }

  predicate DoubleIs(j: Json, d: Double) {
    j.Num? && d.Finite? && DoubleReads(d.negative, d.micros, ReadDecimal(j.text))
  }

  /** A value without parts. */
  predicate Scalar(v: Zval) { v.ZNull? || v.ZBool? || v.ZLong? || v.ZDouble? || v.ZString? }

  predicate ScalarSays(v: Zval, j: Json)
    requires Scalar(v)
  {
    match v
    case ZNull => j == Null
    case ZBool(b) => j == Bool(b)
    case ZLong(n) => NumberIs(j, n as int)
    case ZDouble(d) => DoubleIs(j, d)
    case ZString(s) => j == Str(s)
  }

  function ObjectSays(class_: Option<string>, deep: bool): Json {
    Obj([Member("_type", Str("object"))]
        + (if class_.Some? then [Member("_class", Str(class_.value))] else [])
        + [if deep then Member("_value", Str("Object (depth limit)")) else Member("_properties", Obj([]))])
  }

  /** What is said of `v` below the tables of `path`. */
  predicate Says(g: Graph, v: Zval, path: set<nat>, depth: nat, j: Json)
    decreases 11 - depth, 1
  {
    if depth > 10 then j == Str("... (max depth reached)")
    else if Scalar(v) then ScalarSays(v, j)
    else
      match v
      case ZArray(id) =>
        var entries := Table(g, id);
        if id in path then j == Str("... (circular reference)")
        else if exists i :: 0 <= i < |entries| && entries[i].key.Some? then
          j.Obj? && SaysMembers(g, entries, path + {id}, depth + 1, j.members)
        else j.Arr? && SaysItems(g, entries, path + {id}, depth + 1, j.items)
      case ZObject(id, class_) =>
        if id in path then j == Str("... (circular reference)") else j == ObjectSays(class_, depth >= 8)
      case ZResource(kind) => j == Obj([Member("_type", Str("resource")), Member("_value", Str(kind + " resource"))])
      case _ => j == Str("... (unsupported type)")
  }

  /** The first 100 elements in order, and how many more there are. */
  predicate SaysItems(g: Graph, entries: seq<Entry>, path: set<nat>, depth: nat, items: seq<Json>)
    requires depth <= 11
    decreases 11 - depth, 2
  {
    && |items| == (if |entries| > 100 then 101 else |entries|)
    && (forall i :: 0 <= i < |entries| && i < 100 ==> Says(g, entries[i].value, path, depth, items[i]))
    && (|entries| > 100 ==>
          items[100].Str? && Announces(items[100].s, "... (truncated, ", |entries| - 100, " more)"))
  }

  predicate SaysMembers(g: Graph, entries: seq<Entry>, path: set<nat>, depth: nat, members: seq<Member>)
    requires depth <= 11
    decreases 11 - depth, 2
  {
    && |members| == (if |entries| > 100 then 101 else |entries|)
    && (forall i :: 0 <= i < |entries| && i < 100 ==>
          Some(members[i].name) == entries[i].key && Says(g, entries[i].value, path, depth, members[i].value))
    && (|entries| > 100 ==>
          && members[100].name == "..." && members[100].value.Str?
          && Announces(members[100].value.s, "(truncated, ", |entries| - 100, " more)"))
  }

  // ----- the serializer's output says what it should -----

  lemma {:induction false} AnnouncedBy(before: string, n: nat, after: string)
    ensures Announces(before + Dec(n) + after, before, n, after)
  {
    hide Dec, ReadDecimal;
    SignedValue(n);
    var s := before + Dec(n) + after;
    assert s[|before|..|s| - |after|] == Dec(n);
  }

  lemma {:induction false} ScalarMeaning(g: Graph, v: Zval, path: set<nat>, depth: nat)
    requires depth <= 10 && Scalar(v) && DocOk(View(g, v, path, depth))
    ensures ScalarSays(v, ToJson(View(g, v, path, depth)))
  {
    hide LongText, DoubleText, ValidNumber, ReadDecimal, DoubleReads, Whole;
    match v {
      case ZLong(n) => LongValue(n);
      case ZDouble(d) =>
        DoubleTextIsValidIff(d);
        DoubleValue(d.negative, d.micros);
      case _ =>
    }
  }

  /** Anything but a table within the depth limit. */
  lemma {:induction false} LeafMeaning(g: Graph, v: Zval, path: set<nat>, depth: nat)
    requires depth > 10 || !v.ZArray?
    requires DocOk(View(g, v, path, depth))
    ensures Says(g, v, path, depth, ToJson(View(g, v, path, depth)))
  {
    if depth <= 10 && Scalar(v) {
      hide View, ToJson;
      ScalarMeaning(g, v, path, depth);
    } else {
      hide ScalarSays, ViewEntries, Table, SaysItems, SaysMembers, ToItems, ToMembers;
    }
  }

  lemma {:induction false} ValueMeaning(g: Graph, v: Zval, path: set<nat>, depth: nat)
    requires depth <= 11 && DocOk(View(g, v, path, depth))
    ensures Says(g, v, path, depth, ToJson(View(g, v, path, depth)))
    decreases 11 - depth, 1
  {
    hide DocOk, View, ViewEntries, Shown, Says, ToJson;
    if depth > 10 || !v.ZArray? {
      LeafMeaning(g, v, path, depth);
    } else {
      var entries := Table(g, v.id);
      ArrayView(g, v.id, path, depth);
      if |entries| <= MAX_ELEMENTS && v.id !in path {
        EntriesMeaning(g, Shown(entries), path + {v.id}, depth + 1);
      }
      TableMeaning(g, v.id, path, depth);
    }
  }

  lemma {:induction false} EntriesMeaning(g: Graph, entries: seq<Entry>, path: set<nat>, depth: nat)
    requires 0 < depth <= 11
    ensures var docs := ViewEntries(g, entries, path, depth);
            forall i :: 0 <= i < |entries| && DocOk(docs[i].value) ==>
              Says(g, entries[i].value, path, depth, ToJson(docs[i].value))
    decreases 11 - depth, 2
  {
    hide DocOk, View, Says, ToJson;
    var docs := ViewEntries(g, entries, path, depth);
    forall i | 0 <= i < |entries| && DocOk(docs[i].value)
      ensures Says(g, entries[i].value, path, depth, ToJson(docs[i].value))
    {
      ValueMeaning(g, entries[i].value, path, depth);
    }
  }

  /** The elements shown of a table all say what they should. */
  ghost predicate ShownMeaning(g: Graph, entries: seq<Entry>, path: set<nat>, depth: nat, docs: seq<DEntry>) {
    && |docs| == |Shown(entries)|
    && forall i :: 0 <= i < |docs| ==>
         && DocOk(docs[i].value) && docs[i].key == entries[i].key
         && Says(g, entries[i].value, path, depth, ToJson(docs[i].value))
  }

  lemma {:induction false} ListMeaning(g: Graph, entries: seq<Entry>, path: set<nat>, depth: nat, docs: seq<DEntry>)
    requires depth <= 11 && ShownMeaning(g, entries, path, depth, docs)
    ensures DocOk(DList(Values(docs), More(entries)))
    ensures var j := ToJson(DList(Values(docs), More(entries)));
            j.Arr? && SaysItems(g, entries, path, depth, j.items)
  {
    hide Says, ToItems, Dec, Announces;
    var items := Values(docs);
    assert forall i :: 0 <= i < |items| ==> DocOk(items[i]);
    ItemsValues(items);
    hide DocOk;
    if |entries| > 100 {
      AnnouncedBy("... (truncated, ", |entries| - 100, " more)");
    }
  }

  lemma {:induction false} MapMeaning(g: Graph, entries: seq<Entry>, path: set<nat>, depth: nat, docs: seq<DEntry>)
    requires depth <= 11 && ShownMeaning(g, entries, path, depth, docs)
    requires DocOk(DMap(docs, More(entries)))
    ensures var j := ToJson(DMap(docs, More(entries)));
            j.Obj? && SaysMembers(g, entries, path, depth, j.members)
  {
    hide Says, ToMembers, Dec, Announces;
    assert forall i :: 0 <= i < |docs| ==> EntryOk(docs[i]);
    MembersIndexed(docs);
    hide DocOk;
    if |entries| > 100 {
      AnnouncedBy("(truncated, ", |entries| - 100, " more)");
    }
  }

  /** One table, given the meaning of its entries. */
  lemma {:induction false} TableMeaning(g: Graph, id: nat, path: set<nat>, depth: nat)
    requires depth <= 10 && DocOk(View(g, ZArray(id), path, depth))
    requires var entries := Table(g, id);
             |entries| <= MAX_ELEMENTS && id !in path ==>
               var docs := ViewEntries(g, Shown(entries), path + {id}, depth + 1);
               forall i :: 0 <= i < |docs| && DocOk(docs[i].value) ==>
                 Says(g, Shown(entries)[i].value, path + {id}, depth + 1, ToJson(docs[i].value))
    ensures Says(g, ZArray(id), path, depth, ToJson(View(g, ZArray(id), path, depth)))
  {
    hide View, ViewEntries, SaysItems, SaysMembers, ToItems, ToMembers;
    ArrayView(g, id, path, depth);
    var entries := Table(g, id);
    if |entries| <= MAX_ELEMENTS && id !in path {
      var docs := ViewEntries(g, Shown(entries), path + {id}, depth + 1);
      if IsAssoc(entries) {
        assert forall i :: 0 <= i < |docs| ==> EntryOk(docs[i]);
        MapMeaning(g, entries, path + {id}, depth + 1, docs);
      } else {
        assert forall i :: 0 <= i < |docs| ==> DocOk(Values(docs)[i]);
        ListMeaning(g, entries, path + {id}, depth + 1, docs);
      }
    }
  }

  /** For every value over any table graph, cyclic or not: acceptable output decodes to a
      value that says of each part what it is, number by number and text by text, or which
      limit or cycle it met. */
  lemma {:induction false} OutputMeaning(g: Graph, v: Zval)
    requires Sized(g) && Acceptable(g, v, {}, 0)
    ensures var output := Decode(Render(View(g, v, {}, 0))); output.Some? && Says(g, v, {}, 0, output.value)
  {
    hide View, Acceptable, Says, Decode, Render, ToJson, DocOk;
    OutputWellFormedIff(g, v);
    ValueMeaning(g, v, {}, 0);
  }

  // ----- what stands where the output is not JSON -----

  lemma PlainWords()
    ensures Plain("_type") && Plain("array") && Plain("_count") && Plain("_value")
    ensures Plain("Array too large (truncated)")
  {
  }

  /** The placeholder names the number of elements, and is cut after 63 characters. */
  lemma {:induction false} PlaceholderText(count: nat) returns (digits: string)
    requires count > 1000
    ensures AllDigits(digits) && DigitsValue(digits) == count
    ensures var q := "\"";
            var front := "{" + (q + "_type" + q) + ":" + (q + "array" + q) + "," + (q + "_count" + q) + ":" + digits;
            var full := front + "," + (q + "_value" + q) + ":" + (q + "Array too large (truncated)" + q) + "}";
            |full| > 63 && TooLargeText(count) == full[..63]
  {
    digits := Dec(count);
    DecValue(count);
    DecIntegral(count);
    PlainWords();
    hide Dec, DigitsValue, Quote, Plain;
    QuotePlain("_type");
    QuotePlain("array");
    QuotePlain("_count");
    QuotePlain("_value");
    QuotePlain("Array too large (truncated)");
    var type_, array_, count_ := Quote("_type"), Quote("array"), Quote("_count");
    var name, text := Quote("_value"), Quote("Array too large (truncated)");
    var front := "{" + type_ + ":" + array_ + "," + count_ + ":" + digits;
    assert "{" + (type_ + ":" + array_) + "," + count_ + ":" + digits == front;
    assert front + ("," + (name + ":" + text) + "}") == front + "," + name + ":" + text + "}";
  }

  /** A double that does not print as a number is one of three words, or ends in its point. */
  lemma {:induction false} BrokenDouble(d: Double) returns (digits: string)
    requires !ValidNumber(DoubleText(d))
    ensures d.Finite? ==> AllDigits(digits) && DigitsValue(digits) == d.micros / 1000000
    ensures DoubleText(d)
         == match d
            case Finite(negative, _) => (if negative then "-" else "") + digits + "."
            case Infinite(negative) => if negative then "-inf" else "inf"
            case NotANumber => "nan"
  {
    hide ValidNumber;
    DoubleTextIsValidIff(d);
    digits := "";
    if d.Finite? {
      digits := Dec(d.micros / 1000000);
      DecValue(d.micros / 1000000);
      DecIntegral(d.micros / 1000000);
      PaddedDigits(d.micros % 1000000, 6);
      hide Dec, Padded, DigitsValue, Integral;
      CutAtPoint(if d.negative then "-" else "", digits, Padded(d.micros % 1000000, 6));
    }
  }

  lemma CutAtPoint(sign: string, s: string, f: string)
    requires |sign| + |s| == 62 && |f| > 0
    ensures Fit64(sign + s + "." + f) == sign + s + "."
  {
    assert (sign + s + "." + f)[..63] == sign + s + ".";
  }
}
