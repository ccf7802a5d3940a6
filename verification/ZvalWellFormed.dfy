/** The serializer's output is well-formed JSON exactly when the document is acceptable:
    no oversized table, no printed entry of a map without a string key, no broken number. */
module ZvalWellFormed {
  import opened Seqs
  import opened Json
  import opened JsonRoundTrip
  import opened JsonScan
  import opened Zval
  import opened ZvalJson
  import opened ZvalNumbers
  import opened ZvalScan
  import opened ZvalDefects
  import opened ZvalCycles

  // ----- every document `View` makes has the right shape -----

  lemma {:induction false} ViewShape(g: Graph, v: Zval, path: set<nat>, depth: nat)
    requires Sized(g) && depth <= MAX_DEPTH + 1
    ensures Shape(View(g, v, path, depth))
    decreases MAX_DEPTH + 1 - depth, 1
  {
    hide LongText, DoubleText, ValidNumber, BrokenNumber, ViewEntries;
    if depth <= MAX_DEPTH {
      match v {
        case ZLong(n) => LongTextIsValid(n);
        case ZDouble(d) => DoubleTextIsValidIff(d);
        case ZArray(id) =>
          var entries := Table(g, id);
          if |entries| <= MAX_ELEMENTS && id !in path {
            EntriesShape(g, Shown(entries), path + {id}, depth + 1);
            hide Shape;
            ArrayShape(entries, ViewEntries(g, Shown(entries), path + {id}, depth + 1));
          }
        case _ =>
      }
    }
  }

  lemma {:induction false} EntriesShape(g: Graph, entries: seq<Entry>, path: set<nat>, depth: nat)
    requires Sized(g) && 0 < depth <= MAX_DEPTH + 1
    ensures forall i :: 0 <= i < |entries| ==> Shape(ViewEntries(g, entries, path, depth)[i].value)
    decreases MAX_DEPTH + 1 - depth, 2
  {
    hide Shape, View;
    forall i | 0 <= i < |entries|
      ensures Shape(ViewEntries(g, entries, path, depth)[i].value)
    {
      ViewShape(g, entries[i].value, path, depth);
    }
  }

  lemma {:induction false} ArrayShape(entries: seq<Entry>, docs: seq<DEntry>)
    requires |docs| == |Shown(entries)| && forall i :: 0 <= i < |docs| ==> Shape(docs[i].value)
    ensures Shape(if IsAssoc(entries) then DMap(docs, More(entries)) else DList(Values(docs), More(entries)))
  {
  }

  // ----- the main results -----

  /** A rendered document is well-formed JSON exactly when it is acceptable, and then
      decoding gives the JSON value it stands for. */
  lemma {:induction false} RenderWellFormedIff(d: Doc)
    requires Shape(d)
    ensures WellFormed(Render(d)) <==> DocOk(d)
    ensures DocOk(d) ==> Decode(Render(d)) == Some(ToJson(d))
  {
    hide Render, ParseValue, ToJson, HasTooLarge, Scan;
    if DocOk(d) {
      RenderIsPrint(d);
      DecodePrint(ToJson(d));
    } else if HasTooLarge(d) {
      DocScan(d);
      if WellFormed(Render(d)) {
        WellFormedScan(Render(d));
      }
    } else {
      BadFails(d, "");
      assert Render(d) + "" == Render(d);
    }
  }

  /** What the value graph must be like where the serializer looks at it: ordinary doubles,
      tables of at most 1000 entries, and in an associative table string keys on all the
      entries shown. `path` holds the tables above `v`, which are not entered again. */
  predicate Acceptable(g: Graph, v: Zval, path: set<nat>, depth: nat)
    decreases MAX_DEPTH + 1 - depth
  {
    depth > MAX_DEPTH
    || match v
       case ZDouble(d) => d.Finite? && IntegerWidth(d.negative, d.micros) != 62
       case ZArray(id) =>
         var entries := Table(g, id);
         && |entries| <= MAX_ELEMENTS
         && (id in path
             || forall i :: 0 <= i < |Shown(entries)| ==>
                  && (IsAssoc(entries) ==> Shown(entries)[i].key.Some?)
                  && Acceptable(g, Shown(entries)[i].value, path + {id}, depth + 1))
       case _ => true
  }

  /** Anything but a table within the depth limit. */
  lemma {:induction false} LeafOkIff(g: Graph, v: Zval, path: set<nat>, depth: nat)
    requires depth > MAX_DEPTH || !v.ZArray?
    ensures DocOk(View(g, v, path, depth)) <==> Acceptable(g, v, path, depth)
  {
    hide LongText, DoubleText, ValidNumber, ViewEntries, Table, Shown, IsAssoc;
    match v {
      case ZLong(n) => LongTextIsValid(n);
      case ZDouble(d) => DoubleTextIsValidIff(d);
      case _ =>
    }
  }

  lemma {:induction false} ViewOkIff(g: Graph, v: Zval, path: set<nat>, depth: nat)
    requires depth <= MAX_DEPTH + 1
    ensures DocOk(View(g, v, path, depth)) <==> Acceptable(g, v, path, depth)
    decreases MAX_DEPTH + 1 - depth, 1
  {
    hide DocOk, Acceptable, View, ViewEntries, Shown;
    if depth > MAX_DEPTH || !v.ZArray? {
      LeafOkIff(g, v, path, depth);
    } else {
      var entries := Table(g, v.id);
      if |entries| <= MAX_ELEMENTS && v.id !in path {
        EntriesOkIff(g, Shown(entries), path + {v.id}, depth + 1);
      }
      TableOkIff(g, v.id, path, depth);
    }
  }

  /** One table, given the result for its entries. */
  lemma {:induction false} TableOkIff(g: Graph, id: nat, path: set<nat>, depth: nat)
    requires depth <= MAX_DEPTH
    requires var entries := Table(g, id);
             |entries| <= MAX_ELEMENTS && id !in path ==>
               var docs := ViewEntries(g, Shown(entries), path + {id}, depth + 1);
               forall i :: 0 <= i < |docs| ==>
                 (DocOk(docs[i].value) <==> Acceptable(g, Shown(entries)[i].value, path + {id}, depth + 1))
    ensures DocOk(View(g, ZArray(id), path, depth)) <==> Acceptable(g, ZArray(id), path, depth)
  {
    hide View, ViewEntries, Shown, IsAssoc;
    ArrayView(g, id, path, depth);
    var entries := Table(g, id);
    if |entries| <= MAX_ELEMENTS && id !in path {
      ArrayOkIff(entries, ViewEntries(g, Shown(entries), path + {id}, depth + 1));
    }
  }

  lemma {:induction false} EntriesOkIff(g: Graph, entries: seq<Entry>, path: set<nat>, depth: nat)
    requires 0 < depth <= MAX_DEPTH + 1
    ensures forall i :: 0 <= i < |entries| ==>
              (DocOk(ViewEntries(g, entries, path, depth)[i].value) <==> Acceptable(g, entries[i].value, path, depth))
    decreases MAX_DEPTH + 1 - depth, 2
  {
    hide DocOk, View, Acceptable;
    forall i | 0 <= i < |entries|
      ensures DocOk(ViewEntries(g, entries, path, depth)[i].value) <==> Acceptable(g, entries[i].value, path, depth)
    {
      ViewOkIff(g, entries[i].value, path, depth);
    }
  }

  lemma {:induction false} ArrayOkIff(entries: seq<Entry>, docs: seq<DEntry>)
    requires |docs| == |Shown(entries)| && forall i :: 0 <= i < |docs| ==> docs[i].key == Shown(entries)[i].key
    ensures DocOk(if IsAssoc(entries) then DMap(docs, More(entries)) else DList(Values(docs), More(entries)))
        <==> forall i :: 0 <= i < |docs| ==> (IsAssoc(entries) ==> Shown(entries)[i].key.Some?) && DocOk(docs[i].value)
  {
    hide IsAssoc, Shown;
    if IsAssoc(entries) {
      assert forall i :: 0 <= i < |docs| ==> (EntryOk(docs[i]) <==> docs[i].key.Some? && DocOk(docs[i].value));
    } else {
      assert forall i :: 0 <= i < |docs| ==> Values(docs)[i] == docs[i].value;
    }
  }

  /** For every value over any table graph, cyclic or not: what the serializer writes is
      well-formed exactly when no table it reaches exceeds 1000 entries, every entry it
      prints as an object member has a string key, and every double it reaches is finite
      with a sign and whole part of other than 62 characters. */
  lemma {:induction false} OutputWellFormedIff(g: Graph, v: Zval)
    requires Sized(g)
    ensures WellFormed(Render(View(g, v, {}, 0))) <==> Acceptable(g, v, {}, 0)
    ensures Acceptable(g, v, {}, 0) ==>
              DocOk(View(g, v, {}, 0)) && Decode(Render(View(g, v, {}, 0))) == Some(ToJson(View(g, v, {}, 0)))
  {
    hide View, Acceptable;
    ViewShape(g, v, {}, 0);
    ViewOkIff(g, v, {}, 0);
    RenderWellFormedIff(View(g, v, {}, 0));
  }

  /** A condition on the graph alone, whatever is reached: small tables, keys of one
      kind, and doubles whose text is a number. */
  ghost predicate Clean(g: Graph) {
    forall id :: id in g ==>
      && |g[id]| <= MAX_ELEMENTS
      && ((forall i :: 0 <= i < |g[id]| ==> g[id][i].key.Some?) ||
            (forall i :: 0 <= i < |g[id]| ==> g[id][i].key.None?))
      && (forall i :: 0 <= i < |g[id]| ==> CleanValue(g[id][i].value))
  }

  predicate CleanValue(v: Zval) {
    v.ZDouble? ==> v.d.Finite? && IntegerWidth(v.d.negative, v.d.micros) != 62
  }

  lemma {:induction false} CleanViewOk(g: Graph, v: Zval, path: set<nat>, depth: nat)
    requires Clean(g) && CleanValue(v) && depth <= MAX_DEPTH + 1
    ensures DocOk(View(g, v, path, depth))
    decreases MAX_DEPTH + 1 - depth, 1
  {
    hide LongText, DoubleText, ValidNumber, ViewEntries;
    if depth <= MAX_DEPTH {
      match v {
        case ZLong(n) => LongTextIsValid(n);
        case ZDouble(d) => DoubleTextIsValidIff(d);
        case ZArray(id) =>
          var entries := Table(g, id);
          if id !in path {
            CleanEntriesOk(g, Shown(entries), path + {id}, depth + 1);
            hide DocOk, Clean;
            CleanArrayOk(entries, ViewEntries(g, Shown(entries), path + {id}, depth + 1));
          }
        case _ =>
      }
    }
  }

  lemma {:induction false} CleanEntriesOk(g: Graph, entries: seq<Entry>, path: set<nat>, depth: nat)
    requires Clean(g) && 0 < depth <= MAX_DEPTH + 1
    requires forall i :: 0 <= i < |entries| ==> CleanValue(entries[i].value)
    ensures forall i :: 0 <= i < |entries| ==> DocOk(ViewEntries(g, entries, path, depth)[i].value)
    decreases MAX_DEPTH + 1 - depth, 2
  {
    hide DocOk, View, Clean;
    forall i | 0 <= i < |entries|
      ensures DocOk(ViewEntries(g, entries, path, depth)[i].value)
    {
      CleanViewOk(g, entries[i].value, path, depth);
    }
  }

  lemma {:induction false} CleanArrayOk(entries: seq<Entry>, docs: seq<DEntry>)
    requires (forall i :: 0 <= i < |entries| ==> entries[i].key.Some?) ||
               (forall i :: 0 <= i < |entries| ==> entries[i].key.None?)
    requires |docs| == |Shown(entries)|
    requires forall i :: 0 <= i < |docs| ==> DocOk(docs[i].value) && docs[i].key == Shown(entries)[i].key
    ensures DocOk(if IsAssoc(entries) then DMap(docs, More(entries)) else DList(Values(docs), More(entries)))
  {
  }

  /** Over a clean graph the output is always well-formed, despite every cap and marker. */
  lemma {:induction false} CleanOutputWellFormed(g: Graph, v: Zval)
    requires Clean(g) && CleanValue(v)
    ensures WellFormed(Render(View(g, v, {}, 0)))
  {
    hide View, Acceptable, DocOk, Decode;
    CleanViewOk(g, v, {}, 0);
    ViewOkIff(g, v, {}, 0);
    OutputWellFormedIff(g, v);
  }
}
