/** What the visited set does on graphs with cycles and with sharing. */
module ZvalCycles {
  import opened Seqs
  import opened Zval

  // ----- addresses in the value graph and in the document -----

  /** The sub-document at an address, a list of child positions. */
  function DocAt(d: Doc, addr: seq<nat>): Option<Doc>
    decreases |addr|
  {
    if addr == [] then Some(d)
    else
      match d
      case DList(items, _) => if addr[0] < |items| then DocAt(items[addr[0]], addr[1..]) else None
      case DMap(entries, _) => if addr[0] < |entries| then DocAt(entries[addr[0]].value, addr[1..]) else None
      case _ => None
  }

  /** The value at the same address of the graph, following table entries only. */
  function ValueAt(g: Graph, v: Zval, addr: seq<nat>): Option<Zval>
    decreases |addr|
  {
    if addr == [] then Some(v)
    else if v.ZArray? && addr[0] < |Table(g, v.id)| then ValueAt(g, Table(g, v.id)[addr[0]].value, addr[1..])
    else None
  }

  /** The tables passed on the way down, not counting the value reached. */
  function TablesAbove(g: Graph, v: Zval, addr: seq<nat>): set<nat>
    decreases |addr|
  {
    if addr == [] || !v.ZArray? || addr[0] >= |Table(g, v.id)| then {}
    else {v.id} + TablesAbove(g, Table(g, v.id)[addr[0]].value, addr[1..])
  }

  /** One step down: only an expanded table has children in the document. */
  lemma ViewChild(g: Graph, v: Zval, path: set<nat>, depth: nat, addr: seq<nat>)
    requires depth <= MAX_DEPTH + 1 && addr != [] && DocAt(View(g, v, path, depth), addr).Some?
    ensures v.ZArray? && depth <= MAX_DEPTH && addr[0] < |Shown(Table(g, v.id))|
    ensures DocAt(View(g, v, path, depth), addr)
         == DocAt(View(g, Shown(Table(g, v.id))[addr[0]].value, path + {v.id}, depth + 1), addr[1..])
  {
    hide LongText, DoubleText, ViewEntries;
    assert depth <= MAX_DEPTH && v.ZArray?;
    var entries := Table(g, v.id);
    var docs := ViewEntries(g, Shown(entries), path + {v.id}, depth + 1);
    ArrayView(g, v.id, path, depth);
    hide View;
    if IsAssoc(entries) {
      assert DocAt(DMap(docs, More(entries)), addr) == DocAt(docs[addr[0]].value, addr[1..]);
    } else {
      assert DocAt(DList(Values(docs), More(entries)), addr) == DocAt(docs[addr[0]].value, addr[1..]);
    }
  }

  lemma {:induction false} ArrayView(g: Graph, id: nat, path: set<nat>, depth: nat)
    requires depth <= MAX_DEPTH
    ensures View(g, ZArray(id), path, depth) ==
              var entries := Table(g, id);
              if |entries| > MAX_ELEMENTS then DTooLarge(|entries|)
              else if id in path then DCircular
              else
                var docs := ViewEntries(g, Shown(entries), path + {id}, depth + 1);
                if IsAssoc(entries) then DMap(docs, More(entries)) else DList(Values(docs), More(entries))
  {
    hide ViewEntries;
  }

  /** Each printed node is the view of the value at its address, with the tables above it on the path. */
  lemma {:induction false} ViewAt(g: Graph, v: Zval, path: set<nat>, depth: nat, addr: seq<nat>)
    requires depth <= MAX_DEPTH + 1 && DocAt(View(g, v, path, depth), addr).Some?
    ensures ValueAt(g, v, addr).Some? && depth + |addr| <= MAX_DEPTH + 1
    ensures DocAt(View(g, v, path, depth), addr).value
         == View(g, ValueAt(g, v, addr).value, path + TablesAbove(g, v, addr), depth + |addr|)
    decreases |addr|
  {
    hide View;
    if addr == [] {
      assert path + {} == path;
    } else {
      ViewChild(g, v, path, depth, addr);
      hide DocAt;
      var entries := Table(g, v.id);
      var child := Shown(entries)[addr[0]].value;
      assert child == entries[addr[0]].value;
      ViewAt(g, child, path + {v.id}, depth + 1, addr[1..]);
      assert path + TablesAbove(g, v, addr) == path + {v.id} + TablesAbove(g, child, addr[1..]);
    }
  }

  function Address(v: Zval): Option<nat> {
    match v
    case ZArray(id) => Some(id)
    case ZObject(id, _) => Some(id)
    case _ => None
  }

  /** A node is the circular-reference marker exactly when its value is a container
      already on the path from the root to it, unless the depth or size cap came first. */
  lemma {:induction false} CircularIffOnPath(g: Graph, v: Zval, addr: seq<nat>)
    requires DocAt(View(g, v, {}, 0), addr).Some?
    ensures ValueAt(g, v, addr).Some?
    ensures var here := ValueAt(g, v, addr).value;
            DocAt(View(g, v, {}, 0), addr).value.DCircular?
            <==> |addr| <= MAX_DEPTH
                 && !(here.ZArray? && |Table(g, here.id)| > MAX_ELEMENTS)
                 && Address(here).Some? && Address(here).value in TablesAbove(g, v, addr)
  {
    ViewAt(g, v, {}, 0, addr);
    assert {} + TablesAbove(g, v, addr) == TablesAbove(g, v, addr);
  }

  // ----- graphs without cycles -----

  /** `rank` falls along every edge between tables, and no table is also an object. */
  ghost predicate Ranked(g: Graph, rank: nat -> nat) {
    forall id, i :: id in g && 0 <= i < |g[id]| ==> EdgeOk(g, rank, id, g[id][i].value)
  }

  ghost predicate EdgeOk(g: Graph, rank: nat -> nat, id: nat, v: Zval) {
    && (v.ZArray? ==> rank(v.id) < rank(id))
    && (v.ZObject? ==> v.id !in g)
  }

  /** `View` without any visited set. */
  function Unfold(g: Graph, v: Zval, depth: nat): Doc
    decreases MAX_DEPTH + 1 - depth, 1
  {
    if depth > MAX_DEPTH then DTooDeep
    else
      match v
      case ZArray(id) =>
        var entries := Table(g, id);
        if |entries| > MAX_ELEMENTS then DTooLarge(|entries|)
        else
          var docs := UnfoldEntries(g, Shown(entries), depth + 1);
          if IsAssoc(entries) then DMap(docs, More(entries)) else DList(Values(docs), More(entries))
      case ZObject(_, class_) => DObject(class_, depth >= MAX_DEPTH - 2)
      case _ => View(g, v, {}, depth)
  }

  function UnfoldEntries(g: Graph, entries: seq<Entry>, depth: nat): (docs: seq<DEntry>)
    requires 0 < depth <= MAX_DEPTH + 1
    ensures |docs| == |entries|
    ensures forall i :: 0 <= i < |entries| ==> docs[i] == DEntry(entries[i].key, Unfold(g, entries[i].value, depth))
    decreases MAX_DEPTH + 1 - depth, 2, |entries|
  {
    if entries == [] then []
    else [DEntry(entries[0].key, Unfold(g, entries[0].value, depth))] + UnfoldEntries(g, entries[1..], depth)
  }

  /** On an acyclic graph sharing is invisible: the visited set never fires, and every
      shared table is written out in full at each of its places. */
  lemma {:induction false} SharingIsNotCircular(g: Graph, rank: nat -> nat, v: Zval, path: set<nat>, depth: nat)
    requires Ranked(g, rank) && depth <= MAX_DEPTH + 1 && path <= g.Keys
    requires v.ZArray? ==> forall id :: id in path ==> rank(v.id) < rank(id)
    requires v.ZObject? ==> v.id !in g
    ensures View(g, v, path, depth) == Unfold(g, v, depth)
    decreases MAX_DEPTH + 1 - depth, 0
  {
    hide View, Unfold, ViewEntries, UnfoldEntries, Shown, IsAssoc;
    if depth <= MAX_DEPTH && v.ZArray? {
      ArrayView(g, v.id, path, depth);
      ArrayUnfold(g, v.id, depth);
      var entries := Table(g, v.id);
      if |entries| <= MAX_ELEMENTS {
        assert v.id !in path;
        if v.id in g {
          ShownEdges(g, rank, v.id);
          EntriesUnfold(g, rank, v.id, Shown(entries), path + {v.id}, depth + 1);
        } else {
          NothingShown(g, path + {v.id}, depth + 1);
        }
      }
    } else {
      LeafUnfold(g, v, path, depth);
    }
  }

  lemma ShownEdges(g: Graph, rank: nat -> nat, id: nat)
    requires Ranked(g, rank) && id in g
    ensures var shown := Shown(Table(g, id)); forall i :: 0 <= i < |shown| ==> EdgeOk(g, rank, id, shown[i].value)
  {
    hide EdgeOk;
  }

  lemma {:induction false} NothingShown(g: Graph, path: set<nat>, depth: nat)
    requires 0 < depth <= MAX_DEPTH + 1
    ensures Shown([]) == [] && ViewEntries(g, [], path, depth) == UnfoldEntries(g, [], depth)
  {
  }

  /** Anything but a table within the depth limit. */
  lemma {:induction false} LeafUnfold(g: Graph, v: Zval, path: set<nat>, depth: nat)
    requires depth > MAX_DEPTH || !v.ZArray?
    requires v.ZObject? ==> v.id !in path
    ensures View(g, v, path, depth) == Unfold(g, v, depth)
  {
    hide LongText, DoubleText, ViewEntries, UnfoldEntries;
  }

  lemma {:induction false} ArrayUnfold(g: Graph, id: nat, depth: nat)
    requires depth <= MAX_DEPTH
    ensures Unfold(g, ZArray(id), depth) ==
              var entries := Table(g, id);
              if |entries| > MAX_ELEMENTS then DTooLarge(|entries|)
              else
                var docs := UnfoldEntries(g, Shown(entries), depth + 1);
                if IsAssoc(entries) then DMap(docs, More(entries)) else DList(Values(docs), More(entries))
  {
    hide UnfoldEntries;
  }

  lemma {:induction false} EntriesUnfold(g: Graph, rank: nat -> nat, id: nat, entries: seq<Entry>,
        path: set<nat>, depth: nat)
    requires Ranked(g, rank) && 0 < depth <= MAX_DEPTH + 1 && path <= g.Keys && id in g
    requires forall p :: p in path ==> rank(id) <= rank(p)
    requires forall i :: 0 <= i < |entries| ==> EdgeOk(g, rank, id, entries[i].value)
    ensures ViewEntries(g, entries, path, depth) == UnfoldEntries(g, entries, depth)
    decreases MAX_DEPTH + 1 - depth, 1
  {
    hide View, Unfold;
    forall i | 0 <= i < |entries|
      ensures View(g, entries[i].value, path, depth) == Unfold(g, entries[i].value, depth)
    {
      SharingIsNotCircular(g, rank, entries[i].value, path, depth);
    }
  }
}
