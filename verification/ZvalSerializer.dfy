/** The recursive serializer: it appends to a buffer and keeps the set of tables on the
    current path, inserting around each recursion and removing afterwards. */
module ZvalSerializer {
  import opened Seqs
  import opened Json
  import opened Zval

  class Serializer {
    var buf: string
    var visited: set<nat>

    constructor ()
      ensures buf == "" && visited == {}
    {
      buf, visited := "", {};
    }

    /** The serializer's own escaper. */
    method JsonEscapeString(str: string)
      modifies this`buf
      ensures buf == old(buf) + Escape(str)
    {
      ghost var before := buf;
      for i := 0 to |str|
        invariant buf + Escape(str[i..]) == before + Escape(str)
      {
        EscapeStep(buf, str, i);
        AppendEscapedChar(str[i]);
      }
    }

    /** One turn of the escaper's switch. */
    method AppendEscapedChar(c: char)
      modifies this`buf
      ensures buf == old(buf) + EscapeChar(c)
    {
      if c == '"' {
        buf := buf + "\\\"";
      } else if c == '\\' {
        buf := buf + "\\\\";
      } else if c == BS {
        buf := buf + "\\b";
      } else if c == FF {
        buf := buf + "\\f";
      } else if c == '\n' {
        buf := buf + "\\n";
      } else if c == '\r' {
        buf := buf + "\\r";
      } else if c == '\t' {
        buf := buf + "\\t";
      } else if c < ' ' {
        buf := buf + ("\\u00" + [HexDigit(c as int / 16), HexDigit(c as int % 16)]);
      } else {
        buf := buf + [c];
      }
    }

    method AppendQuoted(s: string)
      modifies this`buf
      ensures buf == old(buf) + Quote(s)
    {
      hide Escape;
      ghost var start := buf;
      buf := buf + "\"";
      JsonEscapeString(s);
      buf := buf + "\"";
      assert buf == start + Quote(s);
    }

    method AppendKey(key: Option<string>)
      modifies this`buf
      ensures buf == old(buf) + if key.Some? then Quote(key.value) + ":" else ""
    {
      hide Quote;
      if key.Some? {
        ghost var start := buf;
        AppendQuoted(key.value);
        buf := buf + ":";
        assert buf == start + (Quote(key.value) + ":");
      }
    }

    /** Appends the text of `zv`, starting with no table on the path. */
    method SerializeZvalJson(g: Graph, zv: Zval)
      modifies this
      ensures buf == old(buf) + Render(View(g, zv, {}, 0))
      ensures visited == {}
    {
      visited := {};
      SerializeRecursive(g, zv, 0);
    }

    /** On entry `visited` is the set of tables on the path; it is restored on return. */
    method SerializeRecursive(g: Graph, zv: Zval, depth: nat)
      requires depth <= MAX_DEPTH + 1
      modifies this
      ensures buf == old(buf) + Render(View(g, zv, old(visited), depth))
      ensures visited == old(visited)
      decreases MAX_DEPTH + 1 - depth, 2
    {
      hide Dec, Escape, Fit64, TooLargeText, ObjectText, ResourceText, LongText, DoubleText, ListMore, MapMore;
      if depth > MAX_DEPTH {
        buf := buf + Quote(TOO_DEEP);
        return;
      }
      match zv
      case ZNull => buf := buf + "null";
      case ZBool(b) => buf := buf + if b then "true" else "false";
      case ZLong(n) => buf := buf + LongText(n);
      case ZDouble(d) => buf := buf + DoubleText(d);
      case ZString(s) => AppendQuoted(s);
      case ZArray(id) => SerializeArray(g, id, depth);
      case ZObject(id, class_) => SerializeObject(id, class_, depth);
      case ZResource(kind) => buf := buf + ResourceText(kind);
      case ZOther => buf := buf + Quote(UNSUPPORTED);
    }

    method SerializeArray(g: Graph, id: nat, depth: nat)
      requires depth <= MAX_DEPTH
      modifies this
      ensures buf == old(buf) + Render(View(g, ZArray(id), old(visited), depth))
      ensures visited == old(visited)
      decreases MAX_DEPTH + 1 - depth, 1
    {
      hide Dec, Escape, Fit64, TooLargeText, ObjectText, ResourceText, LongText, DoubleText, ListMore, MapMore;
      var entries := Table(g, id);
      if |entries| > MAX_ELEMENTS {
        buf := buf + TooLargeText(|entries|);
        return;
      }
      if id in visited {
        buf := buf + Quote(CIRCULAR);
        return;
      }
      visited := visited + {id};
      var isAssoc := false;
      for n := 0 to |entries|
        invariant !isAssoc && forall i :: 0 <= i < n ==> entries[i].key.None?
      {
        if entries[n].key.Some? {
          isAssoc := true;
          break;
        }
      }
      if isAssoc {
        SerializeMap(g, entries, depth);
      } else {
        SerializeList(g, entries, depth);
      }
      visited := visited - {id};
    }

    method SerializeMap(g: Graph, entries: seq<Entry>, depth: nat)
      requires depth <= MAX_DEPTH
      modifies this
      ensures buf == old(buf) + Render(DMap(ViewEntries(g, Shown(entries), old(visited), depth + 1), More(entries)))
      ensures visited == old(visited)
      decreases MAX_DEPTH + 1 - depth, 0, 1
    {
      hide View, ViewEntries, RenderEntries, ListMore, MapMore;
      ghost var start, docs := buf, ViewEntries(g, Shown(entries), visited, depth + 1);
      buf := buf + "{";
      SerializeEntries(g, entries, depth);
      MapText(start, docs, More(entries));
      if |entries| > MAX_ITEMS {
        buf := buf + MapMore(Some(|entries| - MAX_ITEMS));
      }
      buf := buf + "}";
    }

    /** The loop over at most `MAX_ITEMS` entries, keys included. */
    method SerializeEntries(g: Graph, entries: seq<Entry>, depth: nat)
      requires depth <= MAX_DEPTH
      modifies this
      ensures buf == old(buf) + RenderEntries(ViewEntries(g, Shown(entries), old(visited), depth + 1), true)
      ensures visited == old(visited)
      decreases MAX_DEPTH + 1 - depth, 0, 0
    {
      hide Quote, Render, View, ViewEntries, RenderEntries, RenderEntry;
      ghost var docs := ViewEntries(g, Shown(entries), visited, depth + 1);
      ghost var total := buf + RenderEntries(docs, true);
      var first, n := true, 0;
      while n < |entries| && n < MAX_ITEMS
        invariant n <= |docs| && first == (n == 0)
        invariant visited == old(visited)
        invariant buf + RenderEntries(docs[n..], first) == total
      {
        EntriesStep(buf, docs, n, first);
        ghost var rest := RenderEntries(docs[n + 1..], false);
        ghost var key := if entries[n].key.Some? then Quote(entries[n].key.value) + ":" else "";
        ghost var before := buf + (if first then "" else ",") + key;
        if !first {
          buf := buf + ",";
        }
        AppendKey(entries[n].key);
        assert buf == before;
        SerializeRecursive(g, entries[n].value, depth + 1);
        assert buf + rest == total;
        first, n := false, n + 1;
      }
      assert docs[n..] == [];
      NothingRendered(first);
    }

    method SerializeList(g: Graph, entries: seq<Entry>, depth: nat)
      requires depth <= MAX_DEPTH
      modifies this
      ensures buf == old(buf) +
                Render(DList(Values(ViewEntries(g, Shown(entries), old(visited), depth + 1)), More(entries)))
      ensures visited == old(visited)
      decreases MAX_DEPTH + 1 - depth, 0, 1
    {
      hide View, ViewEntries, RenderItems, ListMore, MapMore;
      ghost var start, docs := buf, Values(ViewEntries(g, Shown(entries), visited, depth + 1));
      buf := buf + "[";
      SerializeItems(g, entries, depth);
      ListText(start, docs, More(entries));
      if |entries| > MAX_ITEMS {
        buf := buf + ListMore(Some(|entries| - MAX_ITEMS));
      }
      buf := buf + "]";
    }

    method SerializeItems(g: Graph, entries: seq<Entry>, depth: nat)
      requires depth <= MAX_DEPTH
      modifies this
      ensures buf == old(buf) + RenderItems(Values(ViewEntries(g, Shown(entries), old(visited), depth + 1)), true)
      ensures visited == old(visited)
      decreases MAX_DEPTH + 1 - depth, 0, 0
    {
      hide Render, View, ViewEntries, RenderItems;
      ghost var docs := Values(ViewEntries(g, Shown(entries), visited, depth + 1));
      ghost var total := buf + RenderItems(docs, true);
      var first, n := true, 0;
      while n < |entries| && n < MAX_ITEMS
        invariant n <= |docs| && first == (n == 0)
        invariant visited == old(visited)
        invariant buf + RenderItems(docs[n..], first) == total
      {
        ItemsStep(buf, docs, n, first);
        ghost var rest := RenderItems(docs[n + 1..], false);
        ghost var before := buf + if first then "" else ",";
        if !first {
          buf := buf + ",";
        }
        assert buf == before;
        SerializeRecursive(g, entries[n].value, depth + 1);
        assert buf + rest == total;
        first, n := false, n + 1;
      }
      assert docs[n..] == [];
      NothingRendered(first);
    }

    method SerializeObject(id: nat, class_: Option<string>, depth: nat)
      requires depth <= MAX_DEPTH
      modifies this
      ensures buf == old(buf) + Render(View(map[], ZObject(id, class_), old(visited), depth))
      ensures visited == old(visited)
    {
      hide Escape, Quote, Render, Field;
      RenderObject(class_, depth >= MAX_DEPTH - 2);
      if id in visited {
        buf := buf + Quote(CIRCULAR);
        return;
      }
      visited := visited + {id};
      buf := buf + ("{" + Field("_type", "object"));
      if class_.Some? {
        buf := buf + ("," + Field("_class", class_.value));
      }
      if depth >= MAX_DEPTH - 2 {
        buf := buf + ("," + Field("_value", "Object (depth limit)"));
      } else {
        buf := buf + ("," + (Quote("_properties") + ":" + "{}"));
      }
      buf := buf + "}";
      visited := visited - {id};
    }
  }

  lemma {:induction false} MapText(start: string, docs: seq<DEntry>, more: Option<nat>)
    ensures start + Render(DMap(docs, more))
         == if more.Some? then start + "{" + RenderEntries(docs, true) + MapMore(more) + "}"
            else start + "{" + RenderEntries(docs, true) + "}"
  {
    hide RenderEntries, MapMore;
  }

  lemma {:induction false} ListText(start: string, docs: seq<Doc>, more: Option<nat>)
    ensures start + Render(DList(docs, more))
         == if more.Some? then start + "[" + RenderItems(docs, true) + ListMore(more) + "]"
            else start + "[" + RenderItems(docs, true) + "]"
  {
    hide RenderItems, ListMore;
  }

  lemma {:induction false} RenderObject(class_: Option<string>, deep: bool)
    ensures Render(DObject(class_, deep)) == ObjectText(class_, deep)
    ensures Render(DCircular) == Quote(CIRCULAR)
  {
  }

  lemma {:induction false} EntriesStep(buf: string, docs: seq<DEntry>, n: nat, first: bool)
    requires n < |docs|
    ensures buf + RenderEntries(docs[n..], first)
         == buf + (if first then "" else ",") + (if docs[n].key.Some? then Quote(docs[n].key.value) + ":" else "")
            + Render(docs[n].value) + RenderEntries(docs[n + 1..], false)
  {
    hide Render, Quote;
    assert docs[n..][0] == docs[n] && docs[n..][1..] == docs[n + 1..];
  }

  lemma {:induction false} ItemsStep(buf: string, docs: seq<Doc>, n: nat, first: bool)
    requires n < |docs|
    ensures buf + RenderItems(docs[n..], first)
         == buf + (if first then "" else ",") + Render(docs[n]) + RenderItems(docs[n + 1..], false)
  {
    hide Render, RenderEntry;
    assert docs[n..][0] == docs[n] && docs[n..][1..] == docs[n + 1..];
  }
}
