/** The aggregates of the span: one JSON array of all operations of a kind, call by call. */
module Aggregate {
  import opened Seqs
  import opened Json
  import opened Lookup
  import opened Zval
  import opened ZvalSerializer
  import opened ZvalJson
  import opened ZvalNumbers
  import opened ZvalWellFormed
  import opened ZvalMeaning
  import opened Numerals
  import opened Buffer
  import opened CollectorSpec
  import opened Collector

  // ----- an operation as a value -----

  /** An operation is an array of its own; its entries hold no further tables. */
  function OpTables(op: Op): Graph { map[0 := op] }

  function OpDoc(op: Op): Doc { View(OpTables(op), ZArray(0), {}, 0) }

  lemma OpDocIs(op: Op)
    ensures OpDoc(op) == View(OpTables(op), ZArray(0), {}, 0)
  {
  }

  function OpDocs(ops: seq<Op>): (docs: seq<Doc>)
    ensures |docs| == |ops|
    ensures forall i :: 0 <= i < |ops| ==> docs[i] == OpDoc(ops[i])
  {
    if ops == [] then [] else [OpDoc(ops[0])] + OpDocs(ops[1..])
  }

  /** The text of an array of operations. */
  function AggregateText(ops: seq<Op>): string { Render(DList(OpDocs(ops), None)) }

  lemma OpTextNotEmpty(op: Op)
    ensures Render(OpDoc(op)) != ""
  {
    hide ViewEntries, RenderItems, RenderEntries, ListMore, MapMore, Dec, Quote;
  }

  // ----- the loop -----

  /** Appends one operation, serialized into a buffer of its own; the comma is written
      before, whether or not anything follows it. */
  method AppendOp(buf: JsonBuffer, op: Op, first: bool) returns (counted: bool)
    requires buf.Valid()
    modifies buf, buf.data
    ensures buf.Valid() && (buf.data == old(buf.data) || fresh(buf.data))
    ensures buf.Contents() == old(buf.Contents()) + (if first then "" else ",") + Render(OpDoc(op))
    ensures counted
  {
    hide OpDoc, Render, View;
    if !first {
      buf.Append(",");
    }
    var temp := new Serializer();
    temp.SerializeZvalJson(OpTables(op), ZArray(0));
    OpDocIs(op);
    assert "" + Render(OpDoc(op)) == Render(OpDoc(op)) == temp.buf;
    OpTextNotEmpty(op);
    counted := false;
    if |temp.buf| > 0 {
      buf.Append(temp.buf);
      counted := true;
    }
  }

  function NodeOps(call: CallNode, kind: Kind): (ops: seq<Op>)
    reads call
    ensures ops == OpsOf(call.Rec(), kind)
  {
    match kind
    case KSql => call.sqlQueries
    case KHttp => call.httpRequests
    case KCache => call.cacheOperations
    case KRedis => call.redisOperations
  }

  /** What is left to write after `n` operations. */
  function Rest(ops: seq<Op>, n: nat): string
    requires n <= |ops|
  {
    RenderItems(OpDocs(ops[n..]), n == 0)
  }

  lemma RestStep(before: string, ops: seq<Op>, n: nat)
    requires n < |ops|
    ensures before + Rest(ops, n)
         == (before + (if n == 0 then "" else ",") + Render(OpDoc(ops[n]))) + Rest(ops, n + 1)
  {
    hide Render, OpDoc;
    assert ops[n..][1..] == ops[n + 1..];
    var docs := OpDocs(ops[n..]);
    assert docs[1..] == OpDocs(ops[n + 1..]);
  }

  lemma RestNothing(before: string, ops: seq<Op>)
    ensures before + Rest(ops, |ops|) == before
  {
    assert ops[|ops|..] == [];
  }

  lemma {:induction false} AllOpsFrom(calls: seq<Call>, i: nat, kind: Kind)
    requires i < |calls|
    ensures AllOps(calls[i..], kind) == OpsOf(calls[i], kind) + AllOps(calls[i + 1..], kind)
  {
    assert calls[i..][1..] == calls[i + 1..];
  }

  /** `count` operations are written; the calls from position `i` on hold the others. */
  ghost predicate Progress(buf: JsonBuffer, recs: seq<Call>, i: nat, kind: Kind, ops: seq<Op>, count: nat,
        total: string)
    requires buf.Valid()
    reads buf, buf.data
  {
    && i <= |recs| && count <= |ops|
    && ops[count..] == AllOps(recs[i..], kind)
    && buf.Contents() + Rest(ops, count) == total
  }

  /** All operations of one kind, over the whole call list; returns how many. */
  method AggregateFromCalls(p: Profiler, buf: JsonBuffer, kind: Kind) returns (count: nat)
    requires p.Valid() && buf.Valid()
    modifies buf, buf.data
    ensures buf.Valid() && (buf.data == old(buf.data) || fresh(buf.data))
    ensures p.Valid() && Recs(p.list) == old(Recs(p.list))
    ensures buf.Contents() == old(buf.Contents()) + AggregateText(AllOps(Recs(p.list), kind))
    ensures count == |AllOps(Recs(p.list), kind)|
  {
    hide *;
    ghost var start := buf.Contents();
    buf.Append("[");
    count := AppendCalls(p, buf, kind);
    buf.Append("]");
    AggregateShape(start, AllOps(Recs(p.list), kind));
  }

  lemma NextCall(p: Profiler, i: nat)
    requires p.Valid() && i < |p.list|
    ensures p.list[i].next == if i + 1 < |p.list| then p.list[i + 1] else null
  {
  }

  lemma FirstCall(p: Profiler)
    requires p.Valid()
    ensures p.calls == if p.list == [] then null else p.list[0]
  {
  }

  /** The outer loop. */
  method AppendCalls(p: Profiler, buf: JsonBuffer, kind: Kind) returns (count: nat)
    requires p.Valid() && buf.Valid()
    modifies buf, buf.data
    ensures buf.Valid() && (buf.data == old(buf.data) || fresh(buf.data))
    ensures p.Valid() && Recs(p.list) == old(Recs(p.list))
    ensures buf.Contents() == old(buf.Contents()) + Rest(AllOps(Recs(p.list), kind), 0)
    ensures count == |AllOps(Recs(p.list), kind)|
  {
    hide Recs, Rest, AllOps, CallNode.Rec, Progress, Profiler.Valid, JsonBuffer.Valid, JsonBuffer.Contents;
    ghost var recs, i := Recs(p.list), 0;
    ghost var ops := AllOps(recs, kind);
    ghost var total := buf.Contents() + Rest(ops, 0);
    ProgressStarts(buf, recs, kind);
    FirstCall(p);
    count := 0;
    var call := p.calls;
    while call != null
      invariant p.Valid() && Recs(p.list) == recs
      invariant i <= |p.list| && call == if i < |p.list| then p.list[i] else null
      invariant buf.Valid() && (buf.data == old(buf.data) || fresh(buf.data))
      invariant Progress(buf, recs, i, kind, ops, count, total)
      decreases |p.list| - i
    {
      NextCall(p, i);
      count := AppendCall(p, buf, call, i, kind, ops, count, total);
      call, i := call.next, i + 1;
    }
    ProgressEnds(buf, recs, kind, ops, count, total);
  }

  lemma {:induction false} ProgressStarts(buf: JsonBuffer, recs: seq<Call>, kind: Kind)
    requires buf.Valid()
    ensures Progress(buf, recs, 0, kind, AllOps(recs, kind), 0, buf.Contents() + Rest(AllOps(recs, kind), 0))
  {
    assert recs[0..] == recs && AllOps(recs, kind)[0..] == AllOps(recs, kind);
  }

  lemma ProgressEnds(buf: JsonBuffer, recs: seq<Call>, kind: Kind, ops: seq<Op>, count: nat, total: string)
    requires buf.Valid() && Progress(buf, recs, |recs|, kind, ops, count, total)
    ensures count == |ops| && buf.Contents() == total
  {
    assert recs[|recs|..] == [];
    RestNothing(buf.Contents(), ops);
  }

  /** One turn of the outer loop. */
  method AppendCall(p: Profiler, buf: JsonBuffer, call: CallNode, ghost i: nat, kind: Kind, ghost ops: seq<Op>,
                    done: nat, ghost total: string) returns (count: nat)
    requires p.Valid() && i < |p.list| && p.list[i] == call && buf.Valid()
    requires Progress(buf, Recs(p.list), i, kind, ops, done, total)
    modifies buf, buf.data
    ensures p.Valid() && Recs(p.list) == old(Recs(p.list))
    ensures buf.Valid() && (buf.data == old(buf.data) || fresh(buf.data))
    ensures Progress(buf, Recs(p.list), i + 1, kind, ops, count, total)
  {
    hide Recs, Rest, AllOps, CallNode.Rec, Profiler.Valid, OpsOf;
    ghost var recs := Recs(p.list);
    var mine := NodeOps(call, kind);
    assert recs[i] == call.Rec();
    AllOpsFrom(recs, i, kind);
    count := done;
    if |mine| > 0 {
      count := AppendOps(buf, mine, ops, done, total);
    }
    assert ops[done + |mine|..] == ops[done..][|mine|..];
  }

  lemma AggregateShape(start: string, ops: seq<Op>)
    ensures start + "[" + Rest(ops, 0) + "]" == start + AggregateText(ops)
  {
    hide RenderItems, OpDocs;
    assert ops[0..] == ops;
    var items := Rest(ops, 0);
    assert Render(DList(OpDocs(ops), None)) == "[" + items + "" + "]";
    assert start + "[" + items + "]" == start + ("[" + items + "" + "]");
  }

  /** The inner loop over the operations `mine` of one call, the next ones of `ops`. */
  method AppendOps(buf: JsonBuffer, mine: seq<Op>, ghost ops: seq<Op>, done: nat, ghost total: string)
    returns (count: nat)
    requires buf.Valid() && done + |mine| <= |ops| && ops[done..done + |mine|] == mine
    requires buf.Contents() + Rest(ops, done) == total
    modifies buf, buf.data
    ensures buf.Valid() && (buf.data == old(buf.data) || fresh(buf.data))
    ensures count == done + |mine|
    ensures buf.Contents() + Rest(ops, count) == total
  {
    hide Rest, Render, OpDoc;
    count := done;
    for j := 0 to |mine|
      invariant buf.Valid() && (buf.data == old(buf.data) || fresh(buf.data))
      invariant count == done + j
      invariant buf.Contents() + Rest(ops, count) == total
    {
      assert ops[count] == mine[j];
      RestStep(buf.Contents(), ops, count);
      var counted := AppendOp(buf, mine[j], count == 0);
      if counted {
        count := count + 1;
      }
    }
  }

  // ----- the queries, with those outside the call stack -----

  lemma {:induction false} RestConcat(a: seq<Op>, b: seq<Op>)
    ensures Rest(a + b, 0) == Rest(a, 0) + Rest(a + b, |a|)
  {
    hide RenderItems, OpDocs, OpDoc;
    assert (a + b)[0..] == a + b && a[0..] == a && (a + b)[|a|..] == b;
    assert OpDocs(a + b) == OpDocs(a) + OpDocs(b);
    ItemsConcat(OpDocs(a), OpDocs(b), true);
  }

  lemma {:induction false} ItemsConcat(a: seq<Doc>, b: seq<Doc>, first: bool)
    ensures RenderItems(a + b, first) == RenderItems(a, first) + RenderItems(b, first && a == [])
    decreases |a|
  {
    hide Render;
    if a == [] {
      assert a + b == b;
    } else {
      ItemsConcat(a[1..], b, false);
      assert (a + b)[1..] == a[1..] + b;
      Regroup(Render(a[0]), RenderItems(a[1..], false), RenderItems(b, false));
      Regroup(",", Render(a[0]) + RenderItems(a[1..], false), RenderItems(b, false));
    }
  }

  /** The queries of all calls, then those recorded outside the call stack. */
  method AggregateSqlQueries(p: Profiler, buf: JsonBuffer, globalSql: seq<Op>) returns (count: nat)
    requires p.Valid() && buf.Valid()
    modifies buf, buf.data
    ensures buf.Valid() && (buf.data == old(buf.data) || fresh(buf.data))
    ensures p.Valid() && Recs(p.list) == old(Recs(p.list))
    ensures buf.Contents() == old(buf.Contents()) + AggregateText(AllOps(Recs(p.list), KSql) + globalSql)
    ensures count == |AllOps(Recs(p.list), KSql)| + |globalSql|
  {
    hide *;
    ghost var start := buf.Contents();
    buf.Append("[");
    count := AppendQueries(p, buf, globalSql);
    buf.Append("]");
    AggregateShape(start, AllOps(Recs(p.list), KSql) + globalSql);
  }

  method AppendQueries(p: Profiler, buf: JsonBuffer, globalSql: seq<Op>) returns (count: nat)
    requires p.Valid() && buf.Valid()
    modifies buf, buf.data
    ensures buf.Valid() && (buf.data == old(buf.data) || fresh(buf.data))
    ensures p.Valid() && Recs(p.list) == old(Recs(p.list))
    ensures buf.Contents() == old(buf.Contents()) + Rest(AllOps(Recs(p.list), KSql) + globalSql, 0)
    ensures count == |AllOps(Recs(p.list), KSql)| + |globalSql|
  {
    hide *;
    ghost var start, calls := buf.Contents(), AllOps(Recs(p.list), KSql);
    ghost var ops := calls + globalSql;
    count := AppendCalls(p, buf, KSql);
    RestConcat(calls, globalSql);
    Regroup(start, Rest(calls, 0), Rest(ops, |calls|));
    if |globalSql| > 0 {
      assert ops[count..count + |globalSql|] == globalSql;
      count := AppendOps(buf, globalSql, ops, count, start + Rest(ops, 0));
    }
    RestNothing(buf.Contents(), ops);
  }

  // ----- what the text is -----

  ghost predicate OpsSized(ops: seq<Op>) {
    forall i :: 0 <= i < |ops| ==> |ops[i]| < 0x1_0000_0000
  }

  /** The operation's array meets the exact condition of the serializer. */
  predicate OpAcceptable(op: Op) { Acceptable(OpTables(op), ZArray(0), {}, 0) }

  predicate AllAcceptable(ops: seq<Op>) { forall i :: 0 <= i < |ops| ==> OpAcceptable(ops[i]) }

  lemma {:induction false} OpOkIff(op: Op)
    ensures DocOk(OpDoc(op)) <==> OpAcceptable(op)
  {
    hide View, DocOk, Acceptable;
    ViewOkIff(OpTables(op), ZArray(0), {}, 0);
  }

  /** The JSON value of an operation that is acceptable. */
  function OpJson(op: Op): Json { if DocOk(OpDoc(op)) then ToJson(OpDoc(op)) else Null }

  function OpJsons(ops: seq<Op>): (items: seq<Json>)
    ensures |items| == |ops|
    ensures forall i :: 0 <= i < |ops| ==> items[i] == OpJson(ops[i])
  {
    if ops == [] then [] else [OpJson(ops[0])] + OpJsons(ops[1..])
  }

  /** The aggregate is well-formed JSON exactly when every operation is acceptable, and then
      it is an array holding one element for each operation, its value. */
  lemma {:induction false} AggregateWellFormedIff(ops: seq<Op>)
    requires OpsSized(ops)
    ensures WellFormed(AggregateText(ops)) <==> AllAcceptable(ops)
    ensures AllAcceptable(ops) ==> Decode(AggregateText(ops)) == Some(Arr(OpJsons(ops)))
    ensures AllAcceptable(ops) ==> forall i :: 0 <= i < |ops| ==> DocOk(OpDoc(ops[i]))
  {
    hide View, Render, Shape, Decode, OpAcceptable;
    var d := DList(OpDocs(ops), None);
    forall i | 0 <= i < |ops|
      ensures Shape(OpDoc(ops[i])) && (DocOk(OpDoc(ops[i])) <==> OpAcceptable(ops[i]))
    {
      ViewShape(OpTables(ops[i]), ZArray(0), {}, 0);
      OpOkIff(ops[i]);
    }
    ListShape(OpDocs(ops));
    RenderWellFormedIff(d);
    assert DocOk(d) <==> AllAcceptable(ops);
    if DocOk(d) {
      AggregateValue(ops);
      assert ToItems(OpDocs(ops)) == OpJsons(ops);
    }
  }

  lemma ListShape(docs: seq<Doc>)
    requires forall i :: 0 <= i < |docs| ==> Shape(docs[i])
    ensures Shape(DList(docs, None))
  {
  }

  lemma {:induction false} AggregateValue(ops: seq<Op>)
    requires DocOk(DList(OpDocs(ops), None))
    ensures var items := ToItems(OpDocs(ops));
            ToJson(DList(OpDocs(ops), None)) == Arr(items) && |items| == |ops|
            && forall i :: 0 <= i < |ops| ==> DocOk(OpDoc(ops[i])) && items[i] == ToJson(OpDoc(ops[i]))
  {
    hide OpDoc;
    var docs := OpDocs(ops);
    ItemsValues(docs);
    assert ToItems(docs) + [] == ToItems(docs);
  }

  // ----- the operations that are recorded -----

  function AsLong(n: nat): int64
    requires n < 0x1_0000_0000_0000_0000
  {
    (if n < 0x8000_0000_0000_0000 then n else n - 0x1_0000_0000_0000_0000) as int64
  }

  function Micros(n: int): Double { if n < 0 then Finite(true, -n) else Finite(false, n) }

  function StringEntry(key: string, s: string): Entry { Entry(Some(key), ZString(s)) }

  function LongEntry(key: string, n: int64): Entry { Entry(Some(key), ZLong(n)) }

  function DoubleEntry(key: string, micros: int): Entry { Entry(Some(key), ZDouble(Micros(micros))) }

  /** The array recorded for one HTTP request; times are in microseconds. */
  function HttpRequest(url: Option<string>, verb: Option<string>, status: int64, sent: nat, received: nat,
                       duration: int, now: int, error: Option<string>): Op
    requires sent < 0x1_0000_0000_0000_0000 && received < 0x1_0000_0000_0000_0000
  {
    (if url.Some? then [StringEntry("url", url.value)] else [])
    + [StringEntry("method", if verb.Some? then verb.value else "GET")]
    + (if status > 0 then [LongEntry("status_code", status)] else [])
    + [LongEntry("bytes_sent", AsLong(sent)), LongEntry("bytes_received", AsLong(received)),
       DoubleEntry("duration", duration), DoubleEntry("duration_ms", duration * 1000),
       DoubleEntry("timestamp", now - duration)]
    + (if error.Some? then [StringEntry("error", error.value)] else [])
    + [StringEntry("type", "curl")]
  }

  /** The whole part of this time and its sign are not exactly 62 characters. */
  predicate Printable(micros: int) {
    var d := Micros(micros);
    IntegerWidth(d.negative, d.micros) != 62
  }

  ghost predicate Keyed(op: Op) {
    forall i :: 0 <= i < |op| ==> op[i].key.Some? && CleanValue(op[i].value)
  }

  lemma KeyedIsOk(op: Op)
    requires Keyed(op) && |op| <= MAX_ELEMENTS
    ensures DocOk(OpDoc(op))
  {
    hide View, DocOk;
    CleanViewOk(OpTables(op), ZArray(0), {}, 0);
  }


  predicate Flat(op: Op) {
    forall i :: 0 <= i < |op| ==> op[i].key.Some? && Scalar(op[i].value)
  }

  /** The members are the entries, in order: the key and what the value says. */
  predicate Lists(op: Op, members: seq<Member>)
    requires Flat(op)
  {
    && |members| == |op|
    && forall i :: 0 <= i < |op| ==> Some(members[i].name) == op[i].key && ScalarSays(op[i].value, members[i].value)
  }

  /** What the value of an acceptable operation says, whatever is nested in it. */
  lemma {:induction false} OpMeaning(op: Op)
    requires OpAcceptable(op) && |op| < 0x1_0000_0000
    ensures DocOk(OpDoc(op)) && Decode(Render(OpDoc(op))) == Some(OpJson(op))
    ensures Says(OpTables(op), ZArray(0), {}, 0, OpJson(op))
  {
    hide View, Decode, Render, Acceptable, Says, ToJson, DocOk;
    OutputWellFormedIff(OpTables(op), ZArray(0));
    OutputMeaning(OpTables(op), ZArray(0));
  }

  /** A recorded operation of plain values decodes to one object with a member for every
      entry, in order, under the entry's key and telling the entry's value. */
  lemma {:induction false} FlatOpDecodes(op: Op)
    requires Keyed(op) && Flat(op) && 0 < |op| <= MAX_ITEMS
    ensures var output := Decode(Render(OpDoc(op)));
            output == Some(OpJson(op)) && output.value.Obj? && Lists(op, output.value.members)
  {
    hide OpDoc, Render, Decode, ScalarSays, CleanValue, Acceptable;
    KeyedIsOk(op);
    OpOkIff(op);
    OpMeaning(op);
    assert op[0].key.Some?;
  }

  // ----- looking an operation's members up -----

  /** The value under a key. */
  function ValueOf(op: Op, key: string): Option<Zval> {
    if op == [] then None else if op[0].key == Some(key) then Some(op[0].value) else ValueOf(op[1..], key)
  }

  lemma {:induction false} ValueOfConcat(a: Op, b: Op, key: string)
    ensures ValueOf(a + b, key) == if ValueOf(a, key).Some? then ValueOf(a, key) else ValueOf(b, key)
  {
    if a == [] {
      assert a + b == b;
    } else {
      ValueOfConcat(a[1..], b, key);
      assert (a + b)[1..] == a[1..] + b;
    }
  }

  lemma {:induction false} ListsLookup(op: Op, members: seq<Member>, key: string)
    requires Flat(op) && Lists(op, members)
    ensures var v, j := ValueOf(op, key), MemberValue(members, key);
            if v.Some? then Scalar(v.value) && j.Some? && ScalarSays(v.value, j.value) else j.None?
  {
    hide Scalar, ScalarSays;
    if op != [] {
      ListsLookup(op[1..], members[1..], key);
    }
  }

  /** A time in microseconds, read off its text. */
  predicate TimeIs(j: Json, micros: int) {
    j.Num? && DoubleReads(micros < 0, if micros < 0 then -micros else micros, ReadDecimal(j.text))
  }

  /** What a 64-bit signed reading makes of an unsigned count. */
  function Signed64(n: nat): int { if n < 0x8000_0000_0000_0000 then n else n - 0x1_0000_0000_0000_0000 }

  function Optional(s: Option<string>): Option<Json> { if s.Some? then Some(Str(s.value)) else None }

  lemma {:induction false} ValueOfOne(present: bool, e: Entry, key: string)
    ensures ValueOf(if present then [e] else [], key) == if present && e.key == Some(key) then Some(e.value) else None
  {
  }

  lemma {:induction false} ValueOfFive(a: Entry, b: Entry, c: Entry, d: Entry, e: Entry, key: string)
    ensures ValueOf([a, b, c, d, e], key)
         == if a.key == Some(key) then Some(a.value) else if b.key == Some(key) then Some(b.value)
            else if c.key == Some(key) then Some(c.value) else if d.key == Some(key) then Some(d.value)
            else if e.key == Some(key) then Some(e.value) else None
  {
    hide ValueOf;
    assert [a, b, c, d, e] == [a] + [b] + [c] + [d] + [e];
    ValueOfConcat([a], [b], key);
    ValueOfConcat([a] + [b], [c], key);
    ValueOfConcat([a] + [b] + [c], [d], key);
    ValueOfConcat([a] + [b] + [c] + [d], [e], key);
    ValueOfOne(true, a, key);
    ValueOfOne(true, b, key);
    ValueOfOne(true, c, key);
    ValueOfOne(true, d, key);
    ValueOfOne(true, e, key);
  }

  /** The array of a request, key by key. */
  lemma {:induction false} HttpRequestValue(url: Option<string>, verb: Option<string>, status: int64, sent: nat,
        received: nat, duration: int, now: int, error: Option<string>, key: string)
    requires sent < 0x1_0000_0000_0000_0000 && received < 0x1_0000_0000_0000_0000
    ensures ValueOf(HttpRequest(url, verb, status, sent, received, duration, now, error), key)
         == if key == "url" && url.Some? then Some(ZString(url.value))
            else if key == "method" then Some(ZString(if verb.Some? then verb.value else "GET"))
            else if key == "status_code" && status > 0 then Some(ZLong(status))
            else if key == "bytes_sent" then Some(ZLong(AsLong(sent)))
            else if key == "bytes_received" then Some(ZLong(AsLong(received)))
            else if key == "duration" then Some(ZDouble(Micros(duration)))
            else if key == "duration_ms" then Some(ZDouble(Micros(duration * 1000)))
            else if key == "timestamp" then Some(ZDouble(Micros(now - duration)))
            else if key == "error" && error.Some? then Some(ZString(error.value))
            else if key == "type" then Some(ZString("curl")) else None
  {
    hide ValueOf, AsLong, Micros;
    var a := if url.Some? then [StringEntry("url", url.value)] else [];
    var b := [StringEntry("method", if verb.Some? then verb.value else "GET")];
    var c := if status > 0 then [LongEntry("status_code", status)] else [];
    var d := [LongEntry("bytes_sent", AsLong(sent)), LongEntry("bytes_received", AsLong(received)),
              DoubleEntry("duration", duration), DoubleEntry("duration_ms", duration * 1000),
              DoubleEntry("timestamp", now - duration)];
    var e, f := if error.Some? then [StringEntry("error", error.value)] else [], [StringEntry("type", "curl")];
    ValueOfConcat(a, b, key);
    ValueOfConcat(a + b, c, key);
    ValueOfConcat(a + b + c, d, key);
    ValueOfConcat(a + b + c + d, e, key);
    ValueOfConcat(a + b + c + d + e, f, key);
    ValueOfOne(url.Some?, StringEntry("url", if url.Some? then url.value else ""), key);
    ValueOfOne(true, b[0], key);
    ValueOfOne(status > 0, LongEntry("status_code", status), key);
    ValueOfFive(d[0], d[1], d[2], d[3], d[4], key);
    ValueOfOne(error.Some?, StringEntry("error", if error.Some? then error.value else ""), key);
    ValueOfOne(true, f[0], key);
  }

  /** What the decoded object of a request tells, member by member. */
  predicate TellsRequest(members: seq<Member>, url: Option<string>, verb: Option<string>, status: int, sent: nat,
                         received: nat, duration: int, now: int, error: Option<string>) {
    && MemberValue(members, "url") == Optional(url)
    && MemberValue(members, "method") == Some(Str(if verb.Some? then verb.value else "GET"))
    && (var j := MemberValue(members, "status_code");
        if status > 0 then j.Some? && NumberIs(j.value, status) else j.None?)
    && (var j := MemberValue(members, "bytes_sent"); j.Some? && NumberIs(j.value, Signed64(sent)))
    && (var j := MemberValue(members, "bytes_received"); j.Some? && NumberIs(j.value, Signed64(received)))
    && (var j := MemberValue(members, "duration"); j.Some? && TimeIs(j.value, duration))
    && (var j := MemberValue(members, "duration_ms"); j.Some? && TimeIs(j.value, duration * 1000))
    && (var j := MemberValue(members, "timestamp"); j.Some? && TimeIs(j.value, now - duration))
    && MemberValue(members, "error") == Optional(error)
    && MemberValue(members, "type") == Some(Str("curl"))
    && |members| == 7 + (if url.Some? then 1 else 0) + (if status > 0 then 1 else 0) + (if error.Some? then 1 else 0)
  }

  lemma {:induction false} TimeSays(micros: int, j: Json)
    requires ScalarSays(ZDouble(Micros(micros)), j)
    ensures TimeIs(j, micros)
  {
    hide DoubleReads, ReadDecimal;
  }

  lemma {:induction false} CountSays(n: nat, j: Json)
    requires n < 0x1_0000_0000_0000_0000 && ScalarSays(ZLong(AsLong(n)), j)
    ensures NumberIs(j, Signed64(n))
  {
    hide ReadDecimal;
  }

  /** A recorded HTTP request always decodes to exactly what was recorded, member by member
      and whatever its strings hold, unless a time prints with a 62-character whole part. */
  lemma {:induction false} HttpRequestDecodes(url: Option<string>, verb: Option<string>, status: int64, sent: nat,
        received: nat, duration: int, now: int, error: Option<string>)
    requires sent < 0x1_0000_0000_0000_0000 && received < 0x1_0000_0000_0000_0000
    requires Printable(duration) && Printable(duration * 1000) && Printable(now - duration)
    ensures var op := HttpRequest(url, verb, status, sent, received, duration, now, error);
            var output := Decode(Render(OpDoc(op)));
            && Flat(op) && DocOk(OpDoc(op)) && output == Some(OpJson(op)) && output.value.Obj?
            && TellsRequest(output.value.members, url, verb, status as int, sent, received, duration, now, error)
  {
    hide IntegerWidth, OpDoc, Decode, Render, OpJson, ScalarSays;
    var op := HttpRequest(url, verb, status, sent, received, duration, now, error);
    assert Keyed(op);
    KeyedIsOk(op);
    FlatOpDecodes(op);
    RequestTold(url, verb, status, sent, received, duration, now, error, OpJson(op).members);
  }

  lemma {:induction false} RequestTold(url: Option<string>, verb: Option<string>, status: int64, sent: nat,
        received: nat, duration: int, now: int, error: Option<string>, members: seq<Member>)
    requires sent < 0x1_0000_0000_0000_0000 && received < 0x1_0000_0000_0000_0000
    requires var op := HttpRequest(url, verb, status, sent, received, duration, now, error);
             Flat(op) && Lists(op, members)
    ensures TellsRequest(members, url, verb, status as int, sent, received, duration, now, error)
  {
    hide ValueOf, MemberValue, Micros, AsLong, TimeIs, NumberIs, DoubleIs, ReadDecimal, Signed64, HttpRequest;
    RequestSize(url, verb, status, sent, received, duration, now, error);
    var op := HttpRequest(url, verb, status, sent, received, duration, now, error);
    ListsLookup(op, members, "url");
    HttpRequestValue(url, verb, status, sent, received, duration, now, error, "url");
    ListsLookup(op, members, "method");
    HttpRequestValue(url, verb, status, sent, received, duration, now, error, "method");
    ListsLookup(op, members, "status_code");
    HttpRequestValue(url, verb, status, sent, received, duration, now, error, "status_code");
    ListsLookup(op, members, "bytes_sent");
    HttpRequestValue(url, verb, status, sent, received, duration, now, error, "bytes_sent");
    CountSays(sent, MemberValue(members, "bytes_sent").value);
    ListsLookup(op, members, "bytes_received");
    HttpRequestValue(url, verb, status, sent, received, duration, now, error, "bytes_received");
    CountSays(received, MemberValue(members, "bytes_received").value);
    ListsLookup(op, members, "duration");
    HttpRequestValue(url, verb, status, sent, received, duration, now, error, "duration");
    TimeSays(duration, MemberValue(members, "duration").value);
    ListsLookup(op, members, "duration_ms");
    HttpRequestValue(url, verb, status, sent, received, duration, now, error, "duration_ms");
    TimeSays(duration * 1000, MemberValue(members, "duration_ms").value);
    ListsLookup(op, members, "timestamp");
    HttpRequestValue(url, verb, status, sent, received, duration, now, error, "timestamp");
    TimeSays(now - duration, MemberValue(members, "timestamp").value);
    ListsLookup(op, members, "error");
    HttpRequestValue(url, verb, status, sent, received, duration, now, error, "error");
    ListsLookup(op, members, "type");
    HttpRequestValue(url, verb, status, sent, received, duration, now, error, "type");
  }

  lemma RequestSize(url: Option<string>, verb: Option<string>, status: int64, sent: nat, received: nat,
                    duration: int, now: int, error: Option<string>)
    requires sent < 0x1_0000_0000_0000_0000 && received < 0x1_0000_0000_0000_0000
    ensures |HttpRequest(url, verb, status, sent, received, duration, now, error)|
         == 7 + (if url.Some? then 1 else 0) + (if status > 0 then 1 else 0) + (if error.Some? then 1 else 0)
  {
    hide AsLong, Micros;
  }

  // ----- from recording to the decoded aggregate -----

  lemma {:induction false} OpJsonsConcat(a: seq<Op>, b: seq<Op>)
    ensures OpJsons(a + b) == OpJsons(a) + OpJsons(b)
  {
    hide OpJson;
  }

  /** One occurrence of an operation can be taken out of a list, and its value out of the values. */
  lemma {:induction false} OpJsonsRemove(b: seq<Op>, op: Op) returns (rest: seq<Op>)
    requires op in b
    ensures multiset(b) == multiset(rest) + multiset{op} && |rest| < |b|
    ensures multiset(OpJsons(b)) == multiset(OpJsons(rest)) + multiset{OpJson(op)}
  {
    hide OpJson;
    var j :| 0 <= j < |b| && b[j] == op;
    var front, back := b[..j], b[j + 1..];
    rest := front + back;
    assert b == front + ([op] + back);
    OpJsonsConcat(front, back);
    OpJsonsConcat([op], back);
    OpJsonsConcat(front, [op] + back);
    assert OpJsons([op]) == [OpJson(op)];
  }

  /** Reordered operations have reordered values. */
  lemma {:induction false} OpJsonsPermute(a: seq<Op>, b: seq<Op>)
    requires multiset(a) == multiset(b)
    ensures multiset(OpJsons(a)) == multiset(OpJsons(b))
    decreases |a|
  {
    hide OpJson, OpJsons;
    assert |a| == |multiset(a)| == |multiset(b)| == |b|;
    if a == [] {
      assert b == a;
    } else {
      var x := a[0];
      assert x in multiset(b);
      var a' := OpJsonsRemove(a, x);
      var b' := OpJsonsRemove(b, x);
      assert multiset(a') == multiset(a) - multiset{x} == multiset(b');
      OpJsonsPermute(a', b');
    }
  }

  lemma {:induction false} SameMembers(a: seq<Op>, b: seq<Op>)
    requires multiset(a) == multiset(b)
    ensures |a| == |b| && (OpsSized(b) ==> OpsSized(a)) && (AllAcceptable(b) ==> AllAcceptable(a))
  {
    hide OpAcceptable;
    assert |a| == |multiset(a)| == |multiset(b)| == |b|;
    forall i | 0 <= i < |a|
      ensures exists j :: 0 <= j < |b| && b[j] == a[i]
    {
      assert a[i] in multiset(b);
    }
  }

  /** Over any run, the aggregate of a kind holds exactly the operations recorded since the
      last start, an HTTP request even when the stack was empty; and if what was recorded
      is acceptable, its text decodes to an array of exactly the recorded values. */
  lemma {:induction false} AggregateConserves(enabled: bool, kind: Kind, run: seq<Event>)
    requires ValidRun(Initial(enabled), run)
    ensures var ops, log := AllOps(Final(Initial(enabled), run).calls, kind), RunLog(Initial(enabled), kind, [], run);
            multiset(ops) == multiset(log) && |ops| == |log|
    ensures var ops, log := AllOps(Final(Initial(enabled), run).calls, kind), RunLog(Initial(enabled), kind, [], run);
            OpsSized(log) && AllAcceptable(log) ==>
              Decode(AggregateText(ops)) == Some(Arr(OpJsons(ops))) && multiset(OpJsons(ops)) == multiset(OpJsons(log))
  {
    hide ValidRun, Final, RunLog, AllOps, OpAcceptable, OpsSized, Decode, AggregateText, OpJsons;
    assert Inv(Initial(enabled));
    EmptyHolds(kind);
    OpsConserved(Initial(enabled), kind, [], run);
    var ops, log := AllOps(Final(Initial(enabled), run).calls, kind), RunLog(Initial(enabled), kind, [], run);
    SameMembers(ops, log);
    OpJsonsPermute(ops, log);
    if OpsSized(log) && AllAcceptable(log) {
      AggregateWellFormedIff(ops);
    }
  }
}
