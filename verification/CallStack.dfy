/** The call stack in the span's text: one flat array with an object for every call, and
    what a receiver gets back out of it. */
module CallStack {
  import opened Seqs
  import opened Json
  import opened JsonFragments
  import opened Zval
  import opened ZvalSerializer
  import opened ZvalJson
  import opened ZvalNumbers
  import opened ZvalWellFormed
  import opened Buffer
  import opened ObjectWriter
  import opened CollectorSpec
  import opened Collector
  import opened Spans
  import Aggregate

  /** What else is known of a call: its function, and the measures taken of it; the CPU time
      is in microseconds. */
  datatype Details = Details(
    kind: int, class_: Option<string>, file: Option<string>, line: int,
    cpu: nat, memory: int, sent: int, received: int)

  /** The details of each call, by its id. */
  type Facts = Id -> Details

  predicate HexDigit(c: char) { '0' <= c <= '9' || 'a' <= c <= 'f' }

  /** Ids as they are generated, 16 hexadecimal digits; they are written without escaping. */
  predicate Generated(id: Id) { |id| == 16 && forall i :: 0 <= i < |id| ==> HexDigit(id[i]) }

  // ----- one call as a document -----

  function Named(name: string, d: Doc): DEntry { DEntry(Some(name), d) }

  function Present(present: bool, e: DEntry): seq<DEntry> { if present then [e] else [] }

  function FunctionName(c: Call, d: Details): string {
    if c.name != "" then c.name
    else (if d.kind == 2 && d.class_.Some? then d.class_.value + SCOPE else "") + UNKNOWN
  }

  function Text(s: Option<string>): string { if s.Some? then s.value else "" }

  function HeadEntries(c: Call, d: Details): seq<DEntry> {
    [Named("call_id", DStr(c.id)), Named("function", DStr(FunctionName(c, d)))]
    + Present(d.class_.Some?, Named("class", DStr(Text(d.class_))))
    + Present(d.file.Some?, Named("file", DStr(Text(d.file))))
    + Present(d.line > 0, Named("line", DNum(SignedText(d.line))))
  }

  function MeasureEntries(c: Call, d: Details): seq<DEntry> {
    [Named("duration_ms", DNum(MilliText(Duration(c)))), Named("cpu_ms", DNum(MilliText(d.cpu))),
     Named("memory_delta", DNum(SignedText(d.memory))), Named("network_bytes_sent", DNum(SignedText(d.sent))),
     Named("network_bytes_received", DNum(SignedText(d.received)))]
  }

  function ParentDoc(c: Call): Doc {
    if c.parent.Some? && c.parent.value != "" then DStr(c.parent.value) else DNull
  }

  function LinkEntries(c: Call, d: Details): seq<DEntry> {
    [Named("parent_id", ParentDoc(c)), Named("depth", DNum(SignedText(c.depth))),
     Named("function_type", DNum(SignedText(d.kind)))]
  }

  /** The operations of a call are one array of arrays. */
  function OpsTables(ops: seq<Op>): Graph {
    var tables := [seq(|ops|, i requires 0 <= i < |ops| => Entry(None, ZArray(i + 1)))] + ops;
    map id: nat | id < |tables| :: tables[id]
  }

  function OpsDoc(ops: seq<Op>): Doc { View(OpsTables(ops), ZArray(0), {}, 0) }

  function OpsEntry(name: string, ops: seq<Op>): seq<DEntry> { Present(ops != [], Named(name, OpsDoc(ops))) }

  function OpsEntries(c: Call): seq<DEntry> {
    OpsEntry("sql_queries", c.sql) + OpsEntry("http_requests", c.http)
    + OpsEntry("cache_operations", c.cache) + OpsEntry("redis_operations", c.redis)
  }

  const QUOTE := "\""
  const SCOPE := "::"
  const UNKNOWN := "<unknown>"
  const CHILDREN := Named("children", DList([], None))

  function CallEntries(c: Call, d: Details): seq<DEntry> {
    HeadEntries(c, d) + MeasureEntries(c, d) + LinkEntries(c, d) + OpsEntries(c) + [CHILDREN]
  }

  function CallDoc(c: Call, d: Details): Doc { DMap(CallEntries(c, d), None) }

  /** The loop passes over calls without a start time. */
  function CallDocs(calls: seq<Call>, facts: Facts): seq<Doc> {
    if calls == [] then []
    else (if calls[0].start > 0 then [CallDoc(calls[0], facts(calls[0].id))] else []) + CallDocs(calls[1..], facts)
  }

  function StackText(calls: seq<Call>, facts: Facts): string { Render(DList(CallDocs(calls, facts), None)) }

  // ----- documents as parts -----

  function PartOf(e: DEntry): Part { Part(Text(e.key), Render(e.value)) }

  function PartsOf(entries: seq<DEntry>): (parts: seq<Part>)
    ensures |parts| == |entries|
    ensures forall i :: 0 <= i < |parts| ==> parts[i] == PartOf(entries[i])
  {
    if entries == [] then [] else [PartOf(entries[0])] + PartsOf(entries[1..])
  }

  lemma {:induction false} PartsConcat(a: seq<DEntry>, b: seq<DEntry>)
    ensures PartsOf(a + b) == PartsOf(a) + PartsOf(b)
  {
    hide PartOf;
  }

  ghost predicate AllNamed(entries: seq<DEntry>) { forall i :: 0 <= i < |entries| ==> entries[i].key.Some? }

  lemma {:induction false} EntriesAreParts(entries: seq<DEntry>)
    requires AllNamed(entries)
    ensures RenderEntries(entries, true) == JoinParts(PartsOf(entries))
    ensures entries != [] ==> RenderEntries(entries, false) == "," + JoinParts(PartsOf(entries))
  {
    hide Render, Quote;
    if entries != [] {
      EntriesAreParts(entries[1..]);
      var e := entries[0];
      assert RenderEntry(e) == PartText(PartOf(e));
      assert PartsOf(entries)[1..] == PartsOf(entries[1..]);
      JoinCons(PartsOf(entries));
      hide RenderEntry, PartText, PartOf, JoinParts;
      assert entries[1..] == [] ==> RenderEntries(entries[1..], false) == "";
    }
  }

  lemma {:induction false} JoinCons(parts: seq<Part>)
    requires parts != []
    ensures JoinParts(parts) == PartText(parts[0]) + if |parts| == 1 then "" else "," + JoinParts(parts[1..])
  {
    hide PartText;
  }

  lemma NamedConcat(a: seq<DEntry>, b: seq<DEntry>)
    requires AllNamed(a) && AllNamed(b)
    ensures AllNamed(a + b)
  {
  }

  lemma OpsAreNamed(name: string, ops: seq<Op>)
    ensures AllNamed(OpsEntry(name, ops))
  {
    hide OpsDoc;
  }

  lemma AllOpsAreNamed(c: Call)
    ensures AllNamed(OpsEntries(c))
  {
    hide OpsEntry, AllNamed;
    var a, b := OpsEntry("sql_queries", c.sql), OpsEntry("http_requests", c.http);
    var x, y := OpsEntry("cache_operations", c.cache), OpsEntry("redis_operations", c.redis);
    OpsAreNamed("sql_queries", c.sql);
    OpsAreNamed("http_requests", c.http);
    OpsAreNamed("cache_operations", c.cache);
    OpsAreNamed("redis_operations", c.redis);
    NamedConcat(a, b);
    NamedConcat(a + b, x);
    NamedConcat(a + b + x, y);
  }

  lemma OthersAreNamed(c: Call, d: Details)
    ensures AllNamed(HeadEntries(c, d)) && AllNamed(MeasureEntries(c, d)) && AllNamed(LinkEntries(c, d))
    ensures AllNamed([CHILDREN])
  {
    hide SignedText, MilliText, Duration, FunctionName, ParentDoc, Text;
  }

  lemma CallIsNamed(c: Call, d: Details)
    ensures AllNamed(CallEntries(c, d))
  {
    hide HeadEntries, MeasureEntries, LinkEntries, OpsEntries, AllNamed;
    var a, b, x, y := HeadEntries(c, d), MeasureEntries(c, d), LinkEntries(c, d), OpsEntries(c);
    OthersAreNamed(c, d);
    AllOpsAreNamed(c);
    NamedConcat(a, b);
    NamedConcat(a + b, x);
    NamedConcat(a + b + x, y);
    NamedConcat(a + b + x + y, [CHILDREN]);
  }

  lemma CallText(c: Call, d: Details)
    ensures Render(CallDoc(c, d)) == "{" + JoinParts(PartsOf(CallEntries(c, d))) + "}"
  {
    hide CallEntries, PartsOf, JoinParts;
    CallIsNamed(c, d);
    EntriesAreParts(CallEntries(c, d));
    assert "{" + RenderEntries(CallEntries(c, d), true) + "" == "{" + RenderEntries(CallEntries(c, d), true);
  }

  // ----- the loop -----

  lemma RawId(id: Id)
    requires Generated(id)
    ensures Quote(id) == QUOTE + id + QUOTE && id != ""
  {
    QuotePlain(id);
  }

  lemma FunctionNameIs(c: Call, d: Details)
    ensures c.name != "" ==> FunctionName(c, d) == c.name
    ensures c.name == "" && d.kind == 2 && d.class_.Some? ==> FunctionName(c, d) == d.class_.value + SCOPE + UNKNOWN
    ensures c.name == "" && !(d.kind == 2 && d.class_.Some?) ==> FunctionName(c, d) == "" + UNKNOWN
  {
  }

  /** The function's name, or what stands for a missing one. */
  method AppendFunction(w: Writer, call: CallNode, d: Details)
    requires w.Valid()
    modifies w, w.buf, w.buf.data
    ensures w.Valid() && w.parts == old(w.parts) + [Part("function", Quote(FunctionName(call.Rec(), d)))]
    ensures w.buf.data == old(w.buf.data) || fresh(w.buf.data)
    ensures w.content == old(w.content)
  {
    hide *;
    RecFields(call);
    FunctionNameIs(call.Rec(), d);
    if |call.functionName| > 0 {
      w.AddQuoted("function", call.functionName);
    } else {
      AppendUnknown(w, if d.kind == 2 then d.class_ else None);
    }
  }

  /** Stands for a function without a name: its class, if any, and a fixed text. */
  method AppendUnknown(w: Writer, className: Option<string>)
    requires w.Valid()
    modifies w, w.buf, w.buf.data
    ensures w.Valid() && w.content == old(w.content)
    ensures w.parts == old(w.parts)
                       + [Part("function", Quote((if className.Some? then className.value + SCOPE else "") + UNKNOWN))]
    ensures w.buf.data == old(w.buf.data) || fresh(w.buf.data)
  {
    hide *;
    ghost var prefix := if className.Some? then className.value + SCOPE else "";
    ghost var text := if className.Some? then QUOTE + Escape(className.value) + SCOPE else QUOTE;
    w.Begin("function");
    PutClass(w, className);
    UnknownText(className);
    w.Put("function", text, UNKNOWN);
    w.Put("function", text + UNKNOWN, QUOTE);
    w.End("function", Quote(prefix + UNKNOWN));
  }

  /** The opening quote, and the class in front of the name. */
  method PutClass(w: Writer, className: Option<string>)
    requires w.Inside("function", "")
    modifies w.buf, w.buf.data
    ensures w.Inside("function", if className.Some? then QUOTE + Escape(className.value) + SCOPE else QUOTE)
    ensures w.buf.data == old(w.buf.data) || fresh(w.buf.data)
  {
    hide *;
    ConstantsPlain();
    w.Put("function", "", QUOTE);
    if className.Some? {
      w.PutEscaped("function", QUOTE, className.value);
      w.Put("function", QUOTE + Escape(className.value), SCOPE);
    }
  }

  /** The name of a method without a name: its class's, escaped, and a fixed text. */
  lemma {:induction false} UnknownText(className: Option<string>)
    ensures className.None? ==> QUOTE + UNKNOWN + QUOTE == Quote("" + UNKNOWN)
    ensures className.Some? ==>
              QUOTE + Escape(className.value) + SCOPE + UNKNOWN + QUOTE == Quote(className.value + SCOPE + UNKNOWN)
  {
    hide *;
    ConstantsPlain();
    QuotePlain(UNKNOWN);
    if className.Some? {
      QuotedPieces(className.value, SCOPE, UNKNOWN);
    }
  }

  lemma ConstantsPlain()
    ensures Plain(SCOPE) && Plain(UNKNOWN) && "" + UNKNOWN == UNKNOWN && QUOTE == "\"" && "" + QUOTE == QUOTE
  {
  }

  lemma {:induction false} QuotedPieces(name: string, scope: string, rest: string)
    requires Plain(scope) && Plain(rest)
    ensures QUOTE + Escape(name) + scope + rest + QUOTE == Quote(name + scope + rest)
  {
    hide Escape;
    EscapedPieces(name, scope, rest);
    RegroupFour(QUOTE, Escape(name), scope, rest);
  }

  lemma {:induction false} EscapedPieces(name: string, scope: string, rest: string)
    requires Plain(scope) && Plain(rest)
    ensures Escape(name + scope + rest) == Escape(name) + scope + rest
  {
    hide Escape;
    EscapePlain(scope);
    EscapePlain(rest);
    EscapeConcat(name, scope);
    EscapeConcat(name + scope, rest);
  }

  lemma {:induction false} EscapeConcat(a: string, b: string)
    ensures Escape(a + b) == Escape(a) + Escape(b)
  {
    hide EscapeChar;
    if a == "" {
      assert a + b == b;
    } else {
      EscapeConcat(a[1..], b);
      assert (a + b)[1..] == a[1..] + b;
    }
  }

  method AppendHead(w: Writer, call: CallNode, d: Details)
    requires w.Valid() && Generated(call.callId)
    modifies w, w.buf, w.buf.data
    ensures w.Valid() && w.parts == old(w.parts) + PartsOf(HeadEntries(call.Rec(), d))
    ensures w.buf.data == old(w.buf.data) || fresh(w.buf.data)
    ensures w.content == old(w.content)
  {
    hide *;
    ghost var c, before := call.Rec(), w.parts;
    RecFields(call);
    HeadParts(c, d);
    AppendId(w, "call_id", call.callId);
    AppendFunction(w, call, d);
    AppendPlace(w, d);
    RegroupFour(before, [Part("call_id", Quote(c.id))], [Part("function", Quote(FunctionName(c, d)))], PlaceParts(d));
  }

  lemma RecFields(call: CallNode)
    ensures call.Rec().id == call.callId && call.Rec().parent == call.parentId
    ensures call.Rec().start == call.startTime && call.Rec().end == call.endTime && call.Rec().depth == call.depth
    ensures call.Rec().sql == call.sqlQueries && call.Rec().http == call.httpRequests
    ensures call.Rec().cache == call.cacheOperations && call.Rec().redis == call.redisOperations
    ensures call.Rec().name == call.functionName
  {
  }

  /** An id is written as it is. */
  method AppendId(w: Writer, name: string, id: Id)
    requires w.Valid() && Generated(id)
    modifies w, w.buf, w.buf.data
    ensures w.Valid() && w.parts == old(w.parts) + [Part(name, Quote(id))] && w.content == old(w.content)
    ensures w.buf.data == old(w.buf.data) || fresh(w.buf.data)
  {
    hide *;
    RawId(id);
    w.Add(Part(name, QUOTE + id + QUOTE));
  }

  method AppendPlace(w: Writer, d: Details)
    requires w.Valid()
    modifies w, w.buf, w.buf.data
    ensures w.Valid() && w.parts == old(w.parts) + PlaceParts(d) && w.content == old(w.content)
    ensures w.buf.data == old(w.buf.data) || fresh(w.buf.data)
  {
    hide *;
    ghost var before := w.parts;
    w.AddQuotedIf(d.class_.Some?, "class", Text(d.class_));
    w.AddQuotedIf(d.file.Some?, "file", Text(d.file));
    w.AddIf(d.line > 0, Part("line", SignedText(d.line)));
    PlaceAppended(before, d);
  }

  function PlaceParts(d: Details): seq<Part> {
    When(d.class_.Some?, Part("class", Quote(Text(d.class_))))
    + When(d.file.Some?, Part("file", Quote(Text(d.file))))
    + When(d.line > 0, Part("line", SignedText(d.line)))
  }

  lemma PlaceAppended(before: seq<Part>, d: Details)
    ensures before + When(d.class_.Some?, Part("class", Quote(Text(d.class_))))
            + When(d.file.Some?, Part("file", Quote(Text(d.file))))
            + When(d.line > 0, Part("line", SignedText(d.line)))
         == before + PlaceParts(d)
  {
    hide Quote, Text, SignedText, When;
    RegroupFour(before, When(d.class_.Some?, Part("class", Quote(Text(d.class_)))),
          When(d.file.Some?, Part("file", Quote(Text(d.file)))),
          When(d.line > 0, Part("line", SignedText(d.line))));
  }

  lemma HeadParts(c: Call, d: Details)
    ensures PartsOf(HeadEntries(c, d))
         == [Part("call_id", Quote(c.id))] + [Part("function", Quote(FunctionName(c, d)))] + PlaceParts(d)
  {
    hide Quote, SignedText, FunctionName;
  }

  method AppendMeasures(w: Writer, call: CallNode, d: Details)
    requires w.Valid()
    modifies w, w.buf, w.buf.data
    ensures w.Valid() && w.parts == old(w.parts) + PartsOf(MeasureEntries(call.Rec(), d))
    ensures w.buf.data == old(w.buf.data) || fresh(w.buf.data)
    ensures w.content == old(w.content)
  {
    hide PartsOf, MeasureEntries, TimeParts, CountParts, Writer.Valid, JsonBuffer.Valid, JsonBuffer.Contents;
    ghost var before := w.parts;
    var end := if call.endTime > 0 then call.endTime else call.startTime + 1000;
    var duration := end - call.startTime;
    if duration < 0 {
      duration := 0;
    }
    AppendTimes(w, duration, d);
    AppendCounts(w, d);
    assert duration == Duration(call.Rec());
    MeasureParts(call.Rec(), d);
    assert before + TimeParts(duration, d) + CountParts(d) == before + (TimeParts(duration, d) + CountParts(d));
  }

  function TimeParts(duration: nat, d: Details): seq<Part> {
    [Part("duration_ms", MilliText(duration)), Part("cpu_ms", MilliText(d.cpu))]
  }

  function CountParts(d: Details): seq<Part> {
    [Part("memory_delta", SignedText(d.memory)), Part("network_bytes_sent", SignedText(d.sent)),
     Part("network_bytes_received", SignedText(d.received))]
  }

  method AppendTimes(w: Writer, duration: nat, d: Details)
    requires w.Valid()
    modifies w, w.buf, w.buf.data
    ensures w.Valid() && w.parts == old(w.parts) + TimeParts(duration, d) && w.content == old(w.content)
    ensures w.buf.data == old(w.buf.data) || fresh(w.buf.data)
  {
    hide Writer.Valid, JsonBuffer.Valid, JsonBuffer.Contents, MilliText;
    w.Add(Part("duration_ms", MilliText(duration)));
    w.Add(Part("cpu_ms", MilliText(d.cpu)));
  }

  method AppendCounts(w: Writer, d: Details)
    requires w.Valid()
    modifies w, w.buf, w.buf.data
    ensures w.Valid() && w.parts == old(w.parts) + CountParts(d) && w.content == old(w.content)
    ensures w.buf.data == old(w.buf.data) || fresh(w.buf.data)
  {
    hide Writer.Valid, JsonBuffer.Valid, JsonBuffer.Contents, SignedText;
    w.Add(Part("memory_delta", SignedText(d.memory)));
    w.Add(Part("network_bytes_sent", SignedText(d.sent)));
    w.Add(Part("network_bytes_received", SignedText(d.received)));
  }

  lemma MeasureParts(c: Call, d: Details)
    ensures PartsOf(MeasureEntries(c, d))
         == TimeParts(Duration(c), d) + CountParts(d)
  {
    hide SignedText, MilliText, Duration;
  }

  method AppendLinks(w: Writer, call: CallNode, d: Details)
    requires w.Valid() && (call.parentId.Some? ==> Generated(call.parentId.value))
    modifies w, w.buf, w.buf.data
    ensures w.Valid() && w.parts == old(w.parts) + PartsOf(LinkEntries(call.Rec(), d))
    ensures w.buf.data == old(w.buf.data) || fresh(w.buf.data)
    ensures w.content == old(w.content)
  {
    hide Writer.Valid, JsonBuffer.Valid, JsonBuffer.Contents, SignedText, Quote, Generated, PartsOf, LinkEntries;
    LinkParts(call.Rec(), d);
    if call.parentId.Some? && |call.parentId.value| > 0 {
      RawId(call.parentId.value);
      w.Add(Part("parent_id", QUOTE + call.parentId.value + QUOTE));
    } else {
      w.Add(Part("parent_id", "null"));
    }
    w.Add(Part("depth", SignedText(call.depth)));
    w.Add(Part("function_type", SignedText(d.kind)));
  }

  lemma LinkParts(c: Call, d: Details)
    ensures PartsOf(LinkEntries(c, d))
         == [Part("parent_id", if c.parent.Some? && c.parent.value != "" then Quote(c.parent.value) else "null"),
             Part("depth", SignedText(c.depth)), Part("function_type", SignedText(d.kind))]
  {
    hide SignedText, Quote;
  }

  /** The operations of one kind, serialized into a buffer of their own. */
  method AppendOps(w: Writer, name: string, ops: seq<Op>)
    requires w.Valid()
    modifies w, w.buf, w.buf.data
    ensures w.Valid() && w.parts == old(w.parts) + PartsOf(OpsEntry(name, ops))
    ensures w.buf.data == old(w.buf.data) || fresh(w.buf.data)
    ensures w.content == old(w.content)
  {
    hide Writer.Valid, JsonBuffer.Valid, JsonBuffer.Contents, View, Render, OpsTables;
    if |ops| > 0 {
      var temp := new Serializer();
      temp.SerializeZvalJson(OpsTables(ops), ZArray(0));
      assert "" + Render(OpsDoc(ops)) == Render(OpsDoc(ops)) == temp.buf;
      w.Add(Part(name, temp.buf));
    }
  }

  method AppendAllOps(w: Writer, call: CallNode)
    requires w.Valid()
    modifies w, w.buf, w.buf.data
    ensures w.Valid() && w.parts == old(w.parts) + PartsOf(OpsEntries(call.Rec()))
    ensures w.buf.data == old(w.buf.data) || fresh(w.buf.data)
    ensures w.content == old(w.content)
  {
    hide *;
    ghost var c, before := call.Rec(), w.parts;
    RecFields(call);
    OpsParts(c);
    AppendOps(w, "sql_queries", call.sqlQueries);
    AppendOps(w, "http_requests", call.httpRequests);
    AppendOps(w, "cache_operations", call.cacheOperations);
    AppendOps(w, "redis_operations", call.redisOperations);
    RegroupFive(before, PartsOf(OpsEntry("sql_queries", c.sql)), PartsOf(OpsEntry("http_requests", c.http)),
                PartsOf(OpsEntry("cache_operations", c.cache)), PartsOf(OpsEntry("redis_operations", c.redis)));
  }

  lemma OpsParts(c: Call)
    ensures PartsOf(OpsEntries(c))
         == PartsOf(OpsEntry("sql_queries", c.sql)) + PartsOf(OpsEntry("http_requests", c.http))
            + PartsOf(OpsEntry("cache_operations", c.cache)) + PartsOf(OpsEntry("redis_operations", c.redis))
  {
    hide OpsEntry, PartsOf;
    var a, b := OpsEntry("sql_queries", c.sql), OpsEntry("http_requests", c.http);
    var x, y := OpsEntry("cache_operations", c.cache), OpsEntry("redis_operations", c.redis);
    PartsConcat(a, b);
    PartsConcat(a + b, x);
    PartsConcat(a + b + x, y);
  }

  lemma CallParts(c: Call, d: Details)
    ensures PartsOf(CallEntries(c, d))
         == PartsOf(HeadEntries(c, d)) + PartsOf(MeasureEntries(c, d)) + PartsOf(LinkEntries(c, d))
            + PartsOf(OpsEntries(c)) + [Part("children", "[]")]
  {
    hide HeadEntries, MeasureEntries, LinkEntries, OpsEntries, PartsOf;
    var a, b, x, y := HeadEntries(c, d), MeasureEntries(c, d), LinkEntries(c, d), OpsEntries(c);
    PartsConcat(a, b);
    PartsConcat(a + b, x);
    PartsConcat(a + b + x, y);
    PartsConcat(a + b + x + y, [CHILDREN]);
    NoChildrenText();
  }

  lemma NoChildrenText()
    ensures PartsOf([CHILDREN]) == [Part("children", "[]")]
  {
    assert RenderItems([], true) == "";
    assert "[" + "" + "" + "]" == "[]";
    assert Render(DList([], None)) == "[]";
    assert [CHILDREN][1..] == [];
  }

  lemma WriterHolds(w: Writer)
    requires w.Valid() && w.content == ""
    ensures w.buf.Valid() && w.buf.Contents() == w.start + JoinParts(w.parts)
  {
    BodyAlone(w.parts);
  }

  method AppendMembers(w: Writer, call: CallNode, d: Details)
    requires w.Valid() && w.parts == [] && w.content == ""
    requires Generated(call.callId) && (call.parentId.Some? ==> Generated(call.parentId.value))
    modifies w, w.buf, w.buf.data
    ensures w.Valid() && w.parts == PartsOf(CallEntries(call.Rec(), d)) && w.content == ""
    ensures w.buf.data == old(w.buf.data) || fresh(w.buf.data)
  {
    hide *;
    ghost var c := call.Rec();
    CallParts(c, d);
    AppendHead(w, call, d);
    AppendMeasures(w, call, d);
    assert call.Rec() == c;
    AppendRest(w, call, d);
    ghost var a, b := PartsOf(HeadEntries(c, d)), PartsOf(MeasureEntries(c, d));
    ghost var x, y := PartsOf(LinkEntries(c, d)), PartsOf(OpsEntries(c));
    assert [] + a + b + (x + y + [Part("children", "[]")]) == a + b + x + y + [Part("children", "[]")];
  }

  method AppendRest(w: Writer, call: CallNode, d: Details)
    requires w.Valid() && (call.parentId.Some? ==> Generated(call.parentId.value))
    modifies w, w.buf, w.buf.data
    ensures w.Valid() && w.content == old(w.content)
    ensures var c := call.Rec();
            w.parts == old(w.parts) + (PartsOf(LinkEntries(c, d)) + PartsOf(OpsEntries(c)) + [Part("children", "[]")])
    ensures w.buf.data == old(w.buf.data) || fresh(w.buf.data)
  {
    hide *;
    AppendLinks(w, call, d);
    AppendAllOps(w, call);
    w.Add(Part("children", "[]"));
  }

  /** Writes one call. */
  method SerializeCallNode(buf: JsonBuffer, call: CallNode, d: Details)
    requires buf.Valid() && Generated(call.callId) && (call.parentId.Some? ==> Generated(call.parentId.value))
    modifies buf, buf.data
    ensures buf.Valid() && (buf.data == old(buf.data) || fresh(buf.data))
    ensures buf.Contents() == old(buf.Contents()) + Render(CallDoc(call.Rec(), d))
  {
    hide JsonBuffer.Contents, JsonBuffer.Valid, Body, JoinParts, PartsOf, CallEntries, Generated, Render, Writer.Valid;
    ghost var start, c := buf.Contents(), call.Rec();
    buf.Append("{");
    var w := new Writer(buf);
    AppendMembers(w, call, d);
    WriterHolds(w);
    buf.Append("}");
    CallText(c, d);
    ghost var body := JoinParts(w.parts);
    assert start + "{" + body + "}" == start + ("{" + body + "}");
  }

  ghost predicate GeneratedIds(calls: seq<Call>) {
    forall k :: 0 <= k < |calls| ==>
      Generated(calls[k].id) && (calls[k].parent.Some? ==> Generated(calls[k].parent.value))
  }

  /** What is still to be written for the calls from position `i` on. */
  function StackRest(calls: seq<Call>, facts: Facts, i: nat, first: bool): string
    requires i <= |calls|
  {
    RenderItems(CallDocs(calls[i..], facts), first)
  }

  lemma {:induction false} StackRestStep(before: string, calls: seq<Call>, facts: Facts, i: nat, first: bool)
    requires i < |calls|
    ensures before + StackRest(calls, facts, i, first)
         == if calls[i].start > 0 then
              before + (if first then "" else ",") + Render(CallDoc(calls[i], facts(calls[i].id)))
              + StackRest(calls, facts, i + 1, false)
            else before + StackRest(calls, facts, i + 1, first)
  {
    hide Render, CallDoc;
    assert calls[i..][0] == calls[i] && calls[i..][1..] == calls[i + 1..];
    var rest := CallDocs(calls[i + 1..], facts);
    if calls[i].start > 0 {
      var d := CallDoc(calls[i], facts(calls[i].id));
      assert ([d] + rest)[1..] == rest;
      var comma, text, tail := if first then "" else ",", Render(d), RenderItems(rest, false);
      assert before + comma + text + tail == before + (comma + (text + tail));
    } else {
      assert [] + rest == rest;
    }
  }

  lemma {:induction false} StackRestEnds(before: string, calls: seq<Call>, facts: Facts, first: bool)
    ensures before + StackRest(calls, facts, |calls|, first) == before
  {
    assert calls[|calls|..] == [];
  }

  lemma StackTextIs(start: string, calls: seq<Call>, facts: Facts)
    ensures start + "[" + StackRest(calls, facts, 0, true) + "]" == start + StackText(calls, facts)
  {
    hide RenderItems, CallDocs;
    assert calls[0..] == calls;
    var items := StackRest(calls, facts, 0, true);
    assert "[" + items + "" + "]" == "[" + items + "]";
    assert start + "[" + items + "]" == start + ("[" + items + "]");
  }

  /** Writes every call of the list, newest first, in one array. */
  method SerializeCallStack(p: Profiler, buf: JsonBuffer, facts: Facts)
    requires p.Valid() && buf.Valid() && GeneratedIds(Recs(p.list))
    modifies buf, buf.data
    ensures p.Valid() && Recs(p.list) == old(Recs(p.list))
    ensures buf.Valid() && (buf.data == old(buf.data) || fresh(buf.data))
    ensures buf.Contents() == old(buf.Contents()) + StackText(Recs(p.list), facts)
  {
    hide *;
    ghost var recs, i, start := Recs(p.list), 0, buf.Contents();
    buf.Append("[");
    Aggregate.FirstCall(p);
    var call, first := p.calls, true;
    while call != null
      invariant p.Valid() && Recs(p.list) == recs
      invariant i <= |p.list| && call == if i < |p.list| then p.list[i] else null
      invariant buf.Valid() && (buf.data == old(buf.data) || fresh(buf.data))
      invariant buf.Contents() + StackRest(recs, facts, i, first) == start + "[" + StackRest(recs, facts, 0, true)
      decreases |p.list| - i
    {
      Aggregate.NextCall(p, i);
      first := AppendCall(p, buf, call, i, facts, first);
      call, i := call.next, i + 1;
    }
    StackRestEnds(buf.Contents(), recs, facts, first);
    buf.Append("]");
    StackTextIs(start, recs, facts);
  }

  lemma GeneratedAt(calls: seq<Call>, k: nat)
    requires GeneratedIds(calls) && k < |calls|
    ensures Generated(calls[k].id) && (calls[k].parent.Some? ==> Generated(calls[k].parent.value))
  {
  }

  /** One turn of the loop. */
  method AppendCall(p: Profiler, buf: JsonBuffer, call: CallNode, ghost i: nat, facts: Facts, first: bool)
    returns (first': bool)
    requires p.Valid() && i < |p.list| && p.list[i] == call && buf.Valid() && GeneratedIds(Recs(p.list))
    modifies buf, buf.data
    ensures p.Valid() && Recs(p.list) == old(Recs(p.list))
    ensures buf.Valid() && (buf.data == old(buf.data) || fresh(buf.data))
    ensures buf.Contents() + StackRest(Recs(p.list), facts, i + 1, first')
         == old(buf.Contents()) + StackRest(Recs(p.list), facts, i, first)
  {
    hide *;
    ghost var recs := Recs(p.list);
    assert recs[i] == call.Rec();
    GeneratedAt(recs, i);
    RecFields(call);
    StackRestStep(buf.Contents(), recs, facts, i, first);
    first' := first;
    if call.startTime > 0 {
      if !first {
        buf.Append(",");
      }
      SerializeCallNode(buf, call, facts(call.callId));
      first' := false;
    }
  }

  // ----- when the text is JSON -----

  ghost predicate EntriesOk(entries: seq<DEntry>) { forall i :: 0 <= i < |entries| ==> EntryOk(entries[i]) }

  ghost predicate EntriesShaped(entries: seq<DEntry>) { forall i :: 0 <= i < |entries| ==> Shape(entries[i].value) }

  predicate OpsAcceptable(ops: seq<Op>) { ops != [] ==> Acceptable(OpsTables(ops), ZArray(0), {}, 0) }

  /** Both times print as numbers, and each array of operations meets the exact condition of
      the serializer: at most 1000 of them, those shown acceptable. */
  predicate CallAcceptable(c: Call, d: Details) {
    && MilliWidth(Duration(c)) != 62 && MilliWidth(d.cpu) != 62
    && OpsAcceptable(c.sql) && OpsAcceptable(c.http) && OpsAcceptable(c.cache) && OpsAcceptable(c.redis)
  }

  ghost predicate CallSized(c: Call) {
    && Sized(OpsTables(c.sql)) && Sized(OpsTables(c.http)) && Sized(OpsTables(c.cache)) && Sized(OpsTables(c.redis))
  }

  lemma EntriesConcat(a: seq<DEntry>, b: seq<DEntry>)
    ensures EntriesOk(a + b) <==> EntriesOk(a) && EntriesOk(b)
    ensures EntriesShaped(a + b) <==> EntriesShaped(a) && EntriesShaped(b)
  {
    hide EntryOk, Shape;
    assert forall i :: 0 <= i < |b| ==> (a + b)[|a| + i] == b[i];
    assert forall i :: 0 <= i < |a| ==> (a + b)[i] == a[i];
  }

  lemma {:induction false} NamedOk(name: string, d: Doc)
    ensures EntryOk(Named(name, d)) <==> DocOk(d)
    ensures EntriesOk([Named(name, d)]) <==> DocOk(d)
    ensures EntriesShaped([Named(name, d)]) <==> Shape(d)
  {
    hide DocOk, Shape;
    assert [Named(name, d)][0] == Named(name, d);
  }

  lemma {:induction false} PresentOk(present: bool, name: string, d: Doc)
    requires present ==> Shape(d)
    ensures EntriesOk(Present(present, Named(name, d))) <==> (present ==> DocOk(d))
    ensures EntriesShaped(Present(present, Named(name, d)))
  {
    hide DocOk, Shape;
    NamedOk(name, d);
  }

  lemma NumberOk(n: int)
    ensures DocOk(DNum(SignedText(n))) && Shape(DNum(SignedText(n)))
  {
    hide SignedText;
    SignedTextIsValid(n);
  }

  lemma {:induction false} StringOk(s: string)
    ensures DocOk(DStr(s)) && Shape(DStr(s)) && DocOk(DNull) && Shape(DNull)
  {
  }

  lemma HeadOk(c: Call, d: Details)
    ensures EntriesOk(HeadEntries(c, d)) && EntriesShaped(HeadEntries(c, d))
  {
    hide FunctionName, SignedText, DocOk, Shape, EntriesOk, EntriesShaped, Named, Text, Present;
    var id, name := Named("call_id", DStr(c.id)), Named("function", DStr(FunctionName(c, d)));
    StringOk(c.id);
    StringOk(FunctionName(c, d));
    StringOk(Text(d.class_));
    StringOk(Text(d.file));
    NumberOk(d.line);
    NamedOk("call_id", DStr(c.id));
    NamedOk("function", DStr(FunctionName(c, d)));
    PresentOk(d.class_.Some?, "class", DStr(Text(d.class_)));
    PresentOk(d.file.Some?, "file", DStr(Text(d.file)));
    PresentOk(d.line > 0, "line", DNum(SignedText(d.line)));
    var x := Present(d.class_.Some?, Named("class", DStr(Text(d.class_))));
    var y := Present(d.file.Some?, Named("file", DStr(Text(d.file))));
    var z := Present(d.line > 0, Named("line", DNum(SignedText(d.line))));
    EntriesConcat([id], [name]);
    EntriesConcat([id] + [name], x);
    EntriesConcat([id] + [name] + x, y);
    EntriesConcat([id] + [name] + x + y, z);
    assert [id] + [name] == [id, name];
  }

  lemma MeasuresOk(c: Call, d: Details)
    ensures EntriesOk(MeasureEntries(c, d)) <==> MilliWidth(Duration(c)) != 62 && MilliWidth(d.cpu) != 62
    ensures EntriesShaped(MeasureEntries(c, d))
  {
    hide ValidNumber, BrokenNumber, SignedText, MilliText, Duration, MilliWidth;
    MilliTextIsValidIff(Duration(c));
    MilliTextIsValidIff(d.cpu);
    SignedTextIsValid(d.memory);
    SignedTextIsValid(d.sent);
    SignedTextIsValid(d.received);
    var e := MeasureEntries(c, d);
    assert EntryOk(e[0]) <==> MilliWidth(Duration(c)) != 62;
    assert EntryOk(e[1]) <==> MilliWidth(d.cpu) != 62;
    assert EntryOk(e[2]) && EntryOk(e[3]) && EntryOk(e[4]);
  }

  lemma LinksOk(c: Call, d: Details)
    ensures EntriesOk(LinkEntries(c, d)) && EntriesShaped(LinkEntries(c, d))
  {
    hide SignedText, DocOk, Shape;
    NumberOk(c.depth);
    NumberOk(d.kind);
    StringOk(Text(c.parent));
    NamedOk("parent_id", ParentDoc(c));
    NamedOk("depth", DNum(SignedText(c.depth)));
    NamedOk("function_type", DNum(SignedText(d.kind)));
  }

  lemma OpsOkIff(name: string, ops: seq<Op>)
    requires Sized(OpsTables(ops))
    ensures EntriesOk(OpsEntry(name, ops)) <==> OpsAcceptable(ops)
    ensures EntriesShaped(OpsEntry(name, ops))
  {
    hide View, Acceptable, OpsTables, Shape, Sized, DocOk, Present;
    ViewShape(OpsTables(ops), ZArray(0), {}, 0);
    ViewOkIff(OpsTables(ops), ZArray(0), {}, 0);
    PresentOk(ops != [], name, OpsDoc(ops));
  }

  lemma AllOpsOkIff(c: Call)
    requires CallSized(c)
    ensures EntriesOk(OpsEntries(c))
       <==> OpsAcceptable(c.sql) && OpsAcceptable(c.http) && OpsAcceptable(c.cache) && OpsAcceptable(c.redis)
    ensures EntriesShaped(OpsEntries(c))
  {
    hide OpsEntry, OpsAcceptable, EntriesOk, EntriesShaped, Sized, OpsTables;
    var a, b := OpsEntry("sql_queries", c.sql), OpsEntry("http_requests", c.http);
    var x, y := OpsEntry("cache_operations", c.cache), OpsEntry("redis_operations", c.redis);
    OpsOkIff("sql_queries", c.sql);
    OpsOkIff("http_requests", c.http);
    OpsOkIff("cache_operations", c.cache);
    OpsOkIff("redis_operations", c.redis);
    EntriesConcat(a, b);
    EntriesConcat(a + b, x);
    EntriesConcat(a + b + x, y);
  }

  lemma ChildrenOk()
    ensures EntriesOk([CHILDREN]) && EntriesShaped([CHILDREN])
  {
  }

  lemma CallOkIff(c: Call, d: Details)
    requires CallSized(c)
    ensures DocOk(CallDoc(c, d)) <==> CallAcceptable(c, d)
    ensures Shape(CallDoc(c, d))
  {
    hide HeadEntries, MeasureEntries, LinkEntries, OpsEntries, OpsAcceptable, CallSized, MilliWidth, EntriesOk;
    hide EntriesShaped, Duration;
    var a, b, x, y := HeadEntries(c, d), MeasureEntries(c, d), LinkEntries(c, d), OpsEntries(c);
    HeadOk(c, d);
    MeasuresOk(c, d);
    LinksOk(c, d);
    AllOpsOkIff(c);
    ChildrenOk();
    EntriesConcat(a, b);
    EntriesConcat(a + b, x);
    EntriesConcat(a + b + x, y);
    EntriesConcat(a + b + x + y, [CHILDREN]);
    MapOkIff(CallEntries(c, d));
  }

  lemma MapOkIff(entries: seq<DEntry>)
    requires entries != []
    ensures DocOk(DMap(entries, None)) <==> EntriesOk(entries)
    ensures Shape(DMap(entries, None)) <==> EntriesShaped(entries)
  {
  }
}
