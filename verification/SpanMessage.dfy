/** The whole text of a span, from its first brace to the newline, and what it decodes to. */
module SpanMessage {
  import opened Seqs
  import opened Json
  import opened JsonRoundTrip
  import opened JsonFragments
  import opened Zval
  import opened ZvalJson
  import opened ZvalNumbers
  import opened Buffer
  import opened ObjectWriter
  import opened CollectorSpec
  import opened Collector
  import opened Aggregate
  import opened Tags
  import opened CallStack
  import opened Received

  /** What is known of a span; absent texts are empty or missing, as the source has them. */
  datatype SpanInfo = SpanInfo(
    traceId: Option<Id>, spanId: Option<Id>, parentId: Option<Id>, service: Option<string>, name: Option<string>,
    startTs: int, endTs: int, cpu: int, status: int,
    language: string, languageVersion: string, framework: string, frameworkVersion: string,
    urlScheme: Option<string>, urlHost: Option<string>, urlPath: Option<string>, dumps: string)

  // ----- members of plain values -----

  datatype Field = TextField(name: string, s: string) | NumberField(name: string, n: int)

  function FieldPart(f: Field): Part {
    match f
    case TextField(name, s) => Part(name, Quote(s))
    case NumberField(name, n) => Part(name, SignedText(n))
  }

  function FieldMember(f: Field): Member {
    match f
    case TextField(name, s) => Member(name, Str(s))
    case NumberField(name, n) => Member(name, Num(SignedText(n)))
  }

  function FieldParts(fields: seq<Field>): (parts: seq<Part>)
    ensures |parts| == |fields|
    ensures forall i :: 0 <= i < |fields| ==> parts[i] == FieldPart(fields[i])
  {
    if fields == [] then [] else [FieldPart(fields[0])] + FieldParts(fields[1..])
  }

  function FieldMembers(fields: seq<Field>): (members: seq<Member>)
    ensures |members| == |fields|
    ensures forall i :: 0 <= i < |fields| ==> members[i] == FieldMember(fields[i])
  {
    if fields == [] then [] else [FieldMember(fields[0])] + FieldMembers(fields[1..])
  }

  function If(present: bool, f: Field): seq<Field> { if present then [f] else [] }

  function Or(s: Option<string>, other: string): string { if s.Some? then s.value else other }

  function IdFields(i: SpanInfo): seq<Field> {
    [TextField("type", "span"), TextField("trace_id", Or(i.traceId, "unknown")),
     TextField("span_id", Or(i.spanId, "unknown"))]
    + If(i.parentId.Some?, TextField("parent_id", Text(i.parentId)))
    + [TextField("service", Or(i.service, "php-fpm")), TextField("name", Or(i.name, "unknown"))]
  }

  function TimeFields(i: SpanInfo): seq<Field> {
    [NumberField("start_ts", i.startTs), NumberField("end_ts", i.endTs),
     NumberField("duration_ms", i.endTs - i.startTs)]
    + If(i.cpu > 0, NumberField("cpu_ms", i.cpu))
    + If(i.status >= 0, TextField("status", if i.status == 1 then "ok" else "error"))
  }

  function MetaFields(i: SpanInfo): seq<Field> {
    If(i.language != "", TextField("language", i.language))
    + If(i.languageVersion != "", TextField("language_version", i.languageVersion))
    + If(i.framework != "", TextField("framework", i.framework))
    + If(i.frameworkVersion != "", TextField("framework_version", i.frameworkVersion))
  }

  function UrlFields(i: SpanInfo): seq<Field> {
    If(i.urlScheme.Some?, TextField("url_scheme", Text(i.urlScheme)))
    + If(i.urlHost.Some?, TextField("url_host", Text(i.urlHost)))
    + If(i.urlPath.Some?, TextField("url_path", Text(i.urlPath)))
  }

  function InfoFields(i: SpanInfo): seq<Field> { IdFields(i) + TimeFields(i) + MetaFields(i) + UrlFields(i) }

  // ----- the network totals -----

  /** A change that is not positive does not count. */
  function Gain(n: int): nat { if n > 0 then n else 0 }

  function SentTotal(calls: seq<Call>, facts: Facts): nat {
    if calls == [] then 0
    else (if calls[0].start > 0 then Gain(facts(calls[0].id).sent) else 0) + SentTotal(calls[1..], facts)
  }

  function ReceivedTotal(calls: seq<Call>, facts: Facts): nat {
    if calls == [] then 0
    else (if calls[0].start > 0 then Gain(facts(calls[0].id).received) else 0) + ReceivedTotal(calls[1..], facts)
  }

  function NetFields(sent: nat, received: nat): seq<Field> {
    [NumberField("bytes_sent", sent), NumberField("bytes_received", received)]
  }

  function NetText(calls: seq<Call>, facts: Facts): string {
    "{" + JoinParts(FieldParts(NetFields(SentTotal(calls, facts), ReceivedTotal(calls, facts)))) + "}"
  }

  // ----- the whole text -----

  /** What the members after the plain ones are written from. */
  datatype Sources = Sources(calls: seq<Call>, facts: Facts, globalSql: seq<Op>, tagsJson: string, system: System)

  function DumpsText(i: SpanInfo): string { if i.dumps != "" then i.dumps else "[]" }

  function AggregateParts(x: Sources): seq<Part> {
    [Part("sql", AggregateText(AllOps(x.calls, KSql) + x.globalSql)),
     Part("http", AggregateText(AllOps(x.calls, KHttp))), Part("cache", AggregateText(AllOps(x.calls, KCache))),
     Part("redis", AggregateText(AllOps(x.calls, KRedis)))]
  }

  function SourceParts(x: Sources): seq<Part> {
    [Part("tags", SpanTags(x.tagsJson, x.system)), Part("net", NetText(x.calls, x.facts))] + AggregateParts(x)
  }

  function LastParts(i: SpanInfo, x: Sources): seq<Part> {
    [Part("dumps", DumpsText(i)), Part("stack", StackText(x.calls, x.facts))]
  }

  function SpanParts(i: SpanInfo, x: Sources): seq<Part> {
    FieldParts(InfoFields(i)) + SourceParts(x) + LastParts(i, x)
  }

  function SpanText(i: SpanInfo, x: Sources): string { "{" + JoinParts(SpanParts(i, x)) + "}" + "\n" }

  // ----- what the text decodes to -----

  /** Everything handed in is absent or well-formed, and everything recorded is acceptable. */
  ghost predicate SourcesOk(i: SpanInfo, x: Sources) {
    && FragmentsOk(x.system) && (i.dumps == "" || WellFormed(i.dumps))
    && OpsSized(AllOps(x.calls, KSql) + x.globalSql) && AllAcceptable(AllOps(x.calls, KSql) + x.globalSql)
    && (forall k :: OpsSized(AllOps(x.calls, k)) && AllAcceptable(AllOps(x.calls, k)))
    && StackSized(x.calls) && StackAcceptable(x.calls, x.facts)
  }

  /** The custom tags are absent, or the text of an object that can be spliced. */
  ghost predicate CustomTags(tagsJson: string, members: seq<Member>) {
    || (tagsJson == "" && members == [])
    || (Decode(tagsJson) == Some(Obj(members)) && Spliceable(tagsJson, members))
  }

  function AggregateMembers(x: Sources): seq<Member> {
    [Member("sql", Arr(OpJsons(AllOps(x.calls, KSql) + x.globalSql))),
     Member("http", Arr(OpJsons(AllOps(x.calls, KHttp)))), Member("cache", Arr(OpJsons(AllOps(x.calls, KCache)))),
     Member("redis", Arr(OpJsons(AllOps(x.calls, KRedis))))]
  }

  function NetMember(x: Sources): Member {
    Member("net", Obj(FieldMembers(NetFields(SentTotal(x.calls, x.facts), ReceivedTotal(x.calls, x.facts)))))
  }

  function DumpsJson(i: SpanInfo): Json
    requires i.dumps == "" || WellFormed(i.dumps)
  {
    if i.dumps != "" then Decode(i.dumps).value else Arr([])
  }

  function StackMember(x: Sources): Member { Member("stack", Arr(StackItems(CallDocs(x.calls, x.facts)))) }

  lemma FieldReads(f: Field)
    ensures Decode(FieldPart(f).text) == Some(FieldMember(f).value) && FieldPart(f).name == FieldMember(f).name
  {
    hide Decode, Quote, SignedText;
    match f {
      case TextField(_, str) => QuotedReads(str);
      case NumberField(_, n) =>
        SignedTextIsValid(n);
        hide ValidNumber;
        DecodePrint(Num(SignedText(n)));
    }
  }

  lemma {:induction false} FieldsRead(fields: seq<Field>)
    ensures AllRead(FieldParts(fields)) && ReadAll(FieldParts(fields)) == FieldMembers(fields)
  {
    hide Decode, FieldPart, FieldMember;
    forall k | 0 <= k < |fields|
      ensures Decode(FieldParts(fields)[k].text) == Some(FieldMember(fields[k]).value)
      ensures FieldParts(fields)[k].name == FieldMember(fields[k]).name
    {
      FieldReads(fields[k]);
    }
    assert AllRead(FieldParts(fields));
    hide AllRead;
    assert forall k :: 0 <= k < |fields| ==> ReadAll(FieldParts(fields))[k] == FieldMembers(fields)[k];
  }

  lemma NetReads(sent: nat, received: nat)
    ensures Decode("{" + JoinParts(FieldParts(NetFields(sent, received))) + "}")
         == Some(Obj(FieldMembers(NetFields(sent, received))))
  {
    hide Decode, FieldParts, FieldMembers, JoinParts, AllRead, ReadAll;
    FieldsRead(NetFields(sent, received));
    DecodeParts(FieldParts(NetFields(sent, received)));
  }

  lemma TagsRead(tagsJson: string, members: seq<Member>, s: System)
    requires FragmentsOk(s) && CustomTags(tagsJson, members)
    ensures AllRead(SystemParts(s)) && Decode(SpanTags(tagsJson, s)) == Some(Obj(members + ReadAll(SystemParts(s))))
  {
    hide Decode, SystemParts, AllRead, Body, JoinParts, Spliceable, FragmentsOk;
    SystemPartsRead(s);
    SystemNotEmpty(s);
    if tagsJson == "" && members == [] {
      BodyAlone(SystemParts(s));
      DecodeParts(SystemParts(s));
      assert [] + ReadAll(SystemParts(s)) == ReadAll(SystemParts(s));
    } else {
      hide Stripped;
      SpliceIff(tagsJson, members, SystemParts(s));
    }
  }

  lemma OneReads(p: Part, j: Json)
    requires Decode(p.text) == Some(j)
    ensures AllRead([p]) && ReadAll([p]) == [Member(p.name, j)]
  {
    hide Decode;
  }

  lemma {:induction false} ReadAllConcat(a: seq<Part>, b: seq<Part>)
    requires AllRead(a) && AllRead(b)
    ensures AllRead(a + b) && ReadAll(a + b) == ReadAll(a) + ReadAll(b)
  {
    hide WellFormed, ReadMember;
    AllReadConcat(a, b);
  }

  lemma {:induction false} AggregateReads(ops: seq<Op>)
    requires OpsSized(ops) && AllAcceptable(ops)
    ensures Decode(AggregateText(ops)) == Some(Arr(OpJsons(ops)))
  {
    hide OpsSized, AllAcceptable, Decode, AggregateText, OpJsons, OpDoc;
    AggregateWellFormedIff(ops);
  }

  lemma TwoRead(p: Part, q: Part, j: Json, k: Json)
    requires Decode(p.text) == Some(j) && Decode(q.text) == Some(k)
    ensures AllRead([p, q]) && ReadAll([p, q]) == [Member(p.name, j), Member(q.name, k)]
  {
    hide Decode, AllRead, ReadAll;
    OneReads(p, j);
    OneReads(q, k);
    ReadAllConcat([p], [q]);
    assert [p] + [q] == [p, q];
  }

  lemma {:induction false} AggregatesRead(i: SpanInfo, x: Sources)
    requires SourcesOk(i, x)
    ensures AllRead(AggregateParts(x)) && ReadAll(AggregateParts(x)) == AggregateMembers(x)
  {
    hide Decode, OpsSized, AllAcceptable, AllOps, StackSized, StackAcceptable, FragmentsOk, OpJsons, AggregateText;
    hide AllRead, ReadAll;
    AggregateReads(AllOps(x.calls, KSql) + x.globalSql);
    AggregateReads(AllOps(x.calls, KHttp));
    AggregateReads(AllOps(x.calls, KCache));
    AggregateReads(AllOps(x.calls, KRedis));
    hide SourcesOk;
    var p, m := AggregateParts(x), AggregateMembers(x);
    TwoRead(p[0], p[1], m[0].value, m[1].value);
    TwoRead(p[2], p[3], m[2].value, m[3].value);
    ReadAllConcat([p[0], p[1]], [p[2], p[3]]);
    assert [p[0], p[1]] + [p[2], p[3]] == p;
    assert [m[0], m[1]] + [m[2], m[3]] == m;
  }

  lemma {:induction false} SourcesRead(i: SpanInfo, x: Sources, custom: seq<Member>)
    requires SourcesOk(i, x) && CustomTags(x.tagsJson, custom)
    ensures AllRead(SystemParts(x.system)) && AllRead(SourceParts(x))
    ensures ReadAll(SourceParts(x))
         == [Member("tags", Obj(custom + ReadAll(SystemParts(x.system)))), NetMember(x)] + AggregateMembers(x)
  {
    hide Decode, OpsSized, AllAcceptable, AllOps, StackSized, StackAcceptable, FragmentsOk, CustomTags, OpJsons;
    hide SpanTags, AllRead, ReadAll, FieldMembers, NetFields, SentTotal, ReceivedTotal, AggregateMembers;
    hide AggregateParts;
    TagsRead(x.tagsJson, custom, x.system);
    AggregatesRead(i, x);
    hide SystemParts, SourcesOk;
    NetReads(SentTotal(x.calls, x.facts), ReceivedTotal(x.calls, x.facts));
    var tags, net := Part("tags", SpanTags(x.tagsJson, x.system)), Part("net", NetText(x.calls, x.facts));
    TwoRead(tags, net, Obj(custom + ReadAll(SystemParts(x.system))), NetMember(x).value);
    ReadAllConcat([tags, net], AggregateParts(x));
  }

  lemma LastRead(i: SpanInfo, x: Sources)
    requires SourcesOk(i, x)
    ensures AllRead(LastParts(i, x))
    ensures ReadAll(LastParts(i, x)) == [Member("dumps", DumpsJson(i)), StackMember(x)]
  {
    hide Decode, OpsSized, AllAcceptable, AllOps, StackSized, StackAcceptable, FragmentsOk, StackText, CallDocs;
    EmptyArrayReads();
    StackWellFormedIff(x.calls, x.facts);
    TwoRead(LastParts(i, x)[0], LastParts(i, x)[1], DumpsJson(i), StackMember(x).value);
  }

  lemma EmptyArrayReads()
    ensures Decode("[]") == Some(Arr([]))
  {
    hide Decode;
    DecodePrint(Arr([]));
    assert Print(Arr([])) == "[" + "" + "]" == "[]";
  }

  lemma {:induction false} NewlineReads(t: string, j: Json)
    requires Decode(t) == Some(j)
    ensures Decode(t + "\n") == Some(j)
  {
    hide ParseValue;
    ParseValueExtend(t, "\n");
    var rest := ParseValue(t).rest;
    SkipWsBefore(rest, "");
    BlankLine(rest);
  }

  lemma {:induction false} BlankLine(w: string)
    requires SkipWs(w) == ""
    ensures SkipWs(w + "\n") == ""
  {
    if w != "" {
      BlankLine(w[1..]);
      assert (w + "\n")[1..] == w[1..] + "\n";
    } else {
      assert w + "\n" == "\n" && "\n"[1..] == "";
    }
  }

  function SpanMembers(i: SpanInfo, x: Sources, custom: seq<Member>): seq<Member>
    requires AllRead(SystemParts(x.system)) && (i.dumps == "" || WellFormed(i.dumps))
  {
    FieldMembers(InfoFields(i))
    + ([Member("tags", Obj(custom + ReadAll(SystemParts(x.system)))), NetMember(x)] + AggregateMembers(x))
    + [Member("dumps", DumpsJson(i)), StackMember(x)]
  }

  /** If everything handed in is well-formed and everything recorded acceptable, the text of
      a span decodes to one object: its own members, the custom and the system tags, the
      network totals, every recorded operation by kind, the dumps and every call. */
  lemma {:induction false} SpanDecodes(i: SpanInfo, x: Sources, custom: seq<Member>)
    requires SourcesOk(i, x) && CustomTags(x.tagsJson, custom)
    ensures AllRead(SystemParts(x.system)) && (i.dumps == "" || WellFormed(i.dumps))
    ensures Decode(SpanText(i, x)) == Some(Obj(SpanMembers(i, x, custom)))
  {
    hide Decode, SourcesOk, CustomTags, SystemParts, AllRead, ReadAll, FieldParts, InfoFields, SourceParts, LastParts;
    hide AggregateMembers, NetMember, StackMember, DumpsJson, JoinParts, FieldMembers;
    StackIsOk(i, x);
    FieldsRead(InfoFields(i));
    SourcesRead(i, x, custom);
    LastRead(i, x);
    ReadAllConcat(FieldParts(InfoFields(i)), SourceParts(x));
    ReadAllConcat(FieldParts(InfoFields(i)) + SourceParts(x), LastParts(i, x));
    SomeParts(i, x);
    DecodeParts(SpanParts(i, x));
    NewlineReads("{" + JoinParts(SpanParts(i, x)) + "}", Obj(ReadAll(SpanParts(i, x))));
  }

  lemma SomeParts(i: SpanInfo, x: Sources)
    ensures SpanParts(i, x) != []
  {
    hide SpanTags, NetText, AggregateText, StackText, FieldParts;
  }

  /** The span of any run: its text decodes, its operations of each kind are those recorded
      since the last start, and its stack names every call once. */
  lemma {:induction false} SpanOfRun(enabled: bool, run: seq<Event>, i: SpanInfo, x: Sources, custom: seq<Member>)
    requires ValidRun(Initial(enabled), run) && x.calls == Final(Initial(enabled), run).calls
    requires SourcesOk(i, x) && CustomTags(x.tagsJson, custom)
    requires forall k :: 0 <= k < |x.calls| ==> Generated(x.calls[k].id)
    ensures AllRead(SystemParts(x.system)) && (i.dumps == "" || WellFormed(i.dumps))
    ensures Decode(SpanText(i, x)) == Some(Obj(SpanMembers(i, x, custom)))
    ensures forall kind ::
              multiset(OpJsons(AllOps(x.calls, kind)))
              == multiset(OpJsons(RunLog(Initial(enabled), kind, [], run)))
    ensures var calls := ReadCalls(StackItems(CallDocs(x.calls, x.facts)));
            Ids(calls) == Ids(x.calls) && NoDup(Ids(calls))
  {
    hide *;
    SpanDecodes(i, x, custom);
    StackIsOk(i, x);
    NothingLostAtShutdown(enabled, run, x.facts);
    forall kind
      ensures multiset(OpJsons(AllOps(x.calls, kind))) == multiset(OpJsons(RunLog(Initial(enabled), kind, [], run)))
    {
      AggregateConserves(enabled, kind, run);
      OpJsonsPermute(AllOps(x.calls, kind), RunLog(Initial(enabled), kind, [], run));
    }
  }

  lemma StackIsOk(i: SpanInfo, x: Sources)
    requires SourcesOk(i, x)
    ensures StackSized(x.calls) && StackAcceptable(x.calls, x.facts) && (i.dumps == "" || WellFormed(i.dumps))
  {
  }

  // ----- writing it -----

  /** Ids are generated where they are given at all. */
  predicate InfoIds(i: SpanInfo) {
    && (i.traceId.Some? ==> Generated(i.traceId.value)) && (i.spanId.Some? ==> Generated(i.spanId.value))
    && (i.parentId.Some? ==> Generated(i.parentId.value))
  }

  /** The fields written so far, after what was there before. */
  ghost predicate Wrote(w: Writer, before: seq<Part>, fields: seq<Field>)
    reads w, w.buf, w.buf.data
  {
    w.Valid() && w.content == "" && w.parts == before + FieldParts(fields)
  }

  lemma {:induction false} FieldsSnoc(before: seq<Part>, fields: seq<Field>, f: Field)
    ensures before + FieldParts(fields) + [FieldPart(f)] == before + FieldParts(fields + [f])
  {
    hide FieldPart;
  }

  method AddField(w: Writer, f: Field, ghost before: seq<Part>, ghost fields: seq<Field>)
    requires Wrote(w, before, fields)
    modifies w, w.buf, w.buf.data
    ensures Wrote(w, before, fields + [f]) && (w.buf.data == old(w.buf.data) || fresh(w.buf.data))
  {
    hide Writer.Valid, JsonBuffer.Valid, JsonBuffer.Contents, Quote, SignedText, FieldParts;
    FieldsSnoc(before, fields, f);
    match f {
      case TextField(name, str) => w.AddQuoted(name, str);
      case NumberField(name, n) => w.Add(Part(name, SignedText(n)));
    }
  }

  method AddFieldIf(w: Writer, present: bool, f: Field, ghost before: seq<Part>, ghost fields: seq<Field>)
    requires Wrote(w, before, fields)
    modifies w, w.buf, w.buf.data
    ensures Wrote(w, before, fields + If(present, f)) && (w.buf.data == old(w.buf.data) || fresh(w.buf.data))
  {
    hide Wrote;
    assert present ==> If(present, f) == [f];
    assert !present ==> fields + If(present, f) == fields;
    if present {
      AddField(w, f, before, fields);
    }
  }

  /** An id, or a fixed text for a missing one, written as it is. */
  method AddId(w: Writer, name: string, id: Option<Id>, ghost before: seq<Part>, ghost fields: seq<Field>)
    requires Wrote(w, before, fields) && (id.Some? ==> Generated(id.value))
    modifies w, w.buf, w.buf.data
    ensures Wrote(w, before, fields + [TextField(name, Or(id, "unknown"))])
    ensures w.buf.data == old(w.buf.data) || fresh(w.buf.data)
  {
    hide Writer.Valid, JsonBuffer.Valid, JsonBuffer.Contents, Quote, FieldParts, Generated;
    FieldsSnoc(before, fields, TextField(name, Or(id, "unknown")));
    if id.Some? {
      AppendId(w, name, id.value);
    } else {
      QuotePlain("unknown");
      w.Add(Part(name, QUOTE + "unknown" + QUOTE));
    }
  }

  method AppendIdFields(w: Writer, i: SpanInfo, ghost before: seq<Part>)
    requires Wrote(w, before, []) && InfoIds(i)
    modifies w, w.buf, w.buf.data
    ensures Wrote(w, before, IdFields(i)) && (w.buf.data == old(w.buf.data) || fresh(w.buf.data))
  {
    hide Wrote, If, Or, Generated;
    ghost var a, b, c := TextField("type", "span"), TextField("trace_id", Or(i.traceId, "unknown")),
        TextField("span_id", Or(i.spanId, "unknown"));
    AddField(w, TextField("type", "span"), before, []);
    AddId(w, "trace_id", i.traceId, before, [] + [a]);
    AddId(w, "span_id", i.spanId, before, [] + [a] + [b]);
    ghost var ids := [] + [a] + [b] + [c];
    AddParent(w, i, before, ids);
    ids := ids + If(i.parentId.Some?, TextField("parent_id", Text(i.parentId)));
    AddField(w, TextField("service", Or(i.service, "php-fpm")), before, ids);
    ids := ids + [TextField("service", Or(i.service, "php-fpm"))];
    AddField(w, TextField("name", Or(i.name, "unknown")), before, ids);
    assert ids + [TextField("name", Or(i.name, "unknown"))] == IdFields(i);
  }

  method AddParent(w: Writer, i: SpanInfo, ghost before: seq<Part>, ghost fields: seq<Field>)
    requires Wrote(w, before, fields) && InfoIds(i)
    modifies w, w.buf, w.buf.data
    ensures Wrote(w, before, fields + If(i.parentId.Some?, TextField("parent_id", Text(i.parentId))))
    ensures w.buf.data == old(w.buf.data) || fresh(w.buf.data)
  {
    hide Wrote, Generated;
    if i.parentId.Some? {
      AddId(w, "parent_id", i.parentId, before, fields);
    } else {
      assert fields + [] == fields;
    }
  }

  method AppendTimeFields(w: Writer, i: SpanInfo, ghost before: seq<Part>)
    requires Wrote(w, before, [])
    modifies w, w.buf, w.buf.data
    ensures Wrote(w, before, TimeFields(i)) && (w.buf.data == old(w.buf.data) || fresh(w.buf.data))
  {
    hide Wrote, If;
    ghost var a, b, c := NumberField("start_ts", i.startTs), NumberField("end_ts", i.endTs),
        NumberField("duration_ms", i.endTs - i.startTs);
    AddField(w, NumberField("start_ts", i.startTs), before, []);
    AddField(w, NumberField("end_ts", i.endTs), before, [] + [a]);
    AddField(w, NumberField("duration_ms", i.endTs - i.startTs), before, [] + [a] + [b]);
    ghost var times := [] + [a] + [b] + [c];
    AddFieldIf(w, i.cpu > 0, NumberField("cpu_ms", i.cpu), before, times);
    times := times + If(i.cpu > 0, NumberField("cpu_ms", i.cpu));
    AddFieldIf(w, i.status >= 0, TextField("status", if i.status == 1 then "ok" else "error"), before, times);
    assert times + If(i.status >= 0, TextField("status", if i.status == 1 then "ok" else "error")) == TimeFields(i);
  }

  method AppendMetaFields(w: Writer, i: SpanInfo, ghost before: seq<Part>)
    requires Wrote(w, before, [])
    modifies w, w.buf, w.buf.data
    ensures Wrote(w, before, MetaFields(i)) && (w.buf.data == old(w.buf.data) || fresh(w.buf.data))
  {
    hide Wrote, If, MetaFields;
    ghost var a, b := TextField("language", i.language), TextField("language_version", i.languageVersion);
    ghost var c, d := TextField("framework", i.framework), TextField("framework_version", i.frameworkVersion);
    AddFieldIf(w, i.language != "", TextField("language", i.language), before, []);
    ghost var meta := [] + If(i.language != "", a);
    AddFieldIf(w, i.languageVersion != "", TextField("language_version", i.languageVersion), before, meta);
    meta := meta + If(i.languageVersion != "", b);
    AddFieldIf(w, i.framework != "", TextField("framework", i.framework), before, meta);
    meta := meta + If(i.framework != "", c);
    AddFieldIf(w, i.frameworkVersion != "", TextField("framework_version", i.frameworkVersion), before, meta);
    MetaFieldsAre(i);
  }

  lemma MetaFieldsAre(i: SpanInfo)
    ensures MetaFields(i)
         == [] + If(i.language != "", TextField("language", i.language))
            + If(i.languageVersion != "", TextField("language_version", i.languageVersion))
            + If(i.framework != "", TextField("framework", i.framework))
            + If(i.frameworkVersion != "", TextField("framework_version", i.frameworkVersion))
  {
    hide If;
    assert [] + If(i.language != "", TextField("language", i.language))
        == If(i.language != "", TextField("language", i.language));
  }

  method AppendUrlFields(w: Writer, i: SpanInfo, ghost before: seq<Part>)
    requires Wrote(w, before, [])
    modifies w, w.buf, w.buf.data
    ensures Wrote(w, before, UrlFields(i)) && (w.buf.data == old(w.buf.data) || fresh(w.buf.data))
  {
    hide Wrote, If, Text;
    AddFieldIf(w, i.urlScheme.Some?, TextField("url_scheme", Text(i.urlScheme)), before, []);
    ghost var url := [] + If(i.urlScheme.Some?, TextField("url_scheme", Text(i.urlScheme)));
    AddFieldIf(w, i.urlHost.Some?, TextField("url_host", Text(i.urlHost)), before, url);
    url := url + If(i.urlHost.Some?, TextField("url_host", Text(i.urlHost)));
    AddFieldIf(w, i.urlPath.Some?, TextField("url_path", Text(i.urlPath)), before, url);
    assert url + If(i.urlPath.Some?, TextField("url_path", Text(i.urlPath))) == UrlFields(i);
  }

  lemma {:induction false} FieldPartsConcat(a: seq<Field>, b: seq<Field>)
    ensures FieldParts(a + b) == FieldParts(a) + FieldParts(b)
  {
    hide FieldPart;
  }

  lemma Wrote0(w: Writer)
    requires w.Valid() && w.content == ""
    ensures Wrote(w, w.parts, [])
  {
    assert w.parts + [] == w.parts;
  }

  /** All members of plain values. */
  method AppendInfo(w: Writer, i: SpanInfo)
    requires w.Valid() && w.content == "" && w.parts == [] && InfoIds(i)
    modifies w, w.buf, w.buf.data
    ensures w.Valid() && w.content == "" && w.parts == FieldParts(InfoFields(i))
    ensures w.buf.data == old(w.buf.data) || fresh(w.buf.data)
  {
    hide IdFields, TimeFields, MetaFields, UrlFields, FieldParts, Writer.Valid, JsonBuffer.Valid;
    Wrote0(w);
    AppendIdFields(w, i, w.parts);
    ghost var a := FieldParts(IdFields(i));
    assert [] + a == a;
    Wrote0(w);
    AppendTimeFields(w, i, w.parts);
    FieldPartsConcat(IdFields(i), TimeFields(i));
    Wrote0(w);
    AppendMetaFields(w, i, w.parts);
    FieldPartsConcat(IdFields(i) + TimeFields(i), MetaFields(i));
    Wrote0(w);
    AppendUrlFields(w, i, w.parts);
    FieldPartsConcat(IdFields(i) + TimeFields(i) + MetaFields(i), UrlFields(i));
  }

  // ----- the members written by other components -----

  lemma Begun(w: Writer, name: string)
    requires w.Inside(name, "")
    ensures w.buf.Valid() && w.first == (w.content == "" && w.parts == [])
    ensures w.buf.Contents()
         == w.start + (Body(w.content, w.parts) + ((if w.first then "" else ",") + (Quote(name) + ":" + "")))
  {
  }

  /** A member of which another component has appended the value. */
  lemma Appended(w: Writer, name: string, before: string, text: string)
    requires w.buf.Valid() && w.first == (w.content == "" && w.parts == [])
    requires before == w.start + (Body(w.content, w.parts) + ((if w.first then "" else ",") + (Quote(name) + ":" + "")))
    requires w.buf.Contents() == before + text
    ensures w.Inside(name, text)
  {
    hide Body, Quote, JsonBuffer.Valid, JsonBuffer.Contents;
    Grown(w.start, Body(w.content, w.parts), if w.first then "" else ",", Quote(name) + ":", "", text);
    assert "" + text == text;
  }

  method AddTags(w: Writer, tagsJson: string, system: System)
    requires w.Valid()
    modifies w, w.buf, w.buf.data
    ensures w.Valid() && w.content == old(w.content)
    ensures w.parts == old(w.parts) + [Part("tags", SpanTags(tagsJson, system))]
    ensures w.buf.data == old(w.buf.data) || fresh(w.buf.data)
  {
    hide *;
    w.Begin("tags");
    Begun(w, "tags");
    ghost var before := w.buf.Contents();
    AppendSpanTags(w.buf, tagsJson, system);
    Appended(w, "tags", before, SpanTags(tagsJson, system));
    w.End("tags", SpanTags(tagsJson, system));
  }

  method AddNet(w: Writer, p: Profiler, facts: Facts)
    requires w.Valid() && p.Valid()
    modifies w, w.buf, w.buf.data
    ensures w.Valid() && w.content == old(w.content) && p.Valid() && Recs(p.list) == old(Recs(p.list))
    ensures w.parts == old(w.parts) + [Part("net", NetText(Recs(p.list), facts))]
    ensures w.buf.data == old(w.buf.data) || fresh(w.buf.data)
  {
    hide Writer.Valid, JsonBuffer.Valid, JsonBuffer.Contents, Recs, Profiler.Valid;
    hide FieldParts, JoinParts, NetFields, SentTotal, ReceivedTotal;
    var sent, received := AggregateNetworkBytes(p, facts);
    AddTotals(w, sent, received);
  }

  method AddTotals(w: Writer, sent: nat, received: nat)
    requires w.Valid()
    modifies w, w.buf, w.buf.data
    ensures w.Valid() && w.content == old(w.content)
    ensures w.parts == old(w.parts)
                       + [Part("net", "{" + JoinParts(FieldParts(NetFields(sent, received))) + "}")]
    ensures w.buf.data == old(w.buf.data) || fresh(w.buf.data)
  {
    hide *;
    w.Begin("net");
    Begun(w, "net");
    ghost var before, text := w.buf.Contents(), "{" + JoinParts(FieldParts(NetFields(sent, received))) + "}";
    AppendNet(w.buf, sent, received);
    Appended(w, "net", before, text);
    w.End("net", text);
  }

  method AppendNet(buf: JsonBuffer, sent: nat, received: nat)
    requires buf.Valid()
    modifies buf, buf.data
    ensures buf.Valid() && (buf.data == old(buf.data) || fresh(buf.data))
    ensures buf.Contents() == old(buf.Contents()) + ("{" + JoinParts(FieldParts(NetFields(sent, received))) + "}")
  {
    hide JsonBuffer.Valid, JsonBuffer.Contents, Writer.Valid, Body, JoinParts, FieldParts;
    ghost var start, a := buf.Contents(), NumberField("bytes_sent", sent);
    buf.Append("{");
    var w := new Writer(buf);
    Wrote0(w);
    AddField(w, NumberField("bytes_sent", sent), [], []);
    AddField(w, NumberField("bytes_received", received), [], [] + [a]);
    assert [] + [a] + [NumberField("bytes_received", received)] == NetFields(sent, received);
    ghost var body := JoinParts(FieldParts(NetFields(sent, received)));
    assert [] + FieldParts(NetFields(sent, received)) == FieldParts(NetFields(sent, received));
    WriterHolds(w);
    buf.Append("}");
    assert start + "{" + body + "}" == start + ("{" + body + "}");
  }

  lemma {:induction false} TotalsFrom(calls: seq<Call>, facts: Facts, i: nat)
    requires i < |calls|
    ensures SentTotal(calls[i..], facts)
         == (if calls[i].start > 0 then Gain(facts(calls[i].id).sent) else 0) + SentTotal(calls[i + 1..], facts)
    ensures ReceivedTotal(calls[i..], facts)
         == (if calls[i].start > 0 then Gain(facts(calls[i].id).received) else 0) + ReceivedTotal(calls[i + 1..], facts)
  {
    assert calls[i..][1..] == calls[i + 1..];
  }

  /** The totals over the call list. */
  method AggregateNetworkBytes(p: Profiler, facts: Facts) returns (sent: nat, received: nat)
    requires p.Valid()
    ensures sent == SentTotal(Recs(p.list), facts) && received == ReceivedTotal(Recs(p.list), facts)
  {
    hide Recs, SentTotal, ReceivedTotal, Profiler.Valid;
    ghost var recs, i := Recs(p.list), 0;
    assert recs[0..] == recs;
    FirstCall(p);
    sent, received := 0, 0;
    var call := p.calls;
    while call != null
      invariant i <= |p.list| && call == if i < |p.list| then p.list[i] else null
      invariant sent + SentTotal(recs[i..], facts) == SentTotal(recs, facts)
      invariant received + ReceivedTotal(recs[i..], facts) == ReceivedTotal(recs, facts)
      decreases |p.list| - i
    {
      assert recs[i] == call.Rec();
      TotalsFrom(recs, facts, i);
      NextCall(p, i);
      if call.startTime > 0 {
        var d := facts(call.callId);
        if d.sent > 0 {
          sent := sent + d.sent;
        }
        if d.received > 0 {
          received := received + d.received;
        }
      }
      call, i := call.next, i + 1;
    }
    assert recs[|recs|..] == [];
    NoTotals(facts);
  }

  lemma NoTotals(facts: Facts)
    ensures SentTotal([], facts) == 0 && ReceivedTotal([], facts) == 0
  {
  }

  method AddQueries(w: Writer, p: Profiler, globalSql: seq<Op>)
    requires w.Valid() && p.Valid()
    modifies w, w.buf, w.buf.data
    ensures w.Valid() && w.content == old(w.content) && p.Valid() && Recs(p.list) == old(Recs(p.list))
    ensures w.parts == old(w.parts) + [Part("sql", AggregateText(AllOps(Recs(p.list), KSql) + globalSql))]
    ensures w.buf.data == old(w.buf.data) || fresh(w.buf.data)
  {
    hide *;
    w.Begin("sql");
    Begun(w, "sql");
    ghost var before, text := w.buf.Contents(), AggregateText(AllOps(Recs(p.list), KSql) + globalSql);
    var _ := AggregateSqlQueries(p, w.buf, globalSql);
    Appended(w, "sql", before, text);
    w.End("sql", text);
  }

  method AddOperations(w: Writer, name: string, p: Profiler, kind: Kind)
    requires w.Valid() && p.Valid()
    modifies w, w.buf, w.buf.data
    ensures w.Valid() && w.content == old(w.content) && p.Valid() && Recs(p.list) == old(Recs(p.list))
    ensures w.parts == old(w.parts) + [Part(name, AggregateText(AllOps(Recs(p.list), kind)))]
    ensures w.buf.data == old(w.buf.data) || fresh(w.buf.data)
  {
    hide *;
    w.Begin(name);
    Begun(w, name);
    ghost var before, text := w.buf.Contents(), AggregateText(AllOps(Recs(p.list), kind));
    var _ := AggregateFromCalls(p, w.buf, kind);
    Appended(w, name, before, text);
    w.End(name, text);
  }

  method AddStack(w: Writer, p: Profiler, facts: Facts)
    requires w.Valid() && p.Valid() && GeneratedIds(Recs(p.list))
    modifies w, w.buf, w.buf.data
    ensures w.Valid() && w.content == old(w.content) && p.Valid() && Recs(p.list) == old(Recs(p.list))
    ensures w.parts == old(w.parts) + [Part("stack", StackText(Recs(p.list), facts))]
    ensures w.buf.data == old(w.buf.data) || fresh(w.buf.data)
  {
    hide *;
    w.Begin("stack");
    Begun(w, "stack");
    ghost var before, text := w.buf.Contents(), StackText(Recs(p.list), facts);
    SerializeCallStack(p, w.buf, facts);
    Appended(w, "stack", before, text);
    w.End("stack", text);
  }

  method AddSources(w: Writer, p: Profiler, facts: Facts, globalSql: seq<Op>, tagsJson: string, system: System)
    requires w.Valid() && p.Valid()
    modifies w, w.buf, w.buf.data
    ensures w.Valid() && w.content == old(w.content) && p.Valid() && Recs(p.list) == old(Recs(p.list))
    ensures w.parts == old(w.parts) + SourceParts(Sources(Recs(p.list), facts, globalSql, tagsJson, system))
    ensures w.buf.data == old(w.buf.data) || fresh(w.buf.data)
  {
    hide *;
    ghost var x := Sources(Recs(p.list), facts, globalSql, tagsJson, system);
    ghost var start := w.parts;
    AddTags(w, tagsJson, system);
    AddNet(w, p, facts);
    AddAggregates(w, p, globalSql, facts, tagsJson, system);
    SourcesAppended(start, x);
  }

  method AddAggregates(w: Writer, p: Profiler, globalSql: seq<Op>, ghost facts: Facts, ghost tagsJson: string,
        ghost system: System)
    requires w.Valid() && p.Valid()
    modifies w, w.buf, w.buf.data
    ensures w.Valid() && w.content == old(w.content) && p.Valid() && Recs(p.list) == old(Recs(p.list))
    ensures w.parts == old(w.parts) + AggregateParts(Sources(Recs(p.list), facts, globalSql, tagsJson, system))
    ensures w.buf.data == old(w.buf.data) || fresh(w.buf.data)
  {
    hide *;
    ghost var x := Sources(Recs(p.list), facts, globalSql, tagsJson, system);
    ghost var start := w.parts;
    AddQueries(w, p, globalSql);
    AddOperations(w, "http", p, KHttp);
    AddOperations(w, "cache", p, KCache);
    AddOperations(w, "redis", p, KRedis);
    AggregatesAppended(start, x);
  }

  lemma AggregatesAppended(start: seq<Part>, x: Sources)
    ensures start + [Part("sql", AggregateText(AllOps(x.calls, KSql) + x.globalSql))]
            + [Part("http", AggregateText(AllOps(x.calls, KHttp)))]
            + [Part("cache", AggregateText(AllOps(x.calls, KCache)))]
            + [Part("redis", AggregateText(AllOps(x.calls, KRedis)))]
         == start + AggregateParts(x)
  {
    hide AggregateText, AllOps;
  }

  lemma SourcesAppended(start: seq<Part>, x: Sources)
    ensures start + [Part("tags", SpanTags(x.tagsJson, x.system))] + [Part("net", NetText(x.calls, x.facts))]
            + AggregateParts(x)
         == start + SourceParts(x)
  {
    hide AggregateParts, SpanTags, NetText;
    var a, b := Part("tags", SpanTags(x.tagsJson, x.system)), Part("net", NetText(x.calls, x.facts));
    assert [a] + [b] == [a, b];
    RegroupFour(start, [a], [b], AggregateParts(x));
  }

  method AddLast(w: Writer, p: Profiler, i: SpanInfo, facts: Facts, ghost globalSql: seq<Op>, ghost tagsJson: string,
        ghost system: System)
    requires w.Valid() && p.Valid() && GeneratedIds(Recs(p.list))
    modifies w, w.buf, w.buf.data
    ensures w.Valid() && w.content == old(w.content) && p.Valid() && Recs(p.list) == old(Recs(p.list))
    ensures w.parts == old(w.parts) + LastParts(i, Sources(Recs(p.list), facts, globalSql, tagsJson, system))
    ensures w.buf.data == old(w.buf.data) || fresh(w.buf.data)
  {
    hide Writer.Valid, JsonBuffer.Valid, JsonBuffer.Contents, Recs, Profiler.Valid, StackText, GeneratedIds;
    w.Add(Part("dumps", DumpsText(i)));
    AddStack(w, p, facts);
  }

  /** All members of a span. */
  method AddMembers(w: Writer, p: Profiler, i: SpanInfo, facts: Facts, globalSql: seq<Op>, tagsJson: string,
        system: System)
    requires w.Valid() && w.content == "" && w.parts == []
    requires p.Valid() && GeneratedIds(Recs(p.list)) && InfoIds(i)
    modifies w, w.buf, w.buf.data
    ensures w.Valid() && w.content == "" && p.Valid() && Recs(p.list) == old(Recs(p.list))
    ensures w.parts == SpanParts(i, Sources(Recs(p.list), facts, globalSql, tagsJson, system))
    ensures w.buf.data == old(w.buf.data) || fresh(w.buf.data)
  {
    hide Writer.Valid, JsonBuffer.Valid, JsonBuffer.Contents, Recs, Profiler.Valid, GeneratedIds, InfoIds;
    hide SourceParts, LastParts, FieldParts, InfoFields;
    ghost var recs := Recs(p.list);
    AppendInfo(w, i);
    assert p.Valid() && Recs(p.list) == recs;
    AddSources(w, p, facts, globalSql, tagsJson, system);
    AddLast(w, p, i, facts, globalSql, tagsJson, system);
  }

  /** The text of a span. */
  method ProduceSpanJson(p: Profiler, i: SpanInfo, facts: Facts, globalSql: seq<Op>, tagsJson: string, system: System)
    returns (text: string)
    requires p.Valid() && GeneratedIds(Recs(p.list)) && InfoIds(i)
    ensures text == SpanText(i, Sources(Recs(p.list), facts, globalSql, tagsJson, system))
  {
    hide *;
    var buf := new JsonBuffer();
    ghost var recs := Recs(p.list);
    buf.Append("{");
    var w := new Writer(buf);
    assert p.Valid() && GeneratedIds(Recs(p.list));
    AddMembers(w, p, i, facts, globalSql, tagsJson, system);
    ghost var x := Sources(recs, facts, globalSql, tagsJson, system);
    text := Closed(w, SpanParts(i, x));
    SpanTextIs(i, x);
  }

  /** The text in the buffer, with the closing brace and the newline. */
  method Closed(w: Writer, ghost parts: seq<Part>) returns (text: string)
    requires w.Valid() && w.content == "" && w.parts == parts
    modifies w.buf, w.buf.data
    ensures text == w.start + JoinParts(parts) + "}\n"
  {
    hide Writer.Valid, JsonBuffer.Valid, JsonBuffer.Contents, JoinParts;
    WriterHolds(w);
    w.buf.Append("}\n");
    text := Taken(w.buf);
  }

  lemma SpanTextIs(i: SpanInfo, x: Sources)
    ensures "" + "{" + JoinParts(SpanParts(i, x)) + "}\n" == SpanText(i, x)
  {
    hide JoinParts, SpanParts;
    var body := JoinParts(SpanParts(i, x));
    assert "" + "{" + body + "}\n" == "{" + body + "}" + "\n";
  }
}
