/** What the object of a span tells a receiver, member by member. */
module SpanLookup {
  import opened Seqs
  import opened Json
  import opened JsonFragments
  import opened Lookup
  import opened ObjectWriter
  import opened Zval
  import opened CollectorSpec
  import opened Aggregate
  import opened Tags
  import opened CallStack
  import opened Received
  import opened CallMembers
  import opened SpanMessage

  function NonEmpty(s: string): Option<Json> { if s != "" then Some(Str(s)) else None }

  /** The span itself: what it is, when it ran and where it belongs. */
  predicate TellsSpan(members: seq<Member>, i: SpanInfo) {
    && MemberValue(members, "type") == Some(Str("span"))
    && MemberValue(members, "trace_id") == Some(Str(if i.traceId.Some? then i.traceId.value else "unknown"))
    && MemberValue(members, "span_id") == Some(Str(if i.spanId.Some? then i.spanId.value else "unknown"))
    && MemberValue(members, "parent_id") == Optional(i.parentId)
    && MemberValue(members, "service") == Some(Str(if i.service.Some? then i.service.value else "php-fpm"))
    && MemberValue(members, "name") == Some(Str(if i.name.Some? then i.name.value else "unknown"))
    && HasNumber(members, "start_ts", i.startTs)
    && HasNumber(members, "end_ts", i.endTs)
    && HasNumber(members, "duration_ms", i.endTs - i.startTs)
    && (if i.cpu > 0 then HasNumber(members, "cpu_ms", i.cpu) else MemberValue(members, "cpu_ms").None?)
    && MemberValue(members, "status")
       == (if i.status < 0 then None else if i.status == 1 then Some(Str("ok")) else Some(Str("error")))
    && MemberValue(members, "language") == NonEmpty(i.language)
    && MemberValue(members, "language_version") == NonEmpty(i.languageVersion)
    && MemberValue(members, "framework") == NonEmpty(i.framework)
    && MemberValue(members, "framework_version") == NonEmpty(i.frameworkVersion)
    && MemberValue(members, "url_scheme") == Optional(i.urlScheme)
    && MemberValue(members, "url_host") == Optional(i.urlHost)
    && MemberValue(members, "url_path") == Optional(i.urlPath)
  }

  /** The system's tags; what is handed in as JSON is passed on with its value. */
  predicate TellsSystem(members: seq<Member>, s: System) {
    && MemberValue(members, "organization_id") == NonEmpty(s.organization)
    && MemberValue(members, "project_id") == NonEmpty(s.project)
    && MemberValue(members, "cli") == (if s.cli != "" then Decode(s.cli) else None)
    && MemberValue(members, "http_request") == (if s.request != "" then Decode(s.request) else Some(Obj([])))
    && MemberValue(members, "http_response") == (if s.response != "" then Decode(s.response) else None)
    && MemberValue(members, "expand_spans") == Some(Bool(s.expand))
  }

  /** The custom tags, then the system's. */
  predicate TellsTags(j: Option<Json>, custom: seq<Member>, s: System) {
    && j.Some? && j.value.Obj? && custom <= j.value.members
    && TellsSystem(j.value.members[|custom|..], s)
  }

  function Sum(ns: seq<nat>): nat { if ns == [] then 0 else ns[0] + Sum(ns[1..]) }

  function Concat(lists: seq<seq<Op>>): seq<Op> { if lists == [] then [] else lists[0] + Concat(lists[1..]) }

  /** The totals of the calls with a start time; a change that is not positive does not count. */
  predicate TellsNet(j: Option<Json>, calls: seq<Call>, facts: Facts) {
    var sent := seq(|calls|, k requires 0 <= k < |calls| =>
                    if calls[k].start > 0 && facts(calls[k].id).sent > 0 then facts(calls[k].id).sent else 0);
    var received := seq(|calls|, k requires 0 <= k < |calls| =>
                        if calls[k].start > 0 && facts(calls[k].id).received > 0 then facts(calls[k].id).received
                        else 0);
    && j.Some? && j.value.Obj?
    && HasNumber(j.value.members, "bytes_sent", Sum(sent))
    && HasNumber(j.value.members, "bytes_received", Sum(received))
  }

  /** The operations of all calls by kind, call by call, newest call first. */
  predicate TellsOperations(members: seq<Member>, calls: seq<Call>, globalSql: seq<Op>) {
    var n := |calls|;
    && MemberValue(members, "sql")
       == Some(Arr(OpJsons(Concat(seq(n, k requires 0 <= k < n => calls[k].sql)) + globalSql)))
    && MemberValue(members, "http") == Some(Arr(OpJsons(Concat(seq(n, k requires 0 <= k < n => calls[k].http)))))
    && MemberValue(members, "cache") == Some(Arr(OpJsons(Concat(seq(n, k requires 0 <= k < n => calls[k].cache)))))
    && MemberValue(members, "redis") == Some(Arr(OpJsons(Concat(seq(n, k requires 0 <= k < n => calls[k].redis)))))
  }

  predicate TellsSources(members: seq<Member>, i: SpanInfo, x: Sources, custom: seq<Member>) {
    && TellsTags(MemberValue(members, "tags"), custom, x.system)
    && TellsNet(MemberValue(members, "net"), x.calls, x.facts)
    && TellsOperations(members, x.calls, x.globalSql)
    && MemberValue(members, "dumps") == (if i.dumps != "" then Decode(i.dumps) else Some(Arr([])))
    && TellsStack(MemberValue(members, "stack"), x.calls, x.facts)
  }

  // ----- plain members by name -----

  lemma {:induction false} FieldOne(present: bool, f: Field, name: string)
    ensures MemberValue(FieldMembers(If(present, f)), name)
         == if present && f.name == name then Some(FieldMember(f).value) else None
  {
    hide FieldMember;
    if present {
      assert FieldMembers([f]) == [FieldMember(f)];
      assert [FieldMember(f)][1..] == [];
      NamedAlike(f);
    } else {
      assert FieldMembers([]) == [];
    }
  }

  lemma NamedAlike(f: Field)
    ensures FieldMember(f).name == f.name
  {
  }

  /** The value under a name among plain members. */
  function FieldValue(fields: seq<Field>, name: string): Option<Json> { MemberValue(FieldMembers(fields), name) }

  lemma {:induction false} FieldConcat(a: seq<Field>, b: seq<Field>, name: string)
    ensures FieldValue(a + b, name) == if FieldValue(a, name).Some? then FieldValue(a, name) else FieldValue(b, name)
  {
    hide FieldMember, MemberValue;
    assert FieldMembers(a + b) == FieldMembers(a) + FieldMembers(b);
    MemberConcat(FieldMembers(a), FieldMembers(b), name);
  }

  lemma {:induction false} TextOne(present: bool, name: string, s: string, key: string)
    ensures FieldValue(If(present, TextField(name, s)), key) == if present && key == name then Some(Str(s)) else None
  {
    hide MemberValue, FieldMembers;
    FieldOne(present, TextField(name, s), key);
  }

  lemma {:induction false} NumberOne(present: bool, name: string, n: int, key: string)
    ensures FieldValue(If(present, NumberField(name, n)), key)
         == if present && key == name then Some(Num(SignedText(n))) else None
  {
    hide MemberValue, FieldMembers, SignedText;
    FieldOne(present, NumberField(name, n), key);
  }

  lemma Apart3(a: Field, b: Field, c: Field)
    ensures [a, b, c] == If(true, a) + If(true, b) + If(true, c)
  {
  }

  lemma Apart2(a: Field, b: Field)
    ensures [a, b] == If(true, a) + If(true, b)
  {
  }

  function IdTable(i: SpanInfo, key: string): Option<Json> {
    if key == "type" then Some(Str("span"))
    else if key == "trace_id" then Some(Str(Or(i.traceId, "unknown")))
    else if key == "span_id" then Some(Str(Or(i.spanId, "unknown")))
    else if key == "parent_id" && i.parentId.Some? then Some(Str(i.parentId.value))
    else if key == "service" then Some(Str(Or(i.service, "php-fpm")))
    else if key == "name" then Some(Str(Or(i.name, "unknown"))) else None
  }

  lemma {:induction false} IdValue(i: SpanInfo, key: string)
    ensures FieldValue(IdFields(i), key) == IdTable(i, key)
  {
    hide FieldValue, If, Or;
    var a, b := TextField("type", "span"), TextField("trace_id", Or(i.traceId, "unknown"));
    var c, d := TextField("span_id", Or(i.spanId, "unknown")), TextField("parent_id", Text(i.parentId));
    var e, f := TextField("service", Or(i.service, "php-fpm")), TextField("name", Or(i.name, "unknown"));
    Apart3(a, b, c);
    Apart2(e, f);
    var x, y, z := [a, b, c], If(i.parentId.Some?, d), [e, f];
    FieldConcat(If(true, a), If(true, b), key);
    FieldConcat(If(true, a) + If(true, b), If(true, c), key);
    FieldConcat(x, y, key);
    FieldConcat(x + y, z, key);
    FieldConcat(If(true, e), If(true, f), key);
    TextOne(true, "type", "span", key);
    TextOne(true, "trace_id", Or(i.traceId, "unknown"), key);
    TextOne(true, "span_id", Or(i.spanId, "unknown"), key);
    TextOne(i.parentId.Some?, "parent_id", Text(i.parentId), key);
    TextOne(true, "service", Or(i.service, "php-fpm"), key);
    TextOne(true, "name", Or(i.name, "unknown"), key);
  }

  function TimeTable(i: SpanInfo, key: string): Option<Json> {
    if key == "start_ts" then Some(Num(SignedText(i.startTs)))
    else if key == "end_ts" then Some(Num(SignedText(i.endTs)))
    else if key == "duration_ms" then Some(Num(SignedText(i.endTs - i.startTs)))
    else if key == "cpu_ms" && i.cpu > 0 then Some(Num(SignedText(i.cpu)))
    else if key == "status" && i.status >= 0 then Some(Str(if i.status == 1 then "ok" else "error")) else None
  }

  lemma {:induction false} TimeValue(i: SpanInfo, key: string)
    ensures FieldValue(TimeFields(i), key) == TimeTable(i, key)
  {
    hide FieldValue, If, SignedText;
    var a, b := NumberField("start_ts", i.startTs), NumberField("end_ts", i.endTs);
    var c, d := NumberField("duration_ms", i.endTs - i.startTs), NumberField("cpu_ms", i.cpu);
    var status := if i.status == 1 then "ok" else "error";
    Apart3(a, b, c);
    var x, y, z := [a, b, c], If(i.cpu > 0, d), If(i.status >= 0, TextField("status", status));
    FieldConcat(If(true, a), If(true, b), key);
    FieldConcat(If(true, a) + If(true, b), If(true, c), key);
    FieldConcat(x, y, key);
    FieldConcat(x + y, z, key);
    NumberOne(true, "start_ts", i.startTs, key);
    NumberOne(true, "end_ts", i.endTs, key);
    NumberOne(true, "duration_ms", i.endTs - i.startTs, key);
    NumberOne(i.cpu > 0, "cpu_ms", i.cpu, key);
    TextOne(i.status >= 0, "status", status, key);
  }

  function MetaTable(i: SpanInfo, key: string): Option<Json> {
    if key == "language" then NonEmpty(i.language)
    else if key == "language_version" then NonEmpty(i.languageVersion)
    else if key == "framework" then NonEmpty(i.framework)
    else if key == "framework_version" then NonEmpty(i.frameworkVersion) else None
  }

  lemma {:induction false} MetaValue(i: SpanInfo, key: string)
    ensures FieldValue(MetaFields(i), key) == MetaTable(i, key)
  {
    hide FieldValue, If;
    var a := If(i.language != "", TextField("language", i.language));
    var b := If(i.languageVersion != "", TextField("language_version", i.languageVersion));
    var c := If(i.framework != "", TextField("framework", i.framework));
    var d := If(i.frameworkVersion != "", TextField("framework_version", i.frameworkVersion));
    FieldConcat(a, b, key);
    FieldConcat(a + b, c, key);
    FieldConcat(a + b + c, d, key);
    TextOne(i.language != "", "language", i.language, key);
    TextOne(i.languageVersion != "", "language_version", i.languageVersion, key);
    TextOne(i.framework != "", "framework", i.framework, key);
    TextOne(i.frameworkVersion != "", "framework_version", i.frameworkVersion, key);
  }

  function UrlTable(i: SpanInfo, key: string): Option<Json> {
    if key == "url_scheme" then Optional(i.urlScheme)
    else if key == "url_host" then Optional(i.urlHost)
    else if key == "url_path" then Optional(i.urlPath) else None
  }

  lemma {:induction false} UrlValue(i: SpanInfo, key: string)
    ensures FieldValue(UrlFields(i), key) == UrlTable(i, key)
  {
    hide FieldValue, If;
    var a := If(i.urlScheme.Some?, TextField("url_scheme", Text(i.urlScheme)));
    var b := If(i.urlHost.Some?, TextField("url_host", Text(i.urlHost)));
    var c := If(i.urlPath.Some?, TextField("url_path", Text(i.urlPath)));
    FieldConcat(a, b, key);
    FieldConcat(a + b, c, key);
    TextOne(i.urlScheme.Some?, "url_scheme", Text(i.urlScheme), key);
    TextOne(i.urlHost.Some?, "url_host", Text(i.urlHost), key);
    TextOne(i.urlPath.Some?, "url_path", Text(i.urlPath), key);
  }

  /** Every plain member by its name. */
  lemma {:induction false} InfoValue(i: SpanInfo, key: string)
    ensures FieldValue(InfoFields(i), key)
         == OrElse(OrElse(OrElse(IdTable(i, key), TimeTable(i, key)), MetaTable(i, key)), UrlTable(i, key))
  {
    hide FieldValue, IdFields, TimeFields, MetaFields, UrlFields, IdTable, TimeTable, MetaTable, UrlTable;
    var a, b, c, d := IdFields(i), TimeFields(i), MetaFields(i), UrlFields(i);
    FieldConcat(a, b, key);
    FieldConcat(a + b, c, key);
    FieldConcat(a + b + c, d, key);
    IdValue(i, key);
    TimeValue(i, key);
    MetaValue(i, key);
    UrlValue(i, key);
  }

  // ----- the system's tags by name -----

  lemma {:induction false} PartOne(present: bool, p: Part, key: string)
    requires ReadsIf(present, p)
    ensures AllRead(When(present, p))
    ensures MemberValue(ReadAll(When(present, p)), key) == if present && key == p.name then Decode(p.text) else None
  {
    hide Decode;
    if present {
      assert ReadAll([p]) == [ReadMember(p)];
      assert [ReadMember(p)][1..] == [];
    }
  }

  lemma {:induction false} PartsPair(a: seq<Part>, b: seq<Part>, key: string)
    requires AllRead(a) && AllRead(b)
    ensures AllRead(a + b)
    ensures MemberValue(ReadAll(a + b), key)
         == OrElse(MemberValue(ReadAll(a), key), MemberValue(ReadAll(b), key))
  {
    hide AllRead, ReadAll, MemberValue;
    ReadAllConcat(a, b);
    MemberConcat(ReadAll(a), ReadAll(b), key);
  }

  lemma {:induction false} SystemValue(s: System, key: string)
    requires FragmentsOk(s)
    ensures AllRead(SystemParts(s))
    ensures MemberValue(ReadAll(SystemParts(s)), key)
         == if key == "organization_id" && s.organization != "" then Some(Str(s.organization))
            else if key == "project_id" && s.project != "" then Some(Str(s.project))
            else if key == "cli" && s.cli != "" then Decode(s.cli)
            else if key == "http_request" then (if s.request != "" then Decode(s.request) else Some(Obj([])))
            else if key == "http_response" && s.response != "" then Decode(s.response)
            else if key == "expand_spans" then Some(Bool(s.expand)) else None
  {
    hide Decode, AllRead, ReadAll, MemberValue, Quote, When;
    EachPartReads(s);
    SystemTexts(s);
    var a, b := When(s.organization != "", OrganizationPart(s)), When(s.project != "", ProjectPart(s));
    var c, d := When(s.cli != "", CliPart(s)), When(true, RequestPart(s));
    var e, f := When(s.response != "", ResponsePart(s)), When(true, ExpandPart(s));
    PartOne(s.organization != "", OrganizationPart(s), key);
    PartOne(s.project != "", ProjectPart(s), key);
    PartOne(s.cli != "", CliPart(s), key);
    PartOne(true, RequestPart(s), key);
    PartOne(s.response != "", ResponsePart(s), key);
    PartOne(true, ExpandPart(s), key);
    PartsPair(a, b, key);
    PartsPair(c, d, key);
    PartsPair(e, f, key);
    PartsPair(a + b, c + d, key);
    PartsPair(a + b + (c + d), e + f, key);
    SystemApart(s);
  }

  lemma SystemApart(s: System)
    ensures SystemParts(s)
         == When(s.organization != "", OrganizationPart(s)) + When(s.project != "", ProjectPart(s))
            + (When(s.cli != "", CliPart(s)) + When(true, RequestPart(s)))
            + (When(s.response != "", ResponsePart(s)) + When(true, ExpandPart(s)))
  {
    hide Quote;
  }

  lemma SystemTexts(s: System)
    ensures Decode(OrganizationPart(s).text) == Some(Str(s.organization))
    ensures Decode(ProjectPart(s).text) == Some(Str(s.project))
    ensures s.request == "" ==> Decode(RequestPart(s).text) == Some(Obj([]))
    ensures Decode(ExpandPart(s).text) == Some(Bool(s.expand))
  {
    hide Decode, Quote;
    ConstantsRead();
    QuotedReads(s.organization);
    QuotedReads(s.project);
  }

  lemma {:induction false} SystemTold(s: System)
    requires FragmentsOk(s)
    ensures AllRead(SystemParts(s)) && TellsSystem(ReadAll(SystemParts(s)), s)
  {
    hide Decode, AllRead, ReadAll, MemberValue, SystemParts;
    SystemValue(s, "organization_id");
    SystemValue(s, "project_id");
    SystemValue(s, "cli");
    SystemValue(s, "http_request");
    SystemValue(s, "http_response");
    SystemValue(s, "expand_spans");
  }

  /** The splice of any tag list with the system's tags decodes to one object: the custom
      tags, one string member each in list order, and after them the system's. */
  lemma {:induction false} SpliceTells(tags: seq<Tag>, s: System)
    requires FragmentsOk(s)
    ensures var output := Decode(SpanTags(TagsText(tags), s));
            && output.Some? && output.value.Obj? && |tags| <= |output.value.members|
            && (forall k :: 0 <= k < |tags| ==> output.value.members[k] == Member(tags[k].key, Str(tags[k].value)))
            && TellsSystem(output.value.members[|tags|..], s)
  {
    hide Decode, AllRead, ReadAll, TellsSystem, SystemParts, TagParts, Body, Stripped;
    SpliceIsObject(tags, s);
    TagPartsRead(tags);
    SystemTold(s);
    ReadAllConcat(TagParts(tags), SystemParts(s));
    var members := ReadAll(TagParts(tags) + SystemParts(s));
    assert members[|ReadAll(TagParts(tags))|..] == ReadAll(SystemParts(s));
  }

  // ----- the members made from the calls, by name -----

  lemma {:induction false} MemberOne(m: Member, key: string)
    ensures MemberValue([m], key) == if m.name == key then Some(m.value) else None
  {
    assert [m][1..] == [];
  }

  lemma {:induction false} FourMembers(a: Member, b: Member, c: Member, d: Member, key: string)
    ensures MemberValue([a, b, c, d], key)
         == if a.name == key then Some(a.value) else if b.name == key then Some(b.value)
            else if c.name == key then Some(c.value) else if d.name == key then Some(d.value) else None
  {
    hide MemberValue;
    assert [a, b, c, d] == [a] + [b] + [c] + [d];
    MemberConcat([a], [b], key);
    MemberConcat([a] + [b], [c], key);
    MemberConcat([a] + [b] + [c], [d], key);
    MemberOne(a, key);
    MemberOne(b, key);
    MemberOne(c, key);
    MemberOne(d, key);
  }

  lemma {:induction false} TwoMembers(a: Member, b: Member, key: string)
    ensures MemberValue([a, b], key)
         == if a.name == key then Some(a.value) else if b.name == key then Some(b.value) else None
  {
    hide MemberValue;
    assert [a, b] == [a] + [b];
    MemberConcat([a], [b], key);
    MemberOne(a, key);
    MemberOne(b, key);
  }

  /** What follows the plain members. */
  function TailValue(i: SpanInfo, x: Sources, custom: seq<Member>, key: string): Option<Json>
    requires AllRead(SystemParts(x.system)) && (i.dumps == "" || WellFormed(i.dumps))
  {
    if key == "tags" then Some(Obj(custom + ReadAll(SystemParts(x.system))))
    else if key == "net" then Some(NetMember(x).value)
    else if key == "sql" then Some(Arr(OpJsons(AllOps(x.calls, KSql) + x.globalSql)))
    else if key == "http" then Some(Arr(OpJsons(AllOps(x.calls, KHttp))))
    else if key == "cache" then Some(Arr(OpJsons(AllOps(x.calls, KCache))))
    else if key == "redis" then Some(Arr(OpJsons(AllOps(x.calls, KRedis))))
    else if key == "dumps" then Some(DumpsJson(i))
    else if key == "stack" then Some(StackMember(x).value) else None
  }

  lemma {:induction false} SpanValue(i: SpanInfo, x: Sources, custom: seq<Member>, key: string)
    requires AllRead(SystemParts(x.system)) && (i.dumps == "" || WellFormed(i.dumps))
    ensures MemberValue(SpanMembers(i, x, custom), key)
         == OrElse(FieldValue(InfoFields(i), key), TailValue(i, x, custom, key))
  {
    hide MemberValue, FieldMembers, InfoFields, ReadAll, AllRead, SystemParts, OpJsons, AllOps, StackItems, CallDocs;
    hide NetFields, DumpsJson, Decode, SentTotal, ReceivedTotal;
    var fields := FieldMembers(InfoFields(i));
    var a := [Member("tags", Obj(custom + ReadAll(SystemParts(x.system)))), NetMember(x)];
    var b := AggregateMembers(x);
    var c := [Member("dumps", DumpsJson(i)), StackMember(x)];
    MemberConcat(fields, a + b, key);
    MemberConcat(fields + (a + b), c, key);
    MemberConcat(a, b, key);
    TwoMembers(a[0], a[1], key);
    FourMembers(b[0], b[1], b[2], b[3], key);
    TwoMembers(c[0], c[1], key);
  }

  function InfoTable(i: SpanInfo, key: string): Option<Json> {
    OrElse(OrElse(OrElse(IdTable(i, key), TimeTable(i, key)), MetaTable(i, key)), UrlTable(i, key))
  }

  const LATER_NAMES: set<string> := {"tags", "net", "sql", "http", "cache", "redis", "dumps", "stack"}

  /** The members of all other names are the plain ones. */
  ghost predicate PlainOnes(members: seq<Member>, i: SpanInfo) {
    forall key: string :: key !in LATER_NAMES ==> MemberValue(members, key) == InfoTable(i, key)
  }

  lemma {:induction false} ArePlain(i: SpanInfo, x: Sources, custom: seq<Member>)
    requires AllRead(SystemParts(x.system)) && (i.dumps == "" || WellFormed(i.dumps))
    ensures PlainOnes(SpanMembers(i, x, custom), i)
  {
    hide MemberValue, SpanMembers, FieldValue, InfoFields, SystemParts, AllRead, Decode;
    hide IdTable, TimeTable, MetaTable, UrlTable;
    forall key: string | key !in LATER_NAMES
      ensures MemberValue(SpanMembers(i, x, custom), key) == InfoTable(i, key)
    {
      SpanValue(i, x, custom, key);
      InfoValue(i, key);
    }
  }

  lemma {:induction false} PlainTold(members: seq<Member>, i: SpanInfo, key: string)
    requires PlainOnes(members, i) && key !in LATER_NAMES
    ensures MemberValue(members, key) == InfoTable(i, key)
  {
    hide MemberValue, InfoTable;
  }

  lemma {:induction false} TailTold(i: SpanInfo, x: Sources, custom: seq<Member>, key: string)
    requires AllRead(SystemParts(x.system)) && (i.dumps == "" || WellFormed(i.dumps))
    requires key in LATER_NAMES
    ensures MemberValue(SpanMembers(i, x, custom), key) == TailValue(i, x, custom, key)
  {
    hide MemberValue, SpanMembers, FieldValue, InfoFields, SystemParts, AllRead, Decode, TailValue, SignedText;
    SpanValue(i, x, custom, key);
    InfoValue(i, key);
  }

  lemma {:induction false} IdsTold(members: seq<Member>, i: SpanInfo)
    requires PlainOnes(members, i)
    ensures MemberValue(members, "type") == Some(Str("span"))
    ensures MemberValue(members, "trace_id") == Some(Str(if i.traceId.Some? then i.traceId.value else "unknown"))
    ensures MemberValue(members, "span_id") == Some(Str(if i.spanId.Some? then i.spanId.value else "unknown"))
    ensures MemberValue(members, "parent_id") == Optional(i.parentId)
    ensures MemberValue(members, "service") == Some(Str(if i.service.Some? then i.service.value else "php-fpm"))
    ensures MemberValue(members, "name") == Some(Str(if i.name.Some? then i.name.value else "unknown"))
  {
    hide MemberValue, PlainOnes, SignedText;
    PlainTold(members, i, "type");
    PlainTold(members, i, "trace_id");
    PlainTold(members, i, "span_id");
    PlainTold(members, i, "parent_id");
    PlainTold(members, i, "service");
    PlainTold(members, i, "name");
  }

  lemma {:induction false} TimesTold(members: seq<Member>, i: SpanInfo)
    requires PlainOnes(members, i)
    ensures HasNumber(members, "start_ts", i.startTs) && HasNumber(members, "end_ts", i.endTs)
    ensures HasNumber(members, "duration_ms", i.endTs - i.startTs)
    ensures if i.cpu > 0 then HasNumber(members, "cpu_ms", i.cpu) else MemberValue(members, "cpu_ms").None?
    ensures MemberValue(members, "status")
         == if i.status < 0 then None else if i.status == 1 then Some(Str("ok")) else Some(Str("error"))
  {
    hide MemberValue, PlainOnes, SignedText, HasNumber;
    PlainTold(members, i, "start_ts");
    PlainTold(members, i, "end_ts");
    PlainTold(members, i, "duration_ms");
    PlainTold(members, i, "cpu_ms");
    PlainTold(members, i, "status");
    NumberTold(members, "start_ts", i.startTs);
    NumberTold(members, "end_ts", i.endTs);
    NumberTold(members, "duration_ms", i.endTs - i.startTs);
    if i.cpu > 0 {
      NumberTold(members, "cpu_ms", i.cpu);
    }
  }

  lemma {:induction false} MetaTold(members: seq<Member>, i: SpanInfo)
    requires PlainOnes(members, i)
    ensures MemberValue(members, "language") == NonEmpty(i.language)
    ensures MemberValue(members, "language_version") == NonEmpty(i.languageVersion)
    ensures MemberValue(members, "framework") == NonEmpty(i.framework)
    ensures MemberValue(members, "framework_version") == NonEmpty(i.frameworkVersion)
  {
    hide MemberValue, PlainOnes, SignedText;
    PlainTold(members, i, "language");
    PlainTold(members, i, "language_version");
    PlainTold(members, i, "framework");
    PlainTold(members, i, "framework_version");
  }

  lemma {:induction false} UrlTold(members: seq<Member>, i: SpanInfo)
    requires PlainOnes(members, i)
    ensures MemberValue(members, "url_scheme") == Optional(i.urlScheme)
    ensures MemberValue(members, "url_host") == Optional(i.urlHost)
    ensures MemberValue(members, "url_path") == Optional(i.urlPath)
  {
    hide MemberValue, PlainOnes, SignedText;
    PlainTold(members, i, "url_scheme");
    PlainTold(members, i, "url_host");
    PlainTold(members, i, "url_path");
  }

  // ----- the totals and the operations -----

  lemma {:induction false} SentIs(calls: seq<Call>, facts: Facts, ns: seq<nat>)
    requires |ns| == |calls|
    requires forall k :: 0 <= k < |calls| ==>
               ns[k] == if calls[k].start > 0 && facts(calls[k].id).sent > 0 then facts(calls[k].id).sent else 0
    ensures SentTotal(calls, facts) == Sum(ns)
  {
    if calls != [] {
      SentIs(calls[1..], facts, ns[1..]);
    }
  }

  lemma {:induction false} ReceivedIs(calls: seq<Call>, facts: Facts, ns: seq<nat>)
    requires |ns| == |calls|
    requires forall k :: 0 <= k < |calls| ==>
               ns[k] == if calls[k].start > 0 && facts(calls[k].id).received > 0 then facts(calls[k].id).received else 0
    ensures ReceivedTotal(calls, facts) == Sum(ns)
  {
    if calls != [] {
      ReceivedIs(calls[1..], facts, ns[1..]);
    }
  }

  lemma {:induction false} ConcatIs(calls: seq<Call>, kind: Kind, lists: seq<seq<Op>>)
    requires |lists| == |calls|
    requires forall k :: 0 <= k < |calls| ==>
               lists[k] == match kind case KSql => calls[k].sql case KHttp => calls[k].http
                                      case KCache => calls[k].cache case KRedis => calls[k].redis
    ensures AllOps(calls, kind) == Concat(lists)
  {
    if calls != [] {
      ConcatIs(calls[1..], kind, lists[1..]);
    }
  }

  lemma {:induction false} NetTold(x: Sources)
    ensures TellsNet(Some(NetMember(x).value), x.calls, x.facts)
  {
    hide Sum, SentTotal, ReceivedTotal, SignedText, MemberValue, HasNumber, FieldMembers;
    var calls, facts := x.calls, x.facts;
    var sent := seq(|calls|, k requires 0 <= k < |calls| =>
                    if calls[k].start > 0 && facts(calls[k].id).sent > 0 then facts(calls[k].id).sent else 0);
    var received := seq(|calls|, k requires 0 <= k < |calls| =>
                        if calls[k].start > 0 && facts(calls[k].id).received > 0 then facts(calls[k].id).received
                        else 0);
    SentIs(calls, facts, sent);
    ReceivedIs(calls, facts, received);
    var s, r := SentTotal(calls, facts), ReceivedTotal(calls, facts);
    Apart2(NumberField("bytes_sent", s), NumberField("bytes_received", r));
    var members := FieldMembers(NetFields(s, r));
    NetValue(s, r, "bytes_sent");
    NetValue(s, r, "bytes_received");
    NumberTold(members, "bytes_sent", s);
    NumberTold(members, "bytes_received", r);
  }

  lemma {:induction false} NetValue(sent: nat, received: nat, key: string)
    ensures FieldValue(NetFields(sent, received), key)
         == if key == "bytes_sent" then Some(Num(SignedText(sent)))
            else if key == "bytes_received" then Some(Num(SignedText(received))) else None
  {
    hide FieldValue, If, SignedText;
    var a, b := NumberField("bytes_sent", sent), NumberField("bytes_received", received);
    Apart2(a, b);
    FieldConcat(If(true, a), If(true, b), key);
    NumberOne(true, "bytes_sent", sent, key);
    NumberOne(true, "bytes_received", received, key);
  }

  lemma {:induction false} OperationsTold(i: SpanInfo, x: Sources, custom: seq<Member>)
    requires AllRead(SystemParts(x.system)) && (i.dumps == "" || WellFormed(i.dumps))
    ensures TellsOperations(SpanMembers(i, x, custom), x.calls, x.globalSql)
  {
    hide MemberValue, SpanMembers, SystemParts, AllRead, Decode, OpJsons, AllOps, Concat, ReadAll, NetMember, DumpsJson;
    hide StackMember;
    TailTold(i, x, custom, "sql");
    TailTold(i, x, custom, "http");
    TailTold(i, x, custom, "cache");
    TailTold(i, x, custom, "redis");
    var calls, n := x.calls, |x.calls|;
    ConcatIs(calls, KSql, seq(n, k requires 0 <= k < n => calls[k].sql));
    ConcatIs(calls, KHttp, seq(n, k requires 0 <= k < n => calls[k].http));
    ConcatIs(calls, KCache, seq(n, k requires 0 <= k < n => calls[k].cache));
    ConcatIs(calls, KRedis, seq(n, k requires 0 <= k < n => calls[k].redis));
  }

  lemma {:induction false} OthersTold(i: SpanInfo, x: Sources, custom: seq<Member>)
    requires SourcesOk(i, x) && AllRead(SystemParts(x.system)) && (i.dumps == "" || WellFormed(i.dumps))
    ensures var members := SpanMembers(i, x, custom);
            && TellsTags(MemberValue(members, "tags"), custom, x.system)
            && TellsNet(MemberValue(members, "net"), x.calls, x.facts)
            && MemberValue(members, "dumps") == (if i.dumps != "" then Decode(i.dumps) else Some(Arr([])))
            && TellsStack(MemberValue(members, "stack"), x.calls, x.facts)
  {
    hide MemberValue, SpanMembers, SystemParts, AllRead, Decode, OpJsons, AllOps, ReadAll, NetMember, TellsNet;
    hide StackSized, StackAcceptable, OpsSized, AllAcceptable, FragmentsOk, TellsSystem, CallDocs, StackItems;
    hide TellsCall, TellsAllOps, Written, StackText;
    TailTold(i, x, custom, "tags");
    TailTold(i, x, custom, "net");
    TailTold(i, x, custom, "dumps");
    TailTold(i, x, custom, "stack");
    SystemTold(x.system);
    var system := ReadAll(SystemParts(x.system));
    assert (custom + system)[|custom|..] == system;
    NetTold(x);
    StackTells(x.calls, x.facts);
    StackWellFormedIff(x.calls, x.facts);
  }

  /** If everything handed in is well-formed and everything recorded acceptable, the text of
      a span decodes to one object that tells the span, its tags, its totals, all operations
      and every call, member by member. */
  lemma {:induction false} SpanTells(i: SpanInfo, x: Sources, custom: seq<Member>)
    requires SourcesOk(i, x) && CustomTags(x.tagsJson, custom)
    ensures var output := Decode(SpanText(i, x));
            && output.Some? && output.value.Obj?
            && TellsSpan(output.value.members, i) && TellsSources(output.value.members, i, x, custom)
  {
    hide MemberValue, SpanMembers, SystemParts, AllRead, Decode, SourcesOk, CustomTags, SpanText, HasNumber;
    hide TellsTags, TellsNet, TellsOperations, TellsStack, NonEmpty, Optional, PlainOnes;
    SpanDecodes(i, x, custom);
    ArePlain(i, x, custom);
    var members := SpanMembers(i, x, custom);
    IdsTold(members, i);
    TimesTold(members, i);
    MetaTold(members, i);
    UrlTold(members, i);
    OperationsTold(i, x, custom);
    OthersTold(i, x, custom);
  }
}
