/** What the object of a call tells a receiver, member by member. */
module CallMembers {
  import opened Seqs
  import opened Json
  import opened Lookup
  import opened Zval
  import opened ZvalJson
  import opened ZvalNumbers
  import opened ZvalCycles
  import opened ZvalWellFormed
  import opened ZvalMeaning
  import opened Numerals
  import opened CollectorSpec
  import opened CallStack
  import opened Received
  import opened Aggregate
  import Spans

  /** A time in microseconds, read off its text in milliseconds. */
  predicate MilliIs(j: Json, micros: nat) { j.Num? && MilliReads(micros, ReadDecimal(j.text)) }

  predicate HasNumber(members: seq<Member>, name: string, n: int) {
    var j := MemberValue(members, name);
    j.Some? && NumberIs(j.value, n)
  }

  predicate HasTime(members: seq<Member>, name: string, micros: nat) {
    var j := MemberValue(members, name);
    j.Some? && MilliIs(j.value, micros)
  }

  /** The call itself: its function, where it is, what it took and where it belongs. */
  predicate TellsCall(members: seq<Member>, c: Call, d: Details) {
    && MemberValue(members, "call_id") == Some(Str(c.id))
    && MemberValue(members, "function")
       == Some(Str(if c.name != "" then c.name
                   else if d.kind == 2 && d.class_.Some? then d.class_.value + "::<unknown>" else "<unknown>"))
    && MemberValue(members, "class") == Optional(d.class_)
    && MemberValue(members, "file") == Optional(d.file)
    && (if d.line > 0 then HasNumber(members, "line", d.line) else MemberValue(members, "line").None?)
    && HasTime(members, "duration_ms", if c.end <= 0 then 1000 else if c.end < c.start then 0 else c.end - c.start)
    && HasTime(members, "cpu_ms", d.cpu)
    && HasNumber(members, "memory_delta", d.memory)
    && HasNumber(members, "network_bytes_sent", d.sent)
    && HasNumber(members, "network_bytes_received", d.received)
    && MemberValue(members, "parent_id")
       == Some(if c.parent.Some? && c.parent.value != "" then Str(c.parent.value) else Null)
    && HasNumber(members, "depth", c.depth)
    && HasNumber(members, "function_type", d.kind)
    && MemberValue(members, "children") == Some(Arr([]))
  }

  /** Operations of one kind: a member exactly when there are any, an array of the first 100
      in order, each plain one with its own value, and how many more there are. */
  predicate TellsOps(j: Option<Json>, ops: seq<Op>) {
    if ops == [] then j.None?
    else
      && j.Some? && j.value.Arr?
      && |j.value.items| == (if |ops| > 100 then 101 else |ops|)
      && (forall i :: 0 <= i < |ops| && i < 100 && Flat(ops[i]) ==> j.value.items[i] == OpJson(ops[i]))
      && (|ops| <= 100 && (forall i :: 0 <= i < |ops| ==> Flat(ops[i])) ==> j.value.items == OpJsons(ops))
      && (|ops| > 100 ==>
            j.value.items[100].Str? && Announces(j.value.items[100].s, "... (truncated, ", |ops| - 100, " more)"))
  }

  predicate TellsAllOps(members: seq<Member>, c: Call) {
    && TellsOps(MemberValue(members, "sql_queries"), c.sql)
    && TellsOps(MemberValue(members, "http_requests"), c.http)
    && TellsOps(MemberValue(members, "cache_operations"), c.cache)
    && TellsOps(MemberValue(members, "redis_operations"), c.redis)
  }

  // ----- the entries by name -----

  lemma {:induction false} EntryOne(present: bool, e: DEntry, name: string)
    ensures EntryValue(Present(present, e), name) == if present && e.key == Some(name) then Some(e.value) else None
  {
  }

  lemma {:induction false} HeadValue(c: Call, d: Details, name: string)
    ensures EntryValue(HeadEntries(c, d), name)
         == if name == "call_id" then Some(DStr(c.id))
            else if name == "function" then Some(DStr(FunctionName(c, d)))
            else if name == "class" && d.class_.Some? then Some(DStr(d.class_.value))
            else if name == "file" && d.file.Some? then Some(DStr(d.file.value))
            else if name == "line" && d.line > 0 then Some(DNum(SignedText(d.line))) else None
  {
    hide EntryValue, FunctionName, SignedText, Present;
    var id, function_ := Named("call_id", DStr(c.id)), Named("function", DStr(FunctionName(c, d)));
    var class_, file := Named("class", DStr(Text(d.class_))), Named("file", DStr(Text(d.file)));
    var line := Named("line", DNum(SignedText(d.line)));
    var a, b := Present(true, id), Present(true, function_);
    var x, y, z := Present(d.class_.Some?, class_), Present(d.file.Some?, file), Present(d.line > 0, line);
    TwoPresent(id, function_);
    EntryValueConcat(a, b, name);
    EntryValueConcat(a + b, x, name);
    EntryValueConcat(a + b + x, y, name);
    EntryValueConcat(a + b + x + y, z, name);
    EntryOne(true, id, name);
    EntryOne(true, function_, name);
    EntryOne(d.class_.Some?, class_, name);
    EntryOne(d.file.Some?, file, name);
    EntryOne(d.line > 0, line, name);
  }

  lemma TwoPresent(e: DEntry, f: DEntry)
    ensures Present(true, e) + Present(true, f) == [e, f]
  {
  }

  lemma {:induction false} ThreeValues(e: DEntry, f: DEntry, g: DEntry, name: string)
    ensures EntryValue([e, f, g], name)
         == if e.key == Some(name) then Some(e.value) else if f.key == Some(name) then Some(f.value)
            else if g.key == Some(name) then Some(g.value) else None
  {
    hide EntryValue;
    EntryValueConcat(Present(true, e), Present(true, f), name);
    EntryValueConcat(Present(true, e) + Present(true, f), Present(true, g), name);
    EntryOne(true, e, name);
    EntryOne(true, f, name);
    EntryOne(true, g, name);
    assert Present(true, e) + Present(true, f) + Present(true, g) == [e, f, g];
  }

  lemma {:induction false} MeasureValue(c: Call, d: Details, name: string)
    ensures EntryValue(MeasureEntries(c, d), name)
         == if name == "duration_ms" then Some(DNum(MilliText(Spans.Duration(c))))
            else if name == "cpu_ms" then Some(DNum(MilliText(d.cpu)))
            else if name == "memory_delta" then Some(DNum(SignedText(d.memory)))
            else if name == "network_bytes_sent" then Some(DNum(SignedText(d.sent)))
            else if name == "network_bytes_received" then Some(DNum(SignedText(d.received))) else None
  {
    hide EntryValue, MilliText, SignedText, Spans.Duration;
    var e := MeasureEntries(c, d);
    ThreeValues(e[0], e[1], e[2], name);
    EntryValueConcat([e[0], e[1], e[2]], Present(true, e[3]) + Present(true, e[4]), name);
    EntryValueConcat(Present(true, e[3]), Present(true, e[4]), name);
    EntryOne(true, e[3], name);
    EntryOne(true, e[4], name);
    TwoPresent(e[3], e[4]);
    assert e == [e[0], e[1], e[2]] + [e[3], e[4]];
  }

  lemma {:induction false} OpsValue(c: Call, name: string)
    ensures EntryValue(OpsEntries(c), name)
         == if name == "sql_queries" && c.sql != [] then Some(OpsDoc(c.sql))
            else if name == "http_requests" && c.http != [] then Some(OpsDoc(c.http))
            else if name == "cache_operations" && c.cache != [] then Some(OpsDoc(c.cache))
            else if name == "redis_operations" && c.redis != [] then Some(OpsDoc(c.redis)) else None
  {
    hide EntryValue, OpsDoc, Present;
    var a, b := OpsEntry("sql_queries", c.sql), OpsEntry("http_requests", c.http);
    var x, y := OpsEntry("cache_operations", c.cache), OpsEntry("redis_operations", c.redis);
    EntryValueConcat(a, b, name);
    EntryValueConcat(a + b, x, name);
    EntryValueConcat(a + b + x, y, name);
    EntryOne(c.sql != [], Named("sql_queries", OpsDoc(c.sql)), name);
    EntryOne(c.http != [], Named("http_requests", OpsDoc(c.http)), name);
    EntryOne(c.cache != [], Named("cache_operations", OpsDoc(c.cache)), name);
    EntryOne(c.redis != [], Named("redis_operations", OpsDoc(c.redis)), name);
  }

  /** What follows the entries of the head. */
  function LaterValue(c: Call, d: Details, name: string): Option<Doc> {
    OrElse(EntryValue(MeasureEntries(c, d), name),
           OrElse(EntryValue(LinkEntries(c, d), name),
                  OrElse(EntryValue(OpsEntries(c), name),
                         if name == "children" then Some(DList([], None)) else None)))
  }

  lemma {:induction false} CallValue(c: Call, d: Details, name: string)
    ensures EntryValue(CallEntries(c, d), name)
         == OrElse(EntryValue(HeadEntries(c, d), name), LaterValue(c, d, name))
  {
    hide EntryValue, HeadEntries, MeasureEntries, LinkEntries, OpsEntries, Present;
    var a, b, x, y := HeadEntries(c, d), MeasureEntries(c, d), LinkEntries(c, d), OpsEntries(c);
    EntryValueConcat(a, b, name);
    EntryValueConcat(a + b, x, name);
    EntryValueConcat(a + b + x, y, name);
    EntryValueConcat(a + b + x + y, [CHILDREN], name);
    ChildrenValue(name);
  }

  lemma {:induction false} ChildrenValue(name: string)
    ensures EntryValue([CHILDREN], name) == if name == "children" then Some(DList([], None)) else None
  {
  }

  // ----- the operations -----

  lemma {:induction false} PlainValue(g: Graph, h: Graph, v: Zval, p: set<nat>, q: set<nat>, m: nat, n: nat)
    requires Scalar(v) && m <= 10 && n <= 10
    ensures View(g, v, p, m) == View(h, v, q, n)
  {
    hide LongText, DoubleText;
  }

  lemma {:induction false} PlainEntries(g: Graph, h: Graph, op: Op, p: set<nat>, q: set<nat>, m: nat, n: nat)
    requires Flat(op) && 0 < m <= 10 && 0 < n <= 10
    ensures ViewEntries(g, Shown(op), p, m) == ViewEntries(h, Shown(op), q, n)
  {
    hide View, Scalar;
    forall i | 0 <= i < |Shown(op)|
      ensures ViewEntries(g, Shown(op), p, m)[i] == ViewEntries(h, Shown(op), q, n)[i]
    {
      PlainValue(g, h, Shown(op)[i].value, p, q, m, n);
    }
  }

  lemma OpsTablesAt(ops: seq<Op>, i: nat)
    requires i < |ops|
    ensures |Table(OpsTables(ops), 0)| == |ops| && Table(OpsTables(ops), 0)[i] == Entry(None, ZArray(i + 1))
    ensures Table(OpsTables(ops), i + 1) == ops[i]
  {
  }

  /** A plain operation is written as it is by itself, wherever it stands in the array. */
  lemma {:induction false} PlainOp(ops: seq<Op>, i: nat)
    requires i < |ops| && Flat(ops[i])
    ensures View(OpsTables(ops), ZArray(i + 1), {0}, 1) == OpDoc(ops[i])
  {
    hide View, ViewEntries, Shown, OpsTables, IsAssoc;
    var g, h := OpsTables(ops), OpTables(ops[i]);
    OpsTablesAt(ops, i);
    ArrayView(g, i + 1, {0}, 1);
    ArrayView(h, 0, {}, 0);
    PlainEntries(g, h, ops[i], {0} + {i + 1}, {} + {0}, 2, 1);
  }

  lemma NoNames(ops: seq<Op>)
    ensures !IsAssoc(Table(OpsTables(ops), 0)) && |Table(OpsTables(ops), 0)| == |ops|
  {
  }

  /** What stands at a position of the array. */
  lemma {:induction false} OpsItem(ops: seq<Op>, i: nat)
    requires |ops| <= MAX_ELEMENTS && i < |ops| && i < 100 && DocOk(OpsDoc(ops))
    ensures var d := View(OpsTables(ops), ZArray(i + 1), {0}, 1);
            var j := ToJson(OpsDoc(ops));
            DocOk(d) && j.Arr? && i < |j.items| && j.items[i] == ToJson(d)
  {
    hide View, ViewEntries, OpsTables, ToItems, TruncatedItem;
    var g := OpsTables(ops);
    var entries := Table(g, 0);
    OpsTablesAt(ops, i);
    NoNames(ops);
    ArrayView(g, 0, {}, 0);
    var docs := ViewEntries(g, Shown(entries), {} + {0}, 1);
    assert {} + {0} == {0};
    assert docs[i].value == View(g, ZArray(i + 1), {0}, 1);
    assert OpsDoc(ops) == DList(Values(docs), More(entries));
    var items := Values(docs);
    assert DocOk(items[i]);
    ItemsValues(items);
  }

  /** The array of a call's operations. */
  lemma {:induction false} OpsTold(ops: seq<Op>)
    requires ops != [] && OpsAcceptable(ops)
    ensures DocOk(OpsDoc(ops)) && TellsOps(Some(ToJson(OpsDoc(ops))), ops)
  {
    hide View, OpsTables, ToJson, DocOk, Acceptable, Announces, Flat, OpDoc, Says;
    var g := OpsTables(ops);
    NoNames(ops);
    ViewOkIff(g, ZArray(0), {}, 0);
    ValueMeaning(g, ZArray(0), {}, 0);
    OpsListed(ops, ToJson(OpsDoc(ops)));
    SmallEnough(ops);
    forall i | 0 <= i < |ops| && i < 100 && Flat(ops[i])
      ensures ToJson(OpsDoc(ops)).items[i] == OpJson(ops[i])
    {
      OpsItem(ops, i);
      PlainOp(ops, i);
    }
  }

  lemma {:induction false} SmallEnough(ops: seq<Op>)
    requires ops != [] && OpsAcceptable(ops)
    ensures |ops| <= MAX_ELEMENTS
  {
    hide OpsTables;
    NoNames(ops);
  }

  lemma {:induction false} OpsListed(ops: seq<Op>, j: Json)
    requires Says(OpsTables(ops), ZArray(0), {}, 0, j)
    ensures j.Arr? && |j.items| == if |ops| > 100 then 101 else |ops|
    ensures |ops| > 100 ==> j.items[100].Str? && Announces(j.items[100].s, "... (truncated, ", |ops| - 100, " more)")
  {
    hide OpsTables, Announces;
    NoNames(ops);
  }

  // ----- the whole object -----

  lemma {:induction false} FunctionTold(c: Call, d: Details)
    ensures FunctionName(c, d)
         == if c.name != "" then c.name
            else if d.kind == 2 && d.class_.Some? then d.class_.value + "::<unknown>" else "<unknown>"
  {
    assert SCOPE + UNKNOWN == "::<unknown>";
    if c.name == "" && d.kind == 2 && d.class_.Some? {
      Regroup(d.class_.value, SCOPE, UNKNOWN);
    }
  }

  /** The value of a member is that of the entry of its name. */
  ghost predicate Looked(members: seq<Member>, c: Call, d: Details) {
    forall name ::
      var v := EntryValue(CallEntries(c, d), name);
      (v.Some? ==> DocOk(v.value))
      && MemberValue(members, name) == if v.Some? then Some(ToJson(v.value)) else None
  }

  lemma {:induction false} CallLooked(c: Call, d: Details)
    requires DocOk(CallDoc(c, d))
    ensures ToJson(CallDoc(c, d)).Obj? && Looked(ToJson(CallDoc(c, d)).members, c, d)
  {
    hide CallEntries, EntryValue, MemberValue, ToMembers, DocOk;
    var entries := CallEntries(c, d);
    MapIsOk(entries);
    assert ToMembers(entries) + [] == ToMembers(entries);
    forall name
      ensures var v := EntryValue(entries, name);
              (v.Some? ==> DocOk(v.value))
              && MemberValue(ToMembers(entries), name) == if v.Some? then Some(ToJson(v.value)) else None
    {
      MemberIsEntry(entries, name);
    }
  }

  /** One entry, looked up. */
  lemma {:induction false} NumberTold(members: seq<Member>, name: string, n: int)
    requires MemberValue(members, name) == Some(Num(SignedText(n)))
    ensures HasNumber(members, name, n)
  {
    hide MemberValue, SignedText, ReadDecimal;
    SignedValue(n);
  }

  lemma {:induction false} TimeTold(members: seq<Member>, name: string, micros: nat)
    requires MemberValue(members, name) == Some(Num(MilliText(micros)))
    ensures HasTime(members, name, micros)
  {
    hide MemberValue, MilliText, ReadDecimal, MilliReads;
    MilliValue(micros);
  }

  lemma {:induction false} Plainly(text: string)
    requires DocOk(DNum(text))
    ensures ToJson(DNum(text)) == Num(text)
  {
  }

  /** Where the name's entry stands. */
  lemma {:induction false} Found(members: seq<Member>, c: Call, d: Details, name: string, v: Doc)
    requires Looked(members, c, d) && EntryValue(CallEntries(c, d), name) == Some(v)
    ensures DocOk(v) && MemberValue(members, name) == Some(ToJson(v))
  {
    hide EntryValue, CallEntries, DocOk, MemberValue, ToJson;
  }

  lemma {:induction false} Missing(members: seq<Member>, c: Call, d: Details, name: string)
    requires Looked(members, c, d) && EntryValue(CallEntries(c, d), name) == None
    ensures MemberValue(members, name) == None
  {
    hide EntryValue, CallEntries, DocOk, MemberValue, ToJson;
  }

  lemma {:induction false} HeadFound(members: seq<Member>, c: Call, d: Details, name: string)
    requires Looked(members, c, d) && name in {"call_id", "function", "class", "file", "line"}
    ensures var v := EntryValue(HeadEntries(c, d), name);
            && (v.Some? ==> DocOk(v.value))
            && MemberValue(members, name) == if v.Some? then Some(ToJson(v.value)) else None
  {
    hide EntryValue, HeadEntries, MeasureEntries, LinkEntries, OpsEntries, CallEntries, DocOk, MemberValue, ToJson;
    CallValue(c, d, name);
    MeasureValue(c, d, name);
    LinkValue(c, d, name);
    OpsValue(c, name);
    var v := EntryValue(HeadEntries(c, d), name);
    if v.Some? {
      Found(members, c, d, name, v.value);
    } else {
      Missing(members, c, d, name);
    }
  }

  lemma {:induction false} LinkValue(c: Call, d: Details, name: string)
    ensures EntryValue(LinkEntries(c, d), name)
         == if name == "parent_id" then Some(ParentDoc(c))
            else if name == "depth" then Some(DNum(SignedText(c.depth)))
            else if name == "function_type" then Some(DNum(SignedText(d.kind))) else None
  {
    hide EntryValue, SignedText, ParentDoc;
    var e := LinkEntries(c, d);
    ThreeValues(e[0], e[1], e[2], name);
  }

  /** An entry after those of the head. */
  lemma {:induction false} LaterFound(members: seq<Member>, c: Call, d: Details, name: string, v: Option<Doc>)
    requires Looked(members, c, d) && name !in {"call_id", "function", "class", "file", "line"}
    requires v == LaterValue(c, d, name)
    ensures (v.Some? ==> DocOk(v.value))
    ensures MemberValue(members, name) == if v.Some? then Some(ToJson(v.value)) else None
  {
    hide EntryValue, HeadEntries, MeasureEntries, LinkEntries, OpsEntries, CallEntries, DocOk, MemberValue, ToJson;
    CallValue(c, d, name);
    HeadValue(c, d, name);
    if v.Some? {
      Found(members, c, d, name, v.value);
    } else {
      Missing(members, c, d, name);
    }
  }

  lemma {:induction false} LaterDoc(members: seq<Member>, c: Call, d: Details, name: string)
    requires Looked(members, c, d)
    ensures name == "duration_ms" ==> MemberValue(members, name) == Some(Num(MilliText(Spans.Duration(c))))
    ensures name == "cpu_ms" ==> MemberValue(members, name) == Some(Num(MilliText(d.cpu)))
    ensures name == "memory_delta" ==> MemberValue(members, name) == Some(Num(SignedText(d.memory)))
    ensures name == "network_bytes_sent" ==> MemberValue(members, name) == Some(Num(SignedText(d.sent)))
    ensures name == "network_bytes_received" ==> MemberValue(members, name) == Some(Num(SignedText(d.received)))
    ensures name == "depth" ==> MemberValue(members, name) == Some(Num(SignedText(c.depth)))
    ensures name == "function_type" ==> MemberValue(members, name) == Some(Num(SignedText(d.kind)))
  {
    hide EntryValue, HeadEntries, MeasureEntries, LinkEntries, OpsEntries, CallEntries, DocOk, MemberValue, ToJson;
    hide MilliText, SignedText, Spans.Duration, ParentDoc, Looked;
    if name in {"duration_ms", "cpu_ms", "memory_delta", "network_bytes_sent", "network_bytes_received", "depth",
                "function_type"} {
      MeasureValue(c, d, name);
      LinkValue(c, d, name);
      var v := OrElse(EntryValue(MeasureEntries(c, d), name), EntryValue(LinkEntries(c, d), name));
      LaterFound(members, c, d, name, v);
      Plainly(v.value.text);
    }
  }

  lemma {:induction false} EndsTold(members: seq<Member>, c: Call, d: Details)
    requires Looked(members, c, d)
    ensures MemberValue(members, "parent_id")
         == Some(if c.parent.Some? && c.parent.value != "" then Str(c.parent.value) else Null)
    ensures MemberValue(members, "children") == Some(Arr([]))
  {
    hide EntryValue, HeadEntries, MeasureEntries, LinkEntries, OpsEntries, CallEntries, MemberValue;
    hide MilliText, SignedText, Spans.Duration, Looked;
    MeasureValue(c, d, "parent_id");
    LinkValue(c, d, "parent_id");
    LaterFound(members, c, d, "parent_id", Some(ParentDoc(c)));
    MeasureValue(c, d, "children");
    LinkValue(c, d, "children");
    OpsValue(c, "children");
    LaterFound(members, c, d, "children", Some(DList([], None)));
    assert ToItems([]) + [] == [];
  }

  lemma {:induction false} HeadTold(members: seq<Member>, c: Call, d: Details)
    requires Looked(members, c, d)
    ensures MemberValue(members, "call_id") == Some(Str(c.id))
    ensures MemberValue(members, "function") == Some(Str(FunctionName(c, d)))
    ensures MemberValue(members, "class") == Optional(d.class_)
    ensures MemberValue(members, "file") == Optional(d.file)
    ensures if d.line > 0 then HasNumber(members, "line", d.line) else MemberValue(members, "line").None?
  {
    hide EntryValue, HeadEntries, MemberValue, SignedText, Looked, HasNumber, FunctionName;
    HeadValue(c, d, "call_id");
    HeadFound(members, c, d, "call_id");
    HeadValue(c, d, "function");
    HeadFound(members, c, d, "function");
    HeadValue(c, d, "class");
    HeadFound(members, c, d, "class");
    HeadValue(c, d, "file");
    HeadFound(members, c, d, "file");
    HeadValue(c, d, "line");
    HeadFound(members, c, d, "line");
    if d.line > 0 {
      NumberTold(members, "line", d.line);
    }
  }

  lemma {:induction false} MeasuresTold(members: seq<Member>, c: Call, d: Details)
    requires Looked(members, c, d)
    ensures HasTime(members, "duration_ms",
                    if c.end <= 0 then 1000 else if c.end < c.start then 0 else c.end - c.start)
    ensures HasTime(members, "cpu_ms", d.cpu)
    ensures HasNumber(members, "memory_delta", d.memory) && HasNumber(members, "network_bytes_sent", d.sent)
    ensures HasNumber(members, "network_bytes_received", d.received)
    ensures HasNumber(members, "depth", c.depth) && HasNumber(members, "function_type", d.kind)
  {
    hide MemberValue, Looked, HasNumber, HasTime, MilliText, SignedText;
    LaterDoc(members, c, d, "duration_ms");
    TimeTold(members, "duration_ms", Spans.Duration(c));
    LaterDoc(members, c, d, "cpu_ms");
    TimeTold(members, "cpu_ms", d.cpu);
    LaterDoc(members, c, d, "memory_delta");
    NumberTold(members, "memory_delta", d.memory);
    LaterDoc(members, c, d, "network_bytes_sent");
    NumberTold(members, "network_bytes_sent", d.sent);
    LaterDoc(members, c, d, "network_bytes_received");
    NumberTold(members, "network_bytes_received", d.received);
    LaterDoc(members, c, d, "depth");
    NumberTold(members, "depth", c.depth);
    LaterDoc(members, c, d, "function_type");
    NumberTold(members, "function_type", d.kind);
  }

  /** One kind of operations, under its name. */
  lemma {:induction false} KindTold(members: seq<Member>, c: Call, d: Details, name: string, ops: seq<Op>)
    requires Looked(members, c, d) && OpsAcceptable(ops)
    requires name in {"sql_queries", "http_requests", "cache_operations", "redis_operations"}
    requires ops == if name == "sql_queries" then c.sql else if name == "http_requests" then c.http
                    else if name == "cache_operations" then c.cache else c.redis
    ensures TellsOps(MemberValue(members, name), ops)
  {
    hide EntryValue, HeadEntries, MeasureEntries, LinkEntries, OpsEntries, CallEntries, MemberValue, OpsDoc, TellsOps;
    hide MilliText, SignedText, Spans.Duration, Looked, OpsAcceptable, DocOk, ToJson, ParentDoc;
    MeasureValue(c, d, name);
    LinkValue(c, d, name);
    OpsValue(c, name);
    LaterFound(members, c, d, name, if ops != [] then Some(OpsDoc(ops)) else None);
    if ops != [] {
      OpsTold(ops);
    } else {
      NothingTold();
    }
  }

  lemma NothingTold()
    ensures TellsOps(None, [])
  {
  }

  /** The object of an acceptable call tells the call, member by member, and its operations. */
  lemma {:induction false} CallTells(c: Call, d: Details)
    requires CallSized(c) && CallAcceptable(c, d)
    ensures DocOk(CallDoc(c, d)) && ToJson(CallDoc(c, d)).Obj?
    ensures var members := ToJson(CallDoc(c, d)).members; TellsCall(members, c, d) && TellsAllOps(members, c)
  {
    hide CallDoc, ToJson, DocOk, Looked, HasTime, HasNumber, MemberValue, TellsOps, OpsAcceptable, CallSized;
    hide FunctionName, MilliWidth, Spans.Duration;
    CallOkIff(c, d);
    CallLooked(c, d);
    var members := ToJson(CallDoc(c, d)).members;
    HeadTold(members, c, d);
    FunctionTold(c, d);
    MeasuresTold(members, c, d);
    EndsTold(members, c, d);
    KindTold(members, c, d, "sql_queries", c.sql);
    KindTold(members, c, d, "http_requests", c.http);
    KindTold(members, c, d, "cache_operations", c.cache);
    KindTold(members, c, d, "redis_operations", c.redis);
  }

  // ----- the whole stack -----

  /** Calls without a start time are passed over. */
  function Written(calls: seq<Call>): seq<Call> {
    if calls == [] then [] else (if calls[0].start > 0 then [calls[0]] else []) + Written(calls[1..])
  }

  lemma {:induction false} WrittenDocs(calls: seq<Call>, facts: Facts)
    ensures var docs, written := CallDocs(calls, facts), Written(calls);
            && |docs| == |written|
            && forall k :: 0 <= k < |docs| ==> docs[k] == CallDoc(written[k], facts(written[k].id))
  {
    hide CallDoc;
    if calls != [] {
      WrittenDocs(calls[1..], facts);
      var c := calls[0];
      var docs, written := CallDocs(calls[1..], facts), Written(calls[1..]);
      assert CallDocs(calls, facts) == (if c.start > 0 then [CallDoc(c, facts(c.id))] else []) + docs;
      assert Written(calls) == (if c.start > 0 then [c] else []) + written;
      hide CallDocs, Written;
    }
  }

  lemma {:induction false} WrittenFrom(calls: seq<Call>)
    ensures forall c :: c in Written(calls) <==> c in calls && c.start > 0
  {
    if calls != [] {
      WrittenFrom(calls[1..]);
      assert calls == [calls[0]] + calls[1..];
    }
  }

  /** Every call that is written, in order. */
  predicate TellsStack(j: Option<Json>, calls: seq<Call>, facts: Facts) {
    && j.Some? && j.value.Arr? && |j.value.items| == |Written(calls)|
    && forall k :: 0 <= k < |Written(calls)| ==>
         var item, c := j.value.items[k], Written(calls)[k];
         item.Obj? && TellsCall(item.members, c, facts(c.id)) && TellsAllOps(item.members, c)
  }

  /** The array of the stack tells every call written, in order: what it was, and which
      operations it made. */
  lemma {:induction false} StackTells(calls: seq<Call>, facts: Facts)
    requires StackSized(calls) && StackAcceptable(calls, facts)
    ensures TellsStack(Decode(StackText(calls, facts)), calls, facts)
  {
    hide CallDoc, CallDocs, Decode, StackText, DocOk, ToJson, TellsCall, TellsAllOps, CallSized, CallAcceptable;
    StackWellFormedIff(calls, facts);
    WrittenDocs(calls, facts);
    WrittenFrom(calls);
    var written, items := Written(calls), StackItems(CallDocs(calls, facts));
    forall k | 0 <= k < |written|
      ensures var item, c := items[k], written[k];
              item.Obj? && TellsCall(item.members, c, facts(c.id)) && TellsAllOps(item.members, c)
    {
      assert written[k] in calls;
      CallTells(written[k], facts(written[k].id));
    }
  }
}
