/** What a receiver gets out of the call stack in the span's text: every call once, from
    which it can rebuild the call forest by the parent ids. */
module Received {
  import opened Seqs
  import opened Json
  import opened Lookup
  import opened Zval
  import opened ZvalJson
  import opened ZvalWellFormed
  import opened CollectorSpec
  import opened Replay
  import opened Rebuild
  import opened Traversal
  import opened CallStack
  import Aggregate
  import Spans

  ghost predicate StackSized(calls: seq<Call>) { forall k :: 0 <= k < |calls| ==> CallSized(calls[k]) }

  /** Every call written is acceptable. */
  ghost predicate StackAcceptable(calls: seq<Call>, facts: Facts) {
    forall k :: 0 <= k < |calls| && calls[k].start > 0 ==> CallAcceptable(calls[k], facts(calls[k].id))
  }

  ghost predicate DocsOk(docs: seq<Doc>) { forall i :: 0 <= i < |docs| ==> DocOk(docs[i]) }

  ghost predicate DocsShaped(docs: seq<Doc>) { forall i :: 0 <= i < |docs| ==> Shape(docs[i]) }

  lemma {:induction false} DocsCons(d: Doc, docs: seq<Doc>)
    ensures DocsOk([d] + docs) <==> DocOk(d) && DocsOk(docs)
    ensures DocsShaped([d] + docs) <==> Shape(d) && DocsShaped(docs)
  {
    hide DocOk, Shape;
    var all := [d] + docs;
    assert all[0] == d && forall i :: 0 <= i < |docs| ==> docs[i] == all[i + 1];
  }

  lemma AcceptableCons(calls: seq<Call>, facts: Facts)
    requires calls != []
    ensures StackAcceptable(calls, facts)
       <==> (calls[0].start > 0 ==> CallAcceptable(calls[0], facts(calls[0].id)))
            && StackAcceptable(calls[1..], facts)
    ensures StackSized(calls) ==> CallSized(calls[0]) && StackSized(calls[1..])
  {
    hide CallAcceptable, CallSized;
    var rest := calls[1..];
    assert forall k :: 0 <= k < |rest| ==> rest[k] == calls[k + 1];
    assert forall k :: 0 < k < |calls| ==> calls[k] == rest[k - 1];
  }

  lemma {:induction false} DocsOkIff(calls: seq<Call>, facts: Facts)
    requires StackSized(calls)
    ensures DocsOk(CallDocs(calls, facts)) <==> StackAcceptable(calls, facts)
    ensures DocsShaped(CallDocs(calls, facts))
  {
    hide CallDoc, CallAcceptable, CallSized, DocOk, Shape;
    if calls != [] {
      AcceptableCons(calls, facts);
      DocsOkIff(calls[1..], facts);
      CallOkIff(calls[0], facts(calls[0].id));
      DocsCons(CallDoc(calls[0], facts(calls[0].id)), CallDocs(calls[1..], facts));
      hide StackAcceptable, StackSized, DocsOk, DocsShaped;
      assert [] + CallDocs(calls[1..], facts) == CallDocs(calls[1..], facts);
    }
  }

  /** For every call list: the array is JSON exactly when the times of each call written
      print as numbers and each of its arrays of operations meets the exact condition of the
      serializer; it is then an array of the values of the calls. */
  lemma {:induction false} StackWellFormedIff(calls: seq<Call>, facts: Facts)
    requires StackSized(calls)
    ensures WellFormed(StackText(calls, facts)) <==> StackAcceptable(calls, facts)
    ensures StackAcceptable(calls, facts) ==> DocsOk(CallDocs(calls, facts))
    ensures StackAcceptable(calls, facts) ==>
              Decode(StackText(calls, facts)) == Some(Arr(StackItems(CallDocs(calls, facts))))
  {
    hide StackAcceptable, StackSized, Decode, Render, CallDocs;
    var docs := CallDocs(calls, facts);
    DocsOkIff(calls, facts);
    Aggregate.ListShape(docs);
    RenderWellFormedIff(DList(docs, None));
    assert DocOk(DList(docs, None)) <==> DocsOk(docs);
    if StackAcceptable(calls, facts) {
      ItemsValues(docs);
      assert ToItems(docs) + [] == ToItems(docs) == StackItems(docs);
    }
  }

  /** A call with more than 1000 operations of one kind breaks the whole array. */
  lemma ManyOperationsBreak(calls: seq<Call>, facts: Facts, k: nat, kind: Kind)
    requires StackSized(calls) && k < |calls| && calls[k].start > 0 && |OpsOf(calls[k], kind)| > MAX_ELEMENTS
    ensures !WellFormed(StackText(calls, facts))
  {
    hide WellFormed, StackText, Spans.Duration, StackSized;
    StackWellFormedIff(calls, facts);
    var ops := OpsOf(calls[k], kind);
    assert |Table(OpsTables(ops), 0)| == |ops|;
    assert !OpsAcceptable(ops);
  }

  /** The values of the calls. */
  function StackItems(docs: seq<Doc>): (items: seq<Json>)
    ensures |items| == |docs|
    ensures forall i :: 0 <= i < |docs| ==> items[i] == if DocOk(docs[i]) then ToJson(docs[i]) else Null
  {
    if docs == [] then []
    else [if DocOk(docs[0]) then ToJson(docs[0]) else Null] + StackItems(docs[1..])
  }

  // ----- reading a call back -----

  function StringOf(j: Option<Json>): Option<string> {
    if j.Some? && j.value.Str? then Some(j.value.s) else None
  }

  /** A call as its object tells it: its id and its parent's, if it has one. Nothing is asked
      about its end. */
  function ReadCall(item: Json): Call {
    var members := if item.Obj? then item.members else [];
    var id := StringOf(MemberValue(members, "call_id"));
    Call(Text(id), StringOf(MemberValue(members, "parent_id")), "", 0, 1, 1, [], [], [], [])
  }

  function ReadCalls(items: seq<Json>): (calls: seq<Call>)
    ensures |calls| == |items|
    ensures forall i :: 0 <= i < |items| ==> calls[i] == ReadCall(items[i])
  {
    if items == [] then [] else [ReadCall(items[0])] + ReadCalls(items[1..])
  }

  /** What is left of a call. */
  function Bare(c: Call): Call { Call(c.id, c.parent, "", 0, 1, 1, [], [], [], []) }

  function EntryValue(entries: seq<DEntry>, name: string): Option<Doc> {
    if entries == [] then None
    else if entries[0].key == Some(name) then Some(entries[0].value)
    else EntryValue(entries[1..], name)
  }

  lemma {:induction false} EntryValueConcat(a: seq<DEntry>, b: seq<DEntry>, name: string)
    ensures EntryValue(a + b, name) == if EntryValue(a, name).Some? then EntryValue(a, name) else EntryValue(b, name)
  {
    if a == [] {
      assert a + b == b;
    } else {
      EntryValueConcat(a[1..], b, name);
      assert (a + b)[1..] == a[1..] + b;
    }
  }

  lemma {:induction false} MemberIsEntry(entries: seq<DEntry>, name: string)
    requires forall i :: 0 <= i < |entries| ==> EntryOk(entries[i])
    ensures EntryValue(entries, name).Some? ==> DocOk(EntryValue(entries, name).value)
    ensures MemberValue(ToMembers(entries), name)
         == if EntryValue(entries, name).Some? then Some(ToJson(EntryValue(entries, name).value)) else None
  {
    hide ToJson, DocOk;
    if entries != [] {
      MemberIsEntry(entries[1..], name);
      assert EntryOk(entries[0]);
      assert ToMembers(entries)[1..] == ToMembers(entries[1..]);
    }
  }

  lemma {:induction false} NoEntry(entries: seq<DEntry>, name: string)
    requires forall i :: 0 <= i < |entries| ==> entries[i].key.Some? && |entries[i].key.value| != |name|
    ensures EntryValue(entries, name) == None
  {
    if entries != [] {
      NoEntry(entries[1..], name);
    }
  }

  lemma HeadValues(c: Call, d: Details)
    ensures EntryValue(HeadEntries(c, d), "call_id") == Some(DStr(c.id))
    ensures EntryValue(HeadEntries(c, d), "parent_id") == None
  {
    hide FunctionName, SignedText;
    NoEntry(HeadEntries(c, d), "parent_id");
  }

  lemma LinkValues(c: Call, d: Details)
    ensures EntryValue(LinkEntries(c, d), "parent_id") == Some(ParentDoc(c))
    ensures EntryValue(MeasureEntries(c, d), "parent_id") == None
  {
    hide MilliText, SignedText, ParentDoc, Spans.Duration;
    NoEntry(MeasureEntries(c, d), "parent_id");
  }

  /** A call's object tells its id and its parent's id. */
  lemma CallReadBack(c: Call, d: Details)
    requires DocOk(CallDoc(c, d)) && (c.parent.Some? ==> c.parent.value != "")
    ensures ReadCall(ToJson(CallDoc(c, d))) == Bare(c)
  {
    hide HeadEntries, MeasureEntries, LinkEntries, OpsEntries, EntryValue, DocOk, MemberValue, ToMembers;
    var entries := CallEntries(c, d);
    CallValues(c, d);
    MapIsOk(entries);
    MemberIsEntry(entries, "call_id");
    MemberIsEntry(entries, "parent_id");
    assert ToMembers(entries) + [] == ToMembers(entries);
    assert ToJson(DMap(entries, None)) == Obj(ToMembers(entries));
    hide CallEntries;
    assert ToJson(DStr(c.id)) == Str(c.id);
    assert ToJson(ParentDoc(c)) == if c.parent.Some? then Str(c.parent.value) else Null;
  }

  lemma MapIsOk(entries: seq<DEntry>)
    requires DocOk(DMap(entries, None))
    ensures forall i :: 0 <= i < |entries| ==> EntryOk(entries[i])
  {
  }

  lemma CallValues(c: Call, d: Details)
    ensures EntryValue(CallEntries(c, d), "call_id") == Some(DStr(c.id))
    ensures EntryValue(CallEntries(c, d), "parent_id") == Some(ParentDoc(c))
  {
    hide HeadEntries, MeasureEntries, LinkEntries, OpsEntries, EntryValue, ParentDoc;
    var a, b, x, y := HeadEntries(c, d), MeasureEntries(c, d), LinkEntries(c, d), OpsEntries(c) + [CHILDREN];
    HeadValues(c, d);
    LinkValues(c, d);
    assert CallEntries(c, d) == a + (b + (x + y));
    EntryValueConcat(a, b + (x + y), "call_id");
    EntryValueConcat(a, b + (x + y), "parent_id");
    EntryValueConcat(b, x + y, "parent_id");
    EntryValueConcat(x, y, "parent_id");
  }

  // ----- reading all of them back -----

  function BareAll(calls: seq<Call>): (r: seq<Call>)
    ensures |r| == |calls|
    ensures forall i :: 0 <= i < |calls| ==> r[i] == Bare(calls[i])
  {
    if calls == [] then [] else [Bare(calls[0])] + BareAll(calls[1..])
  }

  /** Every call has a start time. */
  ghost predicate Started(calls: seq<Call>) { forall k :: 0 <= k < |calls| ==> calls[k].start > 0 }

  lemma {:induction false} DocsOfStarted(calls: seq<Call>, facts: Facts)
    requires Started(calls)
    ensures |CallDocs(calls, facts)| == |calls|
    ensures forall k :: 0 <= k < |calls| ==> CallDocs(calls, facts)[k] == CallDoc(calls[k], facts(calls[k].id))
  {
    hide CallDoc;
    if calls != [] {
      DocsOfStarted(calls[1..], facts);
    }
  }

  /** The decoded array names exactly the calls of the list, each once and in order, with
      their parents. */
  lemma {:induction false} StackReadBack(calls: seq<Call>, facts: Facts)
    requires StackSized(calls) && StackAcceptable(calls, facts) && Started(calls) && GeneratedIds(calls)
    ensures var items := StackItems(CallDocs(calls, facts));
            Decode(StackText(calls, facts)) == Some(Arr(items)) && ReadCalls(items) == BareAll(calls)
  {
    hide CallDoc, CallDocs, Decode, StackText, StackAcceptable, StackSized, DocOk, ToJson, ReadCall, Bare;
    StackWellFormedIff(calls, facts);
    DocsOfStarted(calls, facts);
    var docs := CallDocs(calls, facts);
    forall k | 0 <= k < |calls|
      ensures ReadCall(StackItems(docs)[k]) == Bare(calls[k])
    {
      assert DocOk(docs[k]);
      CallReadBack(calls[k], facts(calls[k].id));
    }
  }

  lemma {:induction false} BareIds(calls: seq<Call>)
    ensures Ids(BareAll(calls)) == Ids(calls)
  {
  }

  lemma {:induction false} BareOrdered(calls: seq<Call>)
    requires Ordered(calls)
    ensures Ordered(BareAll(calls))
  {
    hide Ids;
    BareIds(calls);
    var bare := BareAll(calls);
    forall k | 0 <= k < |bare| && bare[k].parent.Some?
      ensures bare[k].parent.value in Ids(bare[k + 1..])
    {
      IdsSuffix(calls, bare, k + 1);
    }
  }

  lemma {:induction false} BareFinished(calls: seq<Call>, k: nat)
    requires Ordered(BareAll(calls)) && k < |calls|
    ensures Finished(BareAll(calls), k)
    decreases |calls| - k
  {
    hide Ordered, Find;
    var bare := BareAll(calls);
    if bare[k].parent.Some? {
      ParentPosition(bare, k);
      BareFinished(calls, Find(bare, bare[k].parent.value).value);
    }
  }

  /** At a shutdown after any run the text of the call stack, if acceptable, decodes to the
      calls of the collector: each once, newest first, finished or not; and the forest that
      the parent ids give has every one of them exactly once. */
  lemma {:induction false} NothingLostAtShutdown(enabled: bool, run: seq<Event>, facts: Facts)
    requires ValidRun(Initial(enabled), run)
    requires var calls := Final(Initial(enabled), run).calls;
             && StackSized(calls) && StackAcceptable(calls, facts)
             && forall k :: 0 <= k < |calls| ==> Generated(calls[k].id)
    ensures var calls := Final(Initial(enabled), run).calls;
            var items := StackItems(CallDocs(calls, facts));
            && Decode(StackText(calls, facts)) == Some(Arr(items))
            && Ids(ReadCalls(items)) == Ids(calls) && NoDup(Ids(calls)) && Ordered(ReadCalls(items))
            && forall k :: 0 <= k < |calls| ==> Occurrences(Preorder(RebuildForest(ReadCalls(items))), calls[k].id) == 1
  {
    hide ValidRun, Final, StackSized, StackAcceptable, CallDocs, Decode, StackText, Generated, Occurrences, Preorder;
    hide RebuildForest, Finished, Ids;
    ReachableIsOrdered(enabled, run);
    var calls := Final(Initial(enabled), run).calls;
    ParentsGenerated(calls);
    StackReadBack(calls, facts);
    BareOrdered(calls);
    BareIds(calls);
    var bare := BareAll(calls);
    forall k | 0 <= k < |calls|
      ensures Occurrences(Preorder(RebuildForest(bare)), calls[k].id) == 1
    {
      BareFinished(calls, k);
      VisitedOnceIffFinished(bare, k);
    }
  }

  lemma ParentsGenerated(calls: seq<Call>)
    requires Ordered(calls) && forall k :: 0 <= k < |calls| ==> Generated(calls[k].id)
    ensures GeneratedIds(calls)
  {
    hide Generated;
    forall k | 0 <= k < |calls| && calls[k].parent.Some?
      ensures Generated(calls[k].parent.value)
    {
      ParentPosition(calls, k);
    }
  }

  // ----- the forest -----

  /** Only the ids of a forest. */
  function BareForest(f: seq<Tree>): (r: seq<Tree>)
    decreases f, 0
  {
    if f == [] then [] else [BareTree(f[0])] + BareForest(f[1..])
  }

  function BareTree(t: Tree): Tree
    decreases t, 1
  {
    Node(t.id, "", 1, 1, BareForest(t.kids))
  }

  ghost predicate AllCompleted(calls: seq<Call>) { forall k :: 0 <= k < |calls| ==> Completed(calls[k]) }

  lemma {:induction false} ChildAlike(calls: seq<Call>, k: nat, parent: Option<Id>)
    requires AllCompleted(calls) && k < |calls|
    ensures ChildOf(BareAll(calls)[k], parent) <==> ChildOf(calls[k], parent)
  {
    hide BareAll;
  }

  lemma {:induction false} BareChildren(calls: seq<Call>, parent: Option<Id>, lo: nat, hi: nat)
    requires Ordered(calls) && Ordered(BareAll(calls)) && AllCompleted(calls) && lo <= hi <= |calls|
    ensures Children(BareAll(calls), parent, lo, hi) == BareForest(Children(calls, parent, lo, hi))
    decreases Bound(calls, parent), hi - lo
  {
    hide Ordered, BareTree, RebuildTree, BareAll, Find;
    if lo < hi {
      ChildAlike(calls, lo, parent);
      hide AllCompleted, Completed;
      if ChildOf(calls[lo], parent) {
        assert lo < Bound(calls, parent) by { if parent.Some? { ParentPosition(calls, lo); } }
        BareRebuilt(calls, lo);
      }
      BareChildren(calls, parent, lo + 1, hi);
    }
  }

  lemma {:induction false} BareRebuilt(calls: seq<Call>, k: nat)
    requires Ordered(calls) && Ordered(BareAll(calls)) && AllCompleted(calls) && k < |calls|
    ensures RebuildTree(BareAll(calls), k) == BareTree(RebuildTree(calls, k))
    decreases k, |calls| + 1
  {
    hide Ordered, Children;
    FindOwn(calls, k);
    BareChildren(calls, Some(calls[k].id), 0, |calls|);
  }

  lemma {:induction false} FlattenTimes(f: seq<Tree>, parent: Option<Id>, n: int)
    requires TimesPositive(f)
    ensures Started(Flatten(f, parent, n)) && AllCompleted(Flatten(f, parent, n))
    decreases f
  {
    if f != [] {
      FlattenTimes(f[1..], parent, n + |TreeIds([f[0]])|);
      FlattenTimes(f[0].kids, Some(f[0].id), n + 1);
    }
  }

  /** Replaying any forest in a freshly started collector, writing the call stack, decoding
      it and rebuilding by parent ids gives the forest's ids back, siblings reversed. */
  lemma {:induction false} ForestIsReceived(s: State, f: seq<Tree>, facts: Facts)
    requires s.active && s.calls == [] && s.stack == [] && s.stackDepth == 0
    requires NoDup(TreeIds(f)) && TimesPositive(f) && forall id :: id in TreeIds(f) ==> Generated(id)
    requires var calls := Final(s, Events(f)).calls; StackSized(calls) && StackAcceptable(calls, facts)
    ensures var calls := Final(s, Events(f)).calls;
            var items := StackItems(CallDocs(calls, facts));
            && Decode(StackText(calls, facts)) == Some(Arr(items)) && Ordered(ReadCalls(items))
            && RebuildForest(ReadCalls(items)) == BareForest(Mirror(f))
  {
    hide Final, Events, Flatten, TreeIds, Mirror, Ids, NoDup, Ordered, Decode, StackText, CallDocs, Generated;
    hide StackSized, StackAcceptable, BareForest, Children, TimesPositive;
    assert Ids(s.calls) == [] by { NoIds(); }
    ReplayForest(s, f);
    var calls := Final(s, Events(f)).calls;
    assert calls == Flatten(f, None, s.callDepth) + [] == Flatten(f, None, s.callDepth);
    FlattenTimes(f, None, s.callDepth);
    FlattenIds(f, None, s.callDepth);
    ReplayThenRebuild(s, f);
    forall k | 0 <= k < |calls|
      ensures Generated(calls[k].id)
    {
      assert Ids(calls)[k] == calls[k].id;
    }
    ParentsGenerated(calls);
    StackReadBack(calls, facts);
    BareOrdered(calls);
    BareChildren(calls, None, 0, |calls|);
  }
}
