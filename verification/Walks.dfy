/** Walks over the collector's linked list: the parent search and the emission of child spans
    at shutdown, and the exported recursive traversal of the call tree. */
module Walks {
  import opened Seqs
  import opened CollectorSpec
  import opened Collector
  import opened Replay
  import opened Rebuild
  import opened Spans
  import opened Traversal
  import Aggregate

  /** The list is valid and in the order every run keeps. */
  ghost predicate Ready(p: Profiler)
    reads p, p.list, p.stk
  {
    p.Valid() && Ordered(Recs(p.list))
  }

  predicate SignificantNode(n: CallNode)
    reads n
    ensures SignificantNode(n) == Significant(n.Rec())
  {
    var end := if n.endTime > 0 then n.endTime else n.startTime + 1000;
    var duration := if end - n.startTime < 0 then 0 else end - n.startTime;
    n.sqlQueries != [] || n.httpRequests != [] || n.cacheOperations != [] || n.redisOperations != [] || duration > 10000
  }

  /** Searches the list for the parent call and recurses until it is significant. */
  method FindParentSpanId(p: Profiler, call: CallNode, ghost k: nat, root: Id) returns (r: Id)
    requires Ready(p) && k < |p.list| && p.list[k] == call
    ensures r == ParentSpanId(Recs(p.list), k, root) && NearestSpan(Recs(p.list), k, root, r)
    decreases |p.list| - k
  {
    hide Recs, Ordered, Significant, Find, NearestSpan;
    ParentIsNearestSpan(Recs(p.list), k, root);
    ghost var recs := Recs(p.list);
    assert recs[k].parent == call.parentId;
    if call.parentId.None? || call.parentId.value == "" {
      return root;
    }
    var parentCall, i := p.FindCall(call.parentId.value);
    if parentCall == null {
      return root;
    }
    assert ParentOf(recs, k) == Some(i) && recs[i].id == parentCall.callId;
    if SignificantNode(parentCall) {
      return parentCall.callId;
    }
    ParentLater(recs, k);
    r := FindParentSpanId(p, parentCall, i, root);
  }

  /** One span for every significant call, in list order. */
  method EmitChildSpans(p: Profiler, root: Id) returns (spans: seq<Span>)
    requires Ready(p)
    ensures spans == Emit(Recs(p.list), root) && SpansOfCalls(Recs(p.list), root, spans)
  {
    hide Recs, Ordered, Significant, ParentSpanId, SpansOfCalls, NearestSpan;
    WhichSpans(Recs(p.list), root);
    ghost var recs, i := Recs(p.list), 0;
    var call := p.calls;
    spans := [];
    while call != null
      invariant i <= |p.list| && call == if i < |p.list| then p.list[i] else null
      invariant spans + EmitFrom(recs, i, root) == Emit(recs, root)
      decreases |p.list| - i
    {
      assert recs[i] == call.Rec();
      if call.startTime > 0 && SignificantNode(call) {
        var parent := FindParentSpanId(p, call, i, root);
        spans := spans + [Span(call.callId, parent)];
      }
      call, i := call.next, i + 1;
    }
  }

  /** Visits a call and then, recursively, each completed call that names it as its parent. */
  method VisitCall(p: Profiler, call: CallNode, ghost k: nat) returns (ids: seq<Id>)
    requires Ready(p) && k < |p.list| && p.list[k] == call
    ensures ids == Preorder([RebuildTree(Recs(p.list), k)])
    decreases k
  {
    hide Recs, Ordered, Preorder, RebuildTree, Find;
    ghost var recs, i := Recs(p.list), 0;
    ids := [call.callId];
    var child := p.calls;
    TreeOrder(recs, k);
    assert recs[k].id == call.callId;
    while child != null
      invariant i <= |p.list| && child == if i < |p.list| then p.list[i] else null
      invariant ids + Preorder(Children(recs, Some(call.callId), i, |recs|)) == Preorder([RebuildTree(recs, k)])
      decreases |p.list| - i
    {
      assert recs[i] == child.Rec();
      if child.endTime > 0 && child.parentId.Some? && child.parentId.value == call.callId {
        ChildBelow(recs, i, k);
        var sub := VisitCall(p, child, i);
        ConsOrder(RebuildTree(recs, i), Children(recs, Some(call.callId), i + 1, |recs|));
        ids := ids + sub;
      }
      child, i := child.next, i + 1;
    }
    NoOrder();
  }

  lemma {:induction false} TreeOrder(calls: seq<Call>, k: nat)
    requires Ordered(calls) && k < |calls|
    ensures Preorder([RebuildTree(calls, k)]) ==
              [calls[k].id] + Preorder(Children(calls, Some(calls[k].id), 0, |calls|))
  {
    hide Ordered;
    assert [RebuildTree(calls, k)][1..] == [];
  }

  lemma {:induction false} ConsOrder(t: Tree, rest: seq<Tree>)
    ensures Preorder([t] + rest) == Preorder([t]) + Preorder(rest)
  {
    PreorderConcat([t], rest);
  }

  lemma NoOrder()
    ensures Preorder([]) == []
  {
  }

  lemma ChildBelow(calls: seq<Call>, i: nat, k: nat)
    requires Ordered(calls) && i < |calls| && k < |calls| && calls[i].parent == Some(calls[k].id)
    ensures i < k
  {
    hide Ordered;
    ParentPosition(calls, i);
    FindOwn(calls, k);
  }

  lemma RecIs(call: CallNode)
    ensures call.Rec().end == call.endTime && call.Rec().parent == call.parentId
  {
  }

  /** The scan for root calls, one position further. */
  lemma {:induction false} RootsStep(calls: seq<Call>, i: nat)
    requires Ordered(calls) && i < |calls|
    ensures var rest := Children(calls, None, i + 1, |calls|);
            if calls[i].end > 0 && calls[i].parent.None? then
              && Children(calls, None, i, |calls|) == [RebuildTree(calls, i)] + rest
              && Preorder(Children(calls, None, i, |calls|)) == Preorder([RebuildTree(calls, i)]) + Preorder(rest)
            else Children(calls, None, i, |calls|) == rest
  {
    hide Ordered, RebuildTree, Preorder;
    ConsOrder(RebuildTree(calls, i), Children(calls, None, i + 1, |calls|));
  }

  lemma {:induction false} RootsEnd(calls: seq<Call>)
    requires Ordered(calls)
    ensures Children(calls, None, |calls|, |calls|) == [] && Preorder(Children(calls, None, |calls|, |calls|)) == []
  {
    hide Ordered;
  }

  /** The traversal from the root calls, or the flat list when no root call has completed. */
  method VisitFromRoots(p: Profiler) returns (ids: seq<Id>)
    requires Ready(p)
    ensures ids == Visits(Recs(p.list))
  {
    hide Recs, Ordered, Preorder, RebuildTree, FlatIds, Children, CallNode.Rec, Profiler.Valid;
    ghost var recs, i := Recs(p.list), 0;
    ids := [];
    Aggregate.FirstCall(p);
    var call, foundAny := p.calls, false;
    while call != null
      invariant i <= |p.list| && call == if i < |p.list| then p.list[i] else null
      invariant ids + Preorder(Children(recs, None, i, |recs|)) == Preorder(RebuildForest(recs))
      invariant if foundAny then RebuildForest(recs) != []
                else ids == [] && RebuildForest(recs) == Children(recs, None, i, |recs|)
      decreases |p.list| - i
    {
      assert recs[i] == call.Rec();
      RecIs(call);
      RootsStep(recs, i);
      Aggregate.NextCall(p, i);
      if call.endTime > 0 && call.parentId.None? {
        var sub := VisitCall(p, call, i);
        ids, foundAny := ids + sub, true;
      }
      call, i := call.next, i + 1;
    }
    RootsEnd(recs);
    if !foundAny {
      ids := VisitFlat(p);
    }
  }

  method VisitFlat(p: Profiler) returns (ids: seq<Id>)
    requires Ready(p)
    ensures ids == FlatIds(Recs(p.list), 0)
  {
    hide Recs, Ordered, KidIds;
    ghost var recs, i := Recs(p.list), 0;
    ids := [];
    var call := p.calls;
    while call != null
      invariant i <= |p.list| && call == if i < |p.list| then p.list[i] else null
      invariant ids + FlatIds(recs, i) == FlatIds(recs, 0)
      decreases |p.list| - i
    {
      assert recs[i] == call.Rec();
      if call.endTime > 0 {
        var kids := VisitKids(p, call.callId);
        ids := ids + [call.callId] + kids;
      }
      call, i := call.next, i + 1;
    }
  }

  method VisitKids(p: Profiler, parent: Id) returns (ids: seq<Id>)
    requires Ready(p)
    ensures ids == KidIds(Recs(p.list), parent, 0)
  {
    hide Recs, Ordered;
    ghost var recs, i := Recs(p.list), 0;
    ids := [];
    var child := p.calls;
    while child != null
      invariant i <= |p.list| && child == if i < |p.list| then p.list[i] else null
      invariant ids + KidIds(recs, parent, i) == KidIds(recs, parent, 0)
      decreases |p.list| - i
    {
      assert recs[i] == child.Rec();
      if child.endTime > 0 && child.parentId.Some? && child.parentId.value == parent {
        ids := ids + [child.callId];
      }
      child, i := child.next, i + 1;
    }
  }
}
