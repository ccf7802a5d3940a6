/** The collector in the source's own form: call nodes threaded on two intrusive lists,
    all calls newest first and the stack of open calls. Each operation is proved to take
    the step of `CollectorSpec` on the list's records. */
module Collector {
  import opened Seqs
  import opened CollectorSpec

  class CallNode {
    const callId: Id
    const parentId: Option<Id>
    const functionName: string
    const depth: int
    const startTime: int
    var endTime: int
    var sqlQueries: seq<Op>
    var httpRequests: seq<Op>
    var cacheOperations: seq<Op>
    var redisOperations: seq<Op>
    var next: CallNode?
    var stackNext: CallNode?

    ghost function Rec(): Call
      reads this
    {
      Call(callId, parentId, functionName, depth, startTime, endTime,
           sqlQueries, httpRequests, cacheOperations, redisOperations)
    }

    constructor (id: Id, parent: Option<Id>, name: string, depth: int, now: int, next: CallNode?, stackNext: CallNode?)
      ensures Rec() == Call(id, parent, name, depth, now, 0, [], [], [], [])
      ensures this.next == next && this.stackNext == stackNext
    {
      callId, parentId, functionName, this.depth := id, parent, name, depth;
      startTime, endTime := now, 0;
      sqlQueries, httpRequests, cacheOperations, redisOperations := [], [], [], [];
      this.next, this.stackNext := next, stackNext;
    }

    method SetEnd(now: int)
      modifies this`endTime
      ensures Rec() == Ended(old(Rec()), now)
    {
      endTime := now;
    }

    method Add(kind: Kind, op: Op)
      modifies this`sqlQueries, this`httpRequests, this`cacheOperations, this`redisOperations
      ensures Rec() == AddOp(old(Rec()), kind, op)
    {
      match kind {
        case KSql => sqlQueries := sqlQueries + [op];
        case KHttp => httpRequests := httpRequests + [op];
        case KCache => cacheOperations := cacheOperations + [op];
        case KRedis => redisOperations := redisOperations + [op];
      }
    }
  }

  /** The records of the nodes, in order. */
  ghost function Recs(list: seq<CallNode>): (r: seq<Call>)
    reads list
    ensures |r| == |list|
    ensures forall i :: 0 <= i < |list| ==> r[i] == list[i].Rec()
  {
    if list == [] then [] else [list[0].Rec()] + Recs(list[1..])
  }

  ghost function NodeIds(list: seq<CallNode>): (r: seq<Id>)
    ensures |r| == |list|
    ensures forall i :: 0 <= i < |list| ==> r[i] == list[i].callId
  {
    if list == [] then [] else [list[0].callId] + NodeIds(list[1..])
  }

  /** `list` is what following `next` from `head` yields. */
  ghost predicate Chain(head: CallNode?, list: seq<CallNode>)
    reads list
  {
    && head == (if list == [] then null else list[0])
    && (forall i, j {:trigger list[i], list[j]} :: 0 <= i < j < |list| && j == i + 1 ==> list[i].next == list[j])
    && (list != [] ==> list[|list| - 1].next == null)
  }

  ghost predicate StackChain(top: CallNode?, stk: seq<CallNode>)
    reads stk
  {
    && top == (if stk == [] then null else stk[0])
    && (forall i, j {:trigger stk[i], stk[j]} :: 0 <= i < j < |stk| && j == i + 1 ==> stk[i].stackNext == stk[j])
    && (stk != [] ==> stk[|stk| - 1].stackNext == null)
  }

  class Profiler {
    const enabled: bool
    var profilingActive: bool
    var active: bool
    var calls: CallNode?
    var callStackTop: CallNode?
    var callStackDepth: int
    var callDepth: int
    var callCount: int
    ghost var list: seq<CallNode>
    ghost var stk: seq<CallNode>

    ghost predicate Valid()
      reads this, list, stk
    {
      && Chain(calls, list)
      && StackChain(callStackTop, stk)
      && (forall n :: n in stk ==> n in list)
      && (forall i, j :: 0 <= i < j < |list| ==> list[i].callId != list[j].callId)
    }

    ghost function Abs(): State
      reads this, list
    {
      State(enabled, profilingActive, active, Recs(list), NodeIds(stk), callStackDepth, callDepth, callCount)
    }

    constructor (enabled: bool)
      ensures Valid() && Abs() == Initial(enabled)
    {
      this.enabled := enabled;
      profilingActive, active := false, false;
      calls, callStackTop := null, null;
      callStackDepth, callDepth, callCount := 0, 0, 0;
      list, stk := [], [];
    }

    method Start()
      modifies this
      ensures Valid() && Abs() == DoStart(old(Abs()))
    {
      active := true;
      callStackTop, callStackDepth, callDepth, callCount, calls := null, 0, 0, 0, null;
      list, stk := [], [];
    }

    method Stop()
      requires Valid()
      modifies this
      ensures Valid() && Abs() == DoStop(old(Abs()))
    {
      active := false;
    }

    method Enable()
      modifies this
      ensures Valid() && Abs() == Apply(old(Abs()), Event.Enable)
    {
      profilingActive := true;
      Start();
    }

    method Disable()
      requires Valid()
      modifies this
      ensures Valid() && Abs() == Apply(old(Abs()), Event.Disable)
    {
      profilingActive := false;
      Stop();
    }

    /** Returns the id of the new call, or nothing when the collector is not active;
        `id` is what the generator yields. */
    method Enter(id: Id, name: string, now: int) returns (r: Option<Id>)
      requires Valid() && id !in NodeIds(list)
      modifies this
      ensures Valid() && Abs() == DoEnter(old(Abs()), id, name, now)
      ensures r == if active then Some(id) else None
      ensures active ==> callStackTop != null && fresh(callStackTop)
    {
      hide Recs, NodeIds, Find, Abs, Valid;
      AbsIs();
      if !active {
        return None;
      }
      TopIs();
      NotListed(id);
      var parent := if callStackTop != null then Some(callStackTop.callId) else None;
      var call := new CallNode(id, parent, name, callDepth, now, calls, callStackTop);
      Push(call);
      AbsIs();
      r := Some(id);
    }

    lemma AbsIs()
      ensures Abs().active == active && Abs().callDepth == callDepth && Abs().stack == NodeIds(stk)
    {
    }

    lemma NotListed(id: Id)
      requires id !in NodeIds(list)
      ensures forall n :: n in list ==> n.callId != id
    {
      hide NodeIds;
      assert forall i :: 0 <= i < |list| ==> NodeIds(list)[i] == list[i].callId;
    }

    lemma TopIs()
      requires Valid()
      ensures callStackTop == if stk == [] then null else stk[0]
      ensures |NodeIds(stk)| == |stk| && (stk != [] ==> NodeIds(stk)[0] == stk[0].callId)
    {
    }

    /** Adds a node, already linked to the current heads, to both lists. */
    method Push(call: CallNode)
      requires Valid() && call.next == calls && call.stackNext == callStackTop
      requires forall n :: n in list ==> n.callId != call.callId
      modifies this
      ensures Valid() && callStackTop == call
      ensures var s := old(Abs());
              Abs() == s.(calls := [call.Rec()] + s.calls, stack := [call.callId] + s.stack,
                          stackDepth := s.stackDepth + 1, callDepth := s.callDepth + 1, callCount := s.callCount + 1)
    {
      hide Recs, NodeIds, CallNode.Rec;
      RecsPush(call, list);
      NodeIdsPush(call, stk);
      PushChains(call);
      calls, callStackTop := call, call;
      callStackDepth, callDepth, callCount := callStackDepth + 1, callDepth + 1, callCount + 1;
      list, stk := [call] + list, [call] + stk;
    }

    lemma PushChains(call: CallNode)
      requires Valid() && call.next == calls && call.stackNext == callStackTop
      ensures Chain(call, [call] + list) && StackChain(call, [call] + stk)
    {
      hide Recs, NodeIds, CallNode.Rec;
    }

    method Exit(id: Id, now: int)
      requires Valid()
      modifies this, list
      ensures Valid() && Abs() == DoExit(old(Abs()), id, now)
    {
      hide Valid, Recs, NodeIds, Find;
      if !active {
        return;
      }
      var call, i := FindCall(id);
      if call != null {
        SetEndTime(call, i, now);
        PopIfTop(id);
      }
    }

    method SetEndTime(call: CallNode, ghost i: nat, now: int)
      requires Valid() && i < |list| && call == list[i]
      modifies call`endTime
      ensures Valid()
      ensures var s := old(Abs()); Abs() == s.(calls := s.calls[i := Ended(s.calls[i], now)])
    {
      hide Recs, NodeIds, CallNode.Rec;
      ghost var recs := Recs(list);
      ghost var rec := Ended(recs[i], now);
      call.SetEnd(now);
      assert list[i].Rec() == rec;
    }

    /** The search loop over all calls. */
    method FindCall(id: Id) returns (call: CallNode?, ghost i: nat)
      requires Valid()
      ensures call != null ==> i < |list| && call == list[i] && Find(Recs(list), id) == Some(i)
      ensures call == null ==> Find(Recs(list), id) == None
    {
      hide Recs, Find;
      call, i := calls, 0;
      while call != null && call.callId != id
        invariant i <= |list| && call == if i < |list| then list[i] else null
        invariant forall j :: 0 <= j < i ==> list[j].callId != id
        decreases |list| - i
      {
        call, i := call.next, i + 1;
      }
      if call != null {
        FindIs(Recs(list), id, i);
      } else {
        FindNone(Recs(list), id);
      }
    }

    /** Pops the stack if the call with this id is on top of it. */
    method PopIfTop(id: Id)
      requires Valid()
      modifies this
      ensures Valid() && list == old(list)
      ensures var s := old(Abs());
              Abs() == if s.stack != [] && s.stack[0] == id then
                         s.(stack := s.stack[1..],
                            stackDepth := if s.stackDepth > 0 then s.stackDepth - 1 else s.stackDepth)
                       else s
    {
      hide Recs, NodeIds;
      if callStackTop != null && callStackTop.callId == id {
        callStackTop := callStackTop.stackNext;
        if callStackDepth > 0 {
          callStackDepth := callStackDepth - 1;
        }
        stk := stk[1..];
        assert NodeIds(stk) == old(NodeIds(stk))[1..];
      }
    }

    /** Appends an operation to the call on top of the stack, if there is one. */
    method AttachToTop(kind: Kind, op: Op)
      requires Valid()
      modifies callStackTop
      ensures Valid()
      ensures Abs() == Attach(old(Abs()), kind, op)
    {
      hide Recs, NodeIds, Find;
      var call := callStackTop;
      if call == null {
        return;
      }
      assert stk[0] in list;
      ghost var i :| 0 <= i < |list| && list[i] == call;
      FindIs(Recs(list), call.callId, i);
      AddTo(call, i, kind, op);
    }

    method AddTo(call: CallNode, ghost i: nat, kind: Kind, op: Op)
      requires Valid() && i < |list| && call == list[i]
      modifies call`sqlQueries, call`httpRequests, call`cacheOperations, call`redisOperations
      ensures Valid()
      ensures var s := old(Abs()); Abs() == s.(calls := s.calls[i := AddOp(s.calls[i], kind, op)])
    {
      hide Recs, NodeIds, CallNode.Rec, AddOp;
      ghost var recs := Recs(list);
      ghost var rec := AddOp(recs[i], kind, op);
      call.Add(kind, op);
      assert list[i].Rec() == rec;
    }

    /** `rootId` is the id generated for the `__root__` call should one be needed. */
    method RecordHttpRequest(op: Op, rootId: Id, now: int)
      requires Valid() && rootId !in NodeIds(list)
      modifies this, callStackTop
      ensures Valid() && Abs() == Apply(old(Abs()), Event.Http(op, rootId, now))
    {
      if !enabled || !profilingActive || !active {
        return;
      }
      if callStackTop == null {
        var _ := Enter(rootId, "__root__", now);
      }
      AttachToTop(KHttp, op);
    }

    method RecordSqlQuery(op: Op, rootId: Id, now: int)
      requires Valid() && rootId !in NodeIds(list)
      modifies this, callStackTop
      ensures Valid() && Abs() == Apply(old(Abs()), Event.Sql(op, rootId, now))
    {
      if !enabled || !profilingActive || !active {
        return;
      }
      if callStackTop == null {
        var _ := Enter(rootId, "__root__", now);
      }
      AttachToTop(KSql, op);
    }

    method RecordCacheOperation(op: Op)
      requires Valid()
      modifies callStackTop
      ensures Valid() && Abs() == Apply(old(Abs()), Event.Cache(op))
    {
      if !enabled || !profilingActive || !active {
        return;
      }
      AttachToTop(KCache, op);
    }

    method RecordRedisOperation(op: Op)
      requires Valid()
      modifies callStackTop
      ensures Valid() && Abs() == Apply(old(Abs()), Event.Redis(op))
    {
      if !enabled || !profilingActive || !active {
        return;
      }
      AttachToTop(KRedis, op);
    }
  }

  lemma {:induction false} RecsPush(call: CallNode, list: seq<CallNode>)
    ensures Recs([call] + list) == [call.Rec()] + Recs(list)
  {
    assert ([call] + list)[1..] == list;
  }

  lemma {:induction false} NodeIdsPush(call: CallNode, list: seq<CallNode>)
    ensures NodeIds([call] + list) == [call.callId] + NodeIds(list)
  {
    assert ([call] + list)[1..] == list;
  }

  lemma {:induction false} FindIs(calls: seq<Call>, id: Id, i: nat)
    requires i < |calls| && calls[i].id == id
    requires forall j :: 0 <= j < |calls| && j != i ==> calls[j].id != id || j > i
    ensures Find(calls, id) == Some(i)
  {
  }

  lemma {:induction false} FindNone(calls: seq<Call>, id: Id)
    requires forall j :: 0 <= j < |calls| ==> calls[j].id != id
    ensures Find(calls, id) == None
  {
  }
}
