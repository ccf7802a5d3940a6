/** The call collector as a state machine over enter, exit, record, start and stop events. */
module CollectorSpec {
  import opened Seqs
  import opened Lcs
  import opened Zval

  type Id = string

  /** A recorded operation: the entries of the array that describes it. */
  type Op = seq<Entry>

  /** One call; times are microseconds and `end` is 0 until the call has returned. */
  datatype Call = Call(
    id: Id, parent: Option<Id>, name: string, depth: int, start: int, end: int,
    sql: seq<Op>, http: seq<Op>, cache: seq<Op>, redis: seq<Op>)

  datatype State = State(
    enabled: bool,       // the module setting
    profiling: bool,     // the profiling_active flag
    active: bool,        // the collector's own flag
    calls: seq<Call>,    // newest first
    stack: seq<Id>,      // top first
    stackDepth: int,
    callDepth: int,
    callCount: int)

  datatype Event =
    | Start
    | Stop
    | Enable
    | Disable
    | Enter(id: Id, name: string, now: int)
    | Exit(id: Id, now: int)
    | Http(op: Op, rootId: Id, now: int)
    | Sql(op: Op, rootId: Id, now: int)
    | Cache(op: Op)
    | Redis(op: Op)

  function Ids(calls: seq<Call>): (r: seq<Id>)
    ensures |r| == |calls|
    ensures forall i :: 0 <= i < |calls| ==> r[i] == calls[i].id
  {
    if calls == [] then [] else [calls[0].id] + Ids(calls[1..])
  }

  /** The position of the first call with this id. */
  function Find(calls: seq<Call>, id: Id): (r: Option<nat>)
    ensures r.Some? ==> r.value < |calls| && calls[r.value].id == id
    ensures r.Some? ==> forall j :: 0 <= j < r.value ==> calls[j].id != id
    ensures r.None? ==> forall j :: 0 <= j < |calls| ==> calls[j].id != id
  {
    if calls == [] then None
    else if calls[0].id == id then Some(0)
    else match Find(calls[1..], id)
         case Some(i) => Some(i + 1)
         case None => None
  }

  // ----- the operations -----

  function DoStart(s: State): State {
    s.(active := true, calls := [], stack := [], stackDepth := 0, callDepth := 0, callCount := 0)
  }

  function DoStop(s: State): State { s.(active := false) }

  function DoEnter(s: State, id: Id, name: string, now: int): State {
    if !s.active then s
    else
      var call := Call(id, if s.stack != [] then Some(s.stack[0]) else None, name, s.callDepth, now, 0, [], [], [], []);
      s.(calls := [call] + s.calls, stack := [id] + s.stack,
         stackDepth := s.stackDepth + 1, callDepth := s.callDepth + 1, callCount := s.callCount + 1)
  }

  function Ended(c: Call, now: int): Call { c.(end := now) }

  function DoExit(s: State, id: Id, now: int): State {
    if !s.active then s
    else
      match Find(s.calls, id)
      case None => s
      case Some(i) =>
        var s' := s.(calls := s.calls[i := Ended(s.calls[i], now)]);
        if s.stack != [] && s.stack[0] == id then
          s'.(stack := s.stack[1..], stackDepth := if s.stackDepth > 0 then s.stackDepth - 1 else s.stackDepth)
        else s'
  }

  predicate Recording(s: State) { s.enabled && s.profiling && s.active }

  /** HTTP requests and SQL queries outside any call get a root call of their own. */
  function EnsureTop(s: State, rootId: Id, now: int): State {
    if s.stack == [] then DoEnter(s, rootId, "__root__", now) else s
  }

  datatype Kind = KSql | KHttp | KCache | KRedis

  function AddOp(c: Call, kind: Kind, op: Op): Call {
    match kind
    case KSql => c.(sql := c.sql + [op])
    case KHttp => c.(http := c.http + [op])
    case KCache => c.(cache := c.cache + [op])
    case KRedis => c.(redis := c.redis + [op])
  }

  /** Appends to the call on top of the stack, if there is one. */
  function Attach(s: State, kind: Kind, op: Op): State {
    if s.stack == [] then s
    else
      match Find(s.calls, s.stack[0])
      case None => s
      case Some(i) => s.(calls := s.calls[i := AddOp(s.calls[i], kind, op)])
  }

  function Apply(s: State, e: Event): State {
    match e
    case Start => DoStart(s)
    case Stop => DoStop(s)
    case Enable => DoStart(s.(profiling := true))
    case Disable => DoStop(s.(profiling := false))
    case Enter(id, name, now) => DoEnter(s, id, name, now)
    case Exit(id, now) => DoExit(s, id, now)
    case Http(op, rootId, now) => if Recording(s) then Attach(EnsureTop(s, rootId, now), KHttp, op) else s
    case Sql(op, rootId, now) => if Recording(s) then Attach(EnsureTop(s, rootId, now), KSql, op) else s
    case Cache(op) => if Recording(s) then Attach(s, KCache, op) else s
    case Redis(op) => if Recording(s) then Attach(s, KRedis, op) else s
  }

  /** Ids are generated fresh, and the clock is past zero. */
  predicate Admissible(s: State, e: Event) {
    match e
    case Enter(id, _, now) => id !in Ids(s.calls) && now > 0
    case Exit(_, now) => now > 0
    case Http(_, rootId, now) => rootId !in Ids(s.calls) && now > 0
    case Sql(_, rootId, now) => rootId !in Ids(s.calls) && now > 0
    case _ => true
  }

  ghost predicate ValidRun(s: State, run: seq<Event>)
    decreases |run|
  {
    run == [] || (Admissible(s, run[0]) && ValidRun(Apply(s, run[0]), run[1..]))
  }

  ghost function Final(s: State, run: seq<Event>): State
    decreases |run|
  {
    if run == [] then s else Final(Apply(s, run[0]), run[1..])
  }

  function Initial(enabled: bool): State {
    State(enabled, false, false, [], [], 0, 0, 0)
  }

  // ----- the invariant of every run -----

  /** A call's parent is an older call, so it lies strictly later in the list. */
  ghost predicate ParentsLater(calls: seq<Call>) {
    forall i :: 0 <= i < |calls| && calls[i].parent.Some? ==> calls[i].parent.value in Ids(calls[i + 1..])
  }

  ghost predicate Inv(s: State) {
    && NoDup(Ids(s.calls))
    && Subseq(s.stack, Ids(s.calls))
    && s.stackDepth == |s.stack|
    && s.callDepth == s.callCount == |s.calls|
    && ParentsLater(s.calls)
    && TimesOk(s.calls)
  }

  ghost predicate TimesOk(calls: seq<Call>) {
    forall i :: 0 <= i < |calls| ==> calls[i].start > 0 && calls[i].end >= 0
  }

  lemma IdsUpdate(calls: seq<Call>, i: nat, c: Call)
    requires i < |calls| && c.id == calls[i].id
    ensures Ids(calls[i := c]) == Ids(calls)
  {
  }

  lemma UpdateKeepsParents(calls: seq<Call>, i: nat, c: Call)
    requires i < |calls| && c.id == calls[i].id && c.parent == calls[i].parent && ParentsLater(calls)
    ensures ParentsLater(calls[i := c])
  {
    hide Ids;
    var calls' := calls[i := c];
    forall k | 0 <= k < |calls'| && calls'[k].parent.Some?
      ensures calls'[k].parent.value in Ids(calls'[k + 1..])
    {
      IdsSuffix(calls, calls', k + 1);
      assert calls[k].parent == calls'[k].parent;
    }
  }

  lemma IdsSuffix(a: seq<Call>, b: seq<Call>, k: nat)
    requires |a| == |b| && k <= |a| && forall i :: 0 <= i < |a| ==> a[i].id == b[i].id
    ensures Ids(a[k..]) == Ids(b[k..])
  {
    hide Ids;
  }

  lemma {:induction false} PushKeepsParents(c: Call, calls: seq<Call>)
    requires ParentsLater(calls) && (c.parent.Some? ==> c.parent.value in Ids(calls))
    ensures ParentsLater([c] + calls)
  {
    hide Ids;
    var calls' := [c] + calls;
    forall k | 0 <= k < |calls'| && calls'[k].parent.Some?
      ensures calls'[k].parent.value in Ids(calls'[k + 1..])
    {
      PushSuffix(c, calls, k);
      if k > 0 {
        assert calls[k - 1 + 1..] == calls[k..];
      }
    }
  }

  lemma PushSuffix(c: Call, calls: seq<Call>, k: nat)
    requires k <= |calls|
    ensures ([c] + calls)[k + 1..] == calls[k..]
    ensures k > 0 ==> ([c] + calls)[k] == calls[k - 1]
  {
    assert |([c] + calls)[k + 1..]| == |calls[k..]|;
    assert forall i :: 0 <= i < |calls| - k ==> ([c] + calls)[k + 1..][i] == calls[k..][i];
  }

  lemma {:induction false} PushIds(c: Call, calls: seq<Call>, stack: seq<Id>)
    requires NoDup(Ids(calls)) && c.id !in Ids(calls) && Subseq(stack, Ids(calls))
    ensures Ids([c] + calls) == [c.id] + Ids(calls)
    ensures NoDup(Ids([c] + calls)) && Subseq([c.id] + stack, Ids([c] + calls))
  {
    var ids' := Ids([c] + calls);
    assert ([c] + calls)[1..] == calls && ids' == [c.id] + Ids(calls);
    assert ([c.id] + stack)[1..] == stack && ids'[1..] == Ids(calls);
  }

  lemma PushTimes(c: Call, calls: seq<Call>)
    requires TimesOk(calls) && c.start > 0 && c.end >= 0
    ensures TimesOk([c] + calls)
  {
  }

  lemma EnterKeepsInv(s: State, id: Id, name: string, now: int)
    requires Inv(s) && id !in Ids(s.calls) && now > 0
    ensures Inv(DoEnter(s, id, name, now))
  {
    if s.active {
      hide Ids, Subseq, ParentsLater, NoDup, Find, TimesOk;
      var parent := if s.stack != [] then Some(s.stack[0]) else None;
      var call := Call(id, parent, name, s.callDepth, now, 0, [], [], [], []);
      if s.stack != [] {
        SubseqLength(s.stack, Ids(s.calls));
        assert s.stack[0] in Ids(s.calls);
      }
      PushIds(call, s.calls, s.stack);
      PushKeepsParents(call, s.calls);
      PushTimes(call, s.calls);
      assert DoEnter(s, id, name, now).calls == [call] + s.calls;
    }
  }

  lemma ExitKeepsInv(s: State, id: Id, now: int)
    requires Inv(s) && now > 0
    ensures Inv(DoExit(s, id, now))
  {
    var f := Find(s.calls, id);
    if s.active && f.Some? {
      var s' := s.(calls := s.calls[f.value := Ended(s.calls[f.value], now)]);
      UpdateKeepsInv(s, f.value, Ended(s.calls[f.value], now));
      hide Ids, Subseq, ParentsLater, Find;
      if s.stack != [] && s.stack[0] == id {
        SubseqTail(s.stack, Ids(s'.calls));
      }
    }
  }

  lemma UpdateKeepsInv(s: State, i: nat, c: Call)
    requires Inv(s) && i < |s.calls| && c.id == s.calls[i].id && c.parent == s.calls[i].parent
    requires c.start > 0 && c.end >= 0
    ensures Inv(s.(calls := s.calls[i := c]))
  {
    IdsUpdate(s.calls, i, c);
    UpdateKeepsParents(s.calls, i, c);
    hide Ids, Subseq, ParentsLater;
  }

  lemma AttachKeepsInv(s: State, kind: Kind, op: Op)
    requires Inv(s)
    ensures Inv(Attach(s, kind, op))
  {
    if s.stack != [] {
      var f := Find(s.calls, s.stack[0]);
      if f.Some? {
        UpdateKeepsInv(s, f.value, AddOp(s.calls[f.value], kind, op));
      }
    }
  }

  lemma ApplyKeepsInv(s: State, e: Event)
    requires Inv(s) && Admissible(s, e)
    ensures Inv(Apply(s, e))
  {
    hide Inv, DoEnter, DoExit, Attach;
    match e {
      case Start => StartInv(s);
      case Stop => StopInv(s);
      case Enable => StartInv(s.(profiling := true));
      case Disable => StopInv(s); StopInv(s.(profiling := false));
      case Enter(id, name, now) => EnterKeepsInv(s, id, name, now);
      case Exit(id, now) => ExitKeepsInv(s, id, now);
      case Http(op, rootId, now) =>
        EnterKeepsInv(s, rootId, "__root__", now);
        AttachKeepsInv(EnsureTop(s, rootId, now), KHttp, op);
      case Sql(op, rootId, now) =>
        EnterKeepsInv(s, rootId, "__root__", now);
        AttachKeepsInv(EnsureTop(s, rootId, now), KSql, op);
      case Cache(op) => AttachKeepsInv(s, KCache, op);
      case Redis(op) => AttachKeepsInv(s, KRedis, op);
    }
  }

  lemma StartInv(s: State)
    ensures Inv(DoStart(s))
  {
  }

  lemma StopInv(s: State)
    requires Inv(s.(profiling := true)) || Inv(s)
    ensures Inv(DoStop(s))
  {
  }

  /** Over any sequence of events, in any exit order: the stack is a subsequence of the
      call list, the depth counter is its length, and parents are strictly later. */
  lemma {:induction false} RunKeepsInv(s: State, run: seq<Event>)
    requires Inv(s) && ValidRun(s, run)
    ensures Inv(Final(s, run))
    decreases |run|
  {
    if run != [] {
      ApplyKeepsInv(s, run[0]);
      RunKeepsInv(Apply(s, run[0]), run[1..]);
    }
  }

  /** An exit whose id is not in the current list, because it is unknown or from before
      the last start, changes nothing. */
  lemma UnknownExitChangesNothing(s: State, id: Id, now: int)
    requires id !in Ids(s.calls)
    ensures Apply(s, Exit(id, now)) == s
  {
    FindIff(s.calls, id);
  }

  lemma {:induction false} InactiveRun(s: State, run: seq<Event>)
    requires !s.active && forall i :: 0 <= i < |run| ==> !run[i].Start? && !run[i].Enable?
    ensures Final(s, run) == s.(profiling := Final(s, run).profiling)
    decreases |run|
  {
    hide Find, Attach;
    if run != [] {
      assert Apply(s, run[0]) == s.(profiling := Apply(s, run[0]).profiling);
      InactiveRun(Apply(s, run[0]), run[1..]);
    }
  }

  /** From a stop or a disable until the next start no run of events changes the calls, the
      stack or any counter. */
  lemma {:induction false} StoppedRunChangesNothing(s: State, e: Event, run: seq<Event>)
    requires (e.Stop? || e.Disable?) && forall i :: 0 <= i < |run| ==> !run[i].Start? && !run[i].Enable?
    ensures var s' := Final(Apply(s, e), run); s' == s.(active := false, profiling := s'.profiling)
  {
    InactiveRun(Apply(s, e), run);
  }

  lemma {:induction false} FindIff(calls: seq<Call>, id: Id)
    ensures Find(calls, id).Some? <==> id in Ids(calls)
  {
  }

  // ----- conservation of recorded operations -----

  function OpsOf(c: Call, kind: Kind): seq<Op> {
    match kind
    case KSql => c.sql
    case KHttp => c.http
    case KCache => c.cache
    case KRedis => c.redis
  }

  /** The order of the aggregates: call by call, newest call first. */
  function AllOps(calls: seq<Call>, kind: Kind): seq<Op> {
    if calls == [] then [] else OpsOf(calls[0], kind) + AllOps(calls[1..], kind)
  }

  /** What an event records. Requests and queries count even with an empty stack; cache
      and Redis operations need a call to belong to. */
  function Recorded(s: State, kind: Kind, e: Event): seq<Op> {
    if !Recording(s) then []
    else
      match e
      case Http(op, _, _) => if kind == KHttp then [op] else []
      case Sql(op, _, _) => if kind == KSql then [op] else []
      case Cache(op) => if kind == KCache && s.stack != [] then [op] else []
      case Redis(op) => if kind == KRedis && s.stack != [] then [op] else []
      case _ => []
  }

  /** The operations recorded since the last start, as a log kept beside the run. */
  function Log(s: State, kind: Kind, log: seq<Op>, e: Event): seq<Op> {
    if e.Start? || e.Enable? then [] else log + Recorded(s, kind, e)
  }

  ghost function RunLog(s: State, kind: Kind, log: seq<Op>, run: seq<Event>): seq<Op>
    decreases |run|
  {
    if run == [] then log else RunLog(Apply(s, run[0]), kind, Log(s, kind, log, run[0]), run[1..])
  }

  /** The calls hold exactly the operations of the log, each as often as it was recorded. */
  ghost predicate Holds(calls: seq<Call>, kind: Kind, log: seq<Op>) {
    multiset(AllOps(calls, kind)) == multiset(log)
  }

  lemma SumsRegroup(a: multiset<Op>, b: multiset<Op>, x: multiset<Op>)
    ensures (a + x) + b == (a + b) + x && a + (b + x) == (a + b) + x
  {
  }

  lemma {:induction false} AllOpsHead(calls: seq<Call>, kind: Kind)
    requires calls != []
    ensures multiset(AllOps(calls, kind)) == multiset(OpsOf(calls[0], kind)) + multiset(AllOps(calls[1..], kind))
  {
    hide OpsOf;
  }

  lemma {:induction false} AllOpsUpdate(calls: seq<Call>, i: nat, c: Call, kind: Kind, extra: seq<Op>)
    requires i < |calls| && OpsOf(c, kind) == OpsOf(calls[i], kind) + extra
    ensures multiset(AllOps(calls[i := c], kind)) == multiset(AllOps(calls, kind)) + multiset(extra)
    decreases |calls|
  {
    var calls' := calls[i := c];
    hide OpsOf, AllOps;
    AllOpsHead(calls, kind);
    AllOpsHead(calls', kind);
    var own, rest := multiset(OpsOf(calls[0], kind)), multiset(AllOps(calls[1..], kind));
    SumsRegroup(own, rest, multiset(extra));
    if i == 0 {
      assert calls'[1..] == calls[1..];
    } else {
      AllOpsUpdate(calls[1..], i - 1, c, kind, extra);
      assert calls'[1..] == calls[1..][i - 1 := c];
    }
  }

  lemma {:induction false} EnterKeepsOps(s: State, id: Id, name: string, now: int, kind: Kind)
    ensures AllOps(DoEnter(s, id, name, now).calls, kind) == AllOps(s.calls, kind)
  {
    if s.active {
      var s' := DoEnter(s, id, name, now);
      assert s'.calls[1..] == s.calls;
    }
  }

  lemma {:induction false} AttachOps(s: State, kind: Kind, op: Op, k: Kind)
    requires Inv(s) && s.stack != []
    ensures multiset(AllOps(Attach(s, kind, op).calls, k)) ==
              multiset(AllOps(s.calls, k)) + multiset(if k == kind then [op] else [])
  {
    hide AllOps, Find, ParentsLater, TimesOk, NoDup, Subseq;
    var i := TopIsListed(s);
    var c := AddOp(s.calls[i], kind, op);
    assert k != kind ==> OpsOf(c, k) == OpsOf(s.calls[i], k) + [];
    AllOpsUpdate(s.calls, i, c, k, if k == kind then [op] else []);
  }

  lemma TopIsListed(s: State) returns (i: nat)
    requires Inv(s) && s.stack != []
    ensures i < |s.calls| && Find(s.calls, s.stack[0]) == Some(i)
  {
    hide ParentsLater, TimesOk, NoDup;
    SubseqLength(s.stack, Ids(s.calls));
    assert s.stack[0] in Ids(s.calls);
    FindIff(s.calls, s.stack[0]);
    i := Find(s.calls, s.stack[0]).value;
  }

  lemma {:induction false} UpdateKeepsOps(calls: seq<Call>, i: nat, c: Call, kind: Kind)
    requires i < |calls| && OpsOf(c, kind) == OpsOf(calls[i], kind)
    ensures AllOps(calls[i := c], kind) == AllOps(calls, kind)
    decreases |calls|
  {
    hide OpsOf;
    var calls' := calls[i := c];
    if i == 0 {
      assert calls'[1..] == calls[1..];
    } else {
      UpdateKeepsOps(calls[1..], i - 1, c, kind);
      assert calls'[1..] == calls[1..][i - 1 := c];
    }
  }

  lemma {:induction false} ExitKeepsOps(s: State, id: Id, now: int, kind: Kind)
    ensures AllOps(DoExit(s, id, now).calls, kind) == AllOps(s.calls, kind)
  {
    hide Find, AllOps;
    var f := Find(s.calls, id);
    if s.active && f.Some? {
      UpdateKeepsOps(s.calls, f.value, Ended(s.calls[f.value], now), kind);
    }
  }

  lemma {:induction false} ApplyAddsRecorded(s: State, kind: Kind, e: Event)
    requires Inv(s) && Admissible(s, e) && !e.Start? && !e.Enable?
    ensures multiset(AllOps(Apply(s, e).calls, kind)) ==
              multiset(AllOps(s.calls, kind)) + multiset(Recorded(s, kind, e))
  {
    hide DoEnter, DoExit, Attach, EnsureTop, AllOps, Inv, Ids;
    match e {
      case Exit(id, now) => ExitKeepsOps(s, id, now, kind);
      case Enter(id, name, now) => EnterKeepsOps(s, id, name, now, kind);
      case Http(op, rootId, now) => RecordKeepsOps(s, KHttp, op, rootId, now, kind);
      case Sql(op, rootId, now) => RecordKeepsOps(s, KSql, op, rootId, now, kind);
      case Cache(op) => AttachKeepsOps(s, KCache, op, kind);
      case Redis(op) => AttachKeepsOps(s, KRedis, op, kind);
      case _ =>
    }
  }

  lemma ApplyKeepsOps(s: State, kind: Kind, log: seq<Op>, e: Event)
    requires Inv(s) && Admissible(s, e) && Holds(s.calls, kind, log)
    ensures Holds(Apply(s, e).calls, kind, Log(s, kind, log, e))
  {
    hide DoEnter, DoExit, Attach, AllOps, Inv, Recorded, Admissible;
    if e.Start? || e.Enable? {
      NoOps(kind);
    } else {
      hide Apply;
      ApplyAddsRecorded(s, kind, e);
    }
  }

  lemma {:induction false} NoOps(kind: Kind)
    ensures AllOps([], kind) == []
  {
  }

  lemma {:induction false} AttachKeepsOps(s: State, kind: Kind, op: Op, k: Kind)
    requires Inv(s)
    ensures multiset(AllOps(Attach(s, kind, op).calls, k))
         == multiset(AllOps(s.calls, k)) + multiset(if k == kind && s.stack != [] then [op] else [])
  {
    hide AllOps, Inv, Find;
    if s.stack != [] {
      AttachOps(s, kind, op, k);
    }
  }

  lemma {:induction false} RecordKeepsOps(s: State, kind: Kind, op: Op, rootId: Id, now: int, k: Kind)
    requires Inv(s) && rootId !in Ids(s.calls) && now > 0
    ensures Recording(s) ==> multiset(AllOps(Attach(EnsureTop(s, rootId, now), kind, op).calls, k))
                             == multiset(AllOps(s.calls, k)) + multiset(if k == kind then [op] else [])
  {
    hide AllOps, Attach, Inv;
    if Recording(s) {
      EnterKeepsInv(s, rootId, "__root__", now);
      EnterKeepsOps(s, rootId, "__root__", now, k);
      AttachOps(EnsureTop(s, rootId, now), kind, op, k);
    }
  }

  /** Over any run: every operation recorded since the last start stands in exactly one
      call, exactly as often as it was recorded; an HTTP request even when the stack was
      empty. */
  lemma {:induction false} OpsConserved(s: State, kind: Kind, log: seq<Op>, run: seq<Event>)
    requires Inv(s) && ValidRun(s, run) && Holds(s.calls, kind, log)
    ensures Holds(Final(s, run).calls, kind, RunLog(s, kind, log, run))
    decreases |run|
  {
    hide Holds, Inv, Apply, Log;
    if run != [] {
      ApplyKeepsInv(s, run[0]);
      ApplyKeepsOps(s, kind, log, run[0]);
      OpsConserved(Apply(s, run[0]), kind, Log(s, kind, log, run[0]), run[1..]);
    }
  }

  /** A start forgets: from any state whatever, over any run after a start or an enable, the
      calls hold exactly what was recorded since, and the invariant of every run holds. */
  lemma {:induction false} StartForgets(s: State, e: Event, kind: Kind, run: seq<Event>)
    requires (e.Start? || e.Enable?) && ValidRun(Apply(s, e), run)
    ensures var s' := Final(Apply(s, e), run);
            Inv(s') && Holds(s'.calls, kind, RunLog(Apply(s, e), kind, [], run))
  {
    hide Holds, Final, RunLog, ValidRun;
    StartInv(s);
    StartInv(s.(profiling := true));
    EmptyHolds(kind);
    assert Apply(s, e).calls == [];
    hide Inv, Apply;
    RunKeepsInv(Apply(s, e), run);
    OpsConserved(Apply(s, e), kind, [], run);
  }

  lemma {:induction false} EmptyHolds(kind: Kind)
    ensures Holds([], kind, [])
  {
  }
}
