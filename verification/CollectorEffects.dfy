/** What each event does to the collector, call by call, and when operations are recorded,
    in terms of the events before. */
module CollectorEffects {
  import opened Seqs
  import opened Lcs
  import opened CollectorSpec

  // ----- what is recorded -----

  /** Profiling was enabled and not disabled since, and the collector was started, by a start
      or an enable, and not stopped since. */
  ghost predicate SwitchedOn(run: seq<Event>) {
    && (exists k :: 0 <= k < |run| && run[k].Enable? && forall j :: k < j < |run| ==> !run[j].Disable?)
    && exists k :: 0 <= k < |run| && (run[k].Start? || run[k].Enable?)
                   && forall j :: k < j < |run| ==> !run[j].Stop? && !run[j].Disable?
  }

  lemma {:induction false} FlagsKept(s: State, e: Event)
    ensures var s' := Apply(s, e);
            && s'.enabled == s.enabled
            && s'.profiling == (if e.Enable? then true else if e.Disable? then false else s.profiling)
            && s'.active == (if e.Start? || e.Enable? then true else if e.Stop? || e.Disable? then false else s.active)
  {
    hide Find;
  }

  lemma {:induction false} ProfilingIff(s: State, run: seq<Event>)
    ensures Final(s, run).enabled == s.enabled
    ensures Final(s, run).profiling
       <==> (exists k :: 0 <= k < |run| && run[k].Enable? && forall j :: k < j < |run| ==> !run[j].Disable?)
            || (s.profiling && forall j :: 0 <= j < |run| ==> !run[j].Disable?)
    decreases |run|
  {
    hide Apply;
    if run != [] {
      FlagsKept(s, run[0]);
      ProfilingIff(Apply(s, run[0]), run[1..]);
      var rest := run[1..];
      assert forall j :: 0 <= j < |rest| ==> rest[j] == run[j + 1];
      if k :| 0 <= k < |rest| && rest[k].Enable? && forall j :: k < j < |rest| ==> !rest[j].Disable? {
        assert run[k + 1].Enable?;
        assert forall j :: k + 1 < j < |run| ==> run[j] == rest[j - 1];
      }
    }
  }

  lemma {:induction false} ActiveIff(s: State, run: seq<Event>)
    ensures Final(s, run).active
       <==> (exists k :: 0 <= k < |run| && (run[k].Start? || run[k].Enable?)
                         && forall j :: k < j < |run| ==> !run[j].Stop? && !run[j].Disable?)
            || (s.active && forall j :: 0 <= j < |run| ==> !run[j].Stop? && !run[j].Disable?)
    decreases |run|
  {
    hide Apply;
    if run != [] {
      FlagsKept(s, run[0]);
      ActiveIff(Apply(s, run[0]), run[1..]);
      var rest := run[1..];
      assert forall j :: 0 <= j < |rest| ==> rest[j] == run[j + 1];
      if k :| 0 <= k < |rest| && (rest[k].Start? || rest[k].Enable?)
              && forall j :: k < j < |rest| ==> !rest[j].Stop? && !rest[j].Disable? {
        assert run[k + 1].Start? || run[k + 1].Enable?;
        assert forall j :: k + 1 < j < |run| ==> run[j] == rest[j - 1];
      }
    }
  }

  /** After any run operations are recorded exactly when the module is enabled and it is
      switched on. */
  lemma {:induction false} RecordingIff(enabled: bool, run: seq<Event>)
    ensures Recording(Final(Initial(enabled), run)) <==> enabled && SwitchedOn(run)
  {
    hide Final;
    ProfilingIff(Initial(enabled), run);
    ActiveIff(Initial(enabled), run);
  }

  /** The call with the operation of the event at the end of the list of its kind. */
  function WithOp(c: Call, e: Event): Call {
    match e
    case Http(op, _, _) => c.(http := c.http + [op])
    case Sql(op, _, _) => c.(sql := c.sql + [op])
    case Cache(op) => c.(cache := c.cache + [op])
    case Redis(op) => c.(redis := c.redis + [op])
    case _ => c
  }

  /** The operation goes to the call on top of the stack and to no other. */
  ghost predicate OnlyTopGains(s: State, s': State, e: Event) {
    exists k :: 0 <= k < |s.calls| && s.stack != [] && s.calls[k].id == s.stack[0]
                && s' == s.(calls := s.calls[k := WithOp(s.calls[k], e)])
  }

  lemma {:induction false} TopIsListed(s: State)
    requires Inv(s) && s.stack != []
    ensures s.stack[0] in Ids(s.calls)
  {
    hide NoDup, ParentsLater, TimesOk;
    SubseqLength(s.stack, Ids(s.calls));
  }

  lemma {:induction false} AttachGains(s: State, kind: Kind, op: Op, e: Event)
    requires Inv(s) && s.stack != []
    requires match e
             case Http(o, _, _) => o == op && kind == KHttp
             case Sql(o, _, _) => o == op && kind == KSql
             case Cache(o) => o == op && kind == KCache
             case Redis(o) => o == op && kind == KRedis
             case _ => false
    ensures OnlyTopGains(s, Attach(s, kind, op), e)
  {
    hide Inv, Ids;
    TopIsListed(s);
    FindIff(s.calls, s.stack[0]);
    var k := Find(s.calls, s.stack[0]).value;
    assert s.calls[k].id == s.stack[0];
  }

  /** The call for what is recorded outside any other, after the calls there are. */
  function RootCall(s: State, rootId: Id, now: int): State {
    s.(calls := [Call(rootId, None, "__root__", |s.calls|, now, 0, [], [], [], [])] + s.calls, stack := [rootId],
       stackDepth := 1, callDepth := |s.calls| + 1, callCount := |s.calls| + 1)
  }

  /** What recording does: nothing while it is off; with an open call the operation goes to
      the end of that call's list; without one, a request or a query goes to a root call
      made for it, and other operations are lost. */
  lemma {:induction false} RecordEffect(enabled: bool, run: seq<Event>, e: Event)
    requires ValidRun(Initial(enabled), run) && Admissible(Final(Initial(enabled), run), e)
    requires e.Http? || e.Sql? || e.Cache? || e.Redis?
    ensures var s := Final(Initial(enabled), run);
            var s' := Apply(s, e);
            if !(enabled && SwitchedOn(run)) then s' == s
            else if s.stack != [] then OnlyTopGains(s, s', e)
            else if e.Cache? || e.Redis? then s' == s
            else OnlyTopGains(RootCall(s, e.rootId, e.now), s', e)
  {
    hide ValidRun, Final, SwitchedOn, OnlyTopGains, Inv, Ids, Attach, RootCall;
    var s := Final(Initial(enabled), run);
    RecordingIff(enabled, run);
    FreshInv(enabled);
    RunKeepsInv(Initial(enabled), run);
    if Recording(s) {
      if s.stack != [] {
        match e {
          case Http(op, _, _) => AttachGains(s, KHttp, op, e);
          case Sql(op, _, _) => AttachGains(s, KSql, op, e);
          case Cache(op) => AttachGains(s, KCache, op, e);
          case Redis(op) => AttachGains(s, KRedis, op, e);
        }
      } else if e.Http? || e.Sql? {
        RootIs(s, e.rootId, e.now);
        EnterKeepsInv(s, e.rootId, "__root__", e.now);
        AttachGains(RootCall(s, e.rootId, e.now), if e.Http? then KHttp else KSql, e.op, e);
      } else {
        NothingAttached(s, if e.Cache? then KCache else KRedis, e.op);
      }
    }
  }

  lemma FreshInv(enabled: bool)
    ensures Inv(Initial(enabled))
  {
  }

  lemma NothingAttached(s: State, kind: Kind, op: Op)
    requires s.stack == []
    ensures Attach(s, kind, op) == s
  {
  }

  lemma {:induction false} RootIs(s: State, rootId: Id, now: int)
    requires Inv(s) && s.active && s.stack == []
    ensures EnsureTop(s, rootId, now) == RootCall(s, rootId, now) == DoEnter(s, rootId, "__root__", now)
    ensures RootCall(s, rootId, now).stack != []
  {
    hide Ids, NoDup, ParentsLater, TimesOk;
    assert [rootId] + [] == [rootId];
  }

  // ----- the end of a call -----

  /** The call of this id ends, and the stack loses its top if that is the call. */
  ghost predicate OnlyEnds(s: State, s': State, id: Id, now: int) {
    exists k :: EndsAt(s, s', id, now, k)
  }

  ghost predicate EndsAt(s: State, s': State, id: Id, now: int, k: int) {
    && 0 <= k < |s.calls| && s.calls[k].id == id
    && s'.calls == s.calls[k := s.calls[k].(end := now)]
    && s'.stack == (if s.stack != [] && s.stack[0] == id then s.stack[1..] else s.stack)
    && s' == s.(calls := s'.calls, stack := s'.stack, stackDepth := |s'.stack|)
  }

  /** An exit ends the call of that id, wherever it is, and closes it only if it is on top
      of the stack; everything else stays. */
  lemma {:induction false} ExitEffect(s: State, id: Id, now: int)
    requires Inv(s) && s.active && id in Ids(s.calls)
    ensures OnlyEnds(s, Apply(s, Exit(id, now)), id, now)
  {
    StackCounted(s);
    FindIff(s.calls, id);
    hide Inv, Ids, Find;
    ExitAt(s, id, now, Find(s.calls, id).value);
    hide Apply, EndsAt;
    assert EndsAt(s, Apply(s, Exit(id, now)), id, now, Find(s.calls, id).value);
  }

  lemma {:induction false} ExitAt(s: State, id: Id, now: int, k: nat)
    requires s.active && Find(s.calls, id) == Some(k) && s.stackDepth == |s.stack|
    ensures EndsAt(s, Apply(s, Exit(id, now)), id, now, k)
  {
    hide Find;
    var s' := DoExit(s, id, now);
    assert Apply(s, Exit(id, now)) == s';
    hide Apply;
    if s.stack != [] && s.stack[0] == id {
      assert s'.stack == s.stack[1..];
    } else {
      assert s'.stack == s.stack;
    }
  }

  lemma StackCounted(s: State)
    requires Inv(s)
    ensures s.stackDepth == |s.stack|
  {
  }
}
