/** What the serializer's recursive traversal visits, for every reachable call list and not
    only for well nested ones. The traversal is exported but nothing in the repository calls
    it; a shutdown writes the flat array of `CallStack`, which loses nothing. */
module Traversal {
  import opened Seqs
  import opened CollectorSpec
  import opened Replay
  import opened Rebuild

  function Occurrences(s: seq<Id>, id: Id): nat {
    if s == [] then 0 else (if s[0] == id then 1 else 0) + Occurrences(s[1..], id)
  }

  lemma {:induction false} OccurrencesConcat(a: seq<Id>, b: seq<Id>, id: Id)
    ensures Occurrences(a + b, id) == Occurrences(a, id) + Occurrences(b, id)
    decreases |a|
  {
    if a == [] {
      assert a + b == b;
    } else {
      OccurrencesConcat(a[1..], b, id);
      assert (a + b)[0] == a[0] && (a + b)[1..] == a[1..] + b;
    }
  }

  lemma {:induction false} OccurrencesShort(x: Id, id: Id)
    ensures Occurrences([], id) == 0
    ensures Occurrences([x], id) == if x == id then 1 else 0
  {
    assert [x][1..] == [];
  }

  // ----- climbing through completed calls -----

  /** The first call on the way up from `k`, `k` included, whose parent field is `parent`;
      nothing when the climb meets a call that has not completed or runs out first. */
  ghost function Climb(calls: seq<Call>, k: nat, parent: Option<Id>): (r: Option<nat>)
    requires Ordered(calls) && k < |calls|
    ensures r.Some? ==> k <= r.value < |calls| && ChildOf(calls[r.value], parent)
    decreases |calls| - k
  {
    if !Completed(calls[k]) then None
    else if calls[k].parent == parent then Some(k)
    else if calls[k].parent.None? then None
    else ParentPosition(calls, k); Climb(calls, Find(calls, calls[k].parent.value).value, parent)
  }

  lemma {:induction false} ClimbStep(calls: seq<Call>, k: nat, parent: Option<Id>, p: nat)
    requires Ordered(calls) && k < |calls| && calls[k].parent.Some? && Find(calls, calls[k].parent.value) == Some(p)
    requires Completed(calls[k]) && calls[k].parent != parent
    ensures k < p < |calls| && Climb(calls, k, parent) == Climb(calls, p, parent)
  {
    hide Ordered, Find;
    ParentPosition(calls, k);
  }

  /** Whoever climbs to a child of the call at `c` starts below it. */
  lemma {:induction false} ClimbStaysBelow(calls: seq<Call>, k: nat, c: nat)
    requires Ordered(calls) && k < |calls| && c < |calls| && Climb(calls, k, Some(calls[c].id)).Some?
    ensures k < c
  {
    hide Ordered, Climb, Find;
    var t := Climb(calls, k, Some(calls[c].id)).value;
    ParentPosition(calls, t);
    FindOwn(calls, c);
  }

  lemma {:induction false} FindOwn(calls: seq<Call>, c: nat)
    requires Ordered(calls) && c < |calls|
    ensures Find(calls, calls[c].id) == Some(c)
  {
    hide ParentsLater;
    assert Ids(calls)[c] == calls[c].id;
    FindIff(calls, calls[c].id);
    var i := Find(calls, calls[c].id).value;
    assert Ids(calls)[i] == calls[i].id;
  }

  /** The climb from `k` for `parent` ends at its child `c` exactly when `k` is `c` or
      climbs to a child of `c`. */
  lemma {:induction false} ClimbThrough(calls: seq<Call>, k: nat, c: nat, parent: Option<Id>)
    requires Ordered(calls) && k < |calls| && c < |calls| && ChildOf(calls[c], parent)
    ensures Climb(calls, k, parent) == Some(c) <==> k == c || Climb(calls, k, Some(calls[c].id)).Some?
    decreases |calls| - k
  {
    hide Ordered, Find;
    var me := Some(calls[c].id);
    FindOwn(calls, c);
    if Completed(calls[k]) {
      if calls[k].parent == parent {
        NotThroughSibling(calls, k, c, parent);
      } else if calls[k].parent.Some? {
        ParentPosition(calls, k);
        var p := Find(calls, calls[k].parent.value).value;
        ClimbStep(calls, k, parent, p);
        if p == c {
          assert Climb(calls, c, parent) == Some(c);
        } else {
          assert calls[k].parent != me;
          ClimbStep(calls, k, me, p);
          ClimbThrough(calls, p, c, parent);
        }
      }
    }
  }

  /** A child of `parent` does not lie below another child of `parent`. */
  lemma {:induction false} NotThroughSibling(calls: seq<Call>, k: nat, c: nat, parent: Option<Id>)
    requires Ordered(calls) && k < |calls| && c < |calls|
    requires ChildOf(calls[c], parent) && ChildOf(calls[k], parent)
    ensures Climb(calls, k, Some(calls[c].id)).None?
  {
    hide Ordered, Find;
    FindOwn(calls, c);
    if parent.Some? {
      ParentPosition(calls, c);
      var p := Find(calls, parent.value).value;
      ClimbStep(calls, k, Some(calls[c].id), p);
      if Climb(calls, p, Some(calls[c].id)).Some? {
        ClimbStaysBelow(calls, p, c);
      }
    }
  }

  // ----- the visits -----

  /** How often the scan over positions `lo` to `hi` for children of `parent` visits call
      `k`: once if the climb from `k` reaches a child in that range, otherwise never. */
  lemma {:induction false} ScanVisits(calls: seq<Call>, k: nat, parent: Option<Id>, lo: nat, hi: nat)
    requires Ordered(calls) && k < |calls| && lo <= hi <= |calls|
    ensures var t := Climb(calls, k, parent);
            Occurrences(Preorder(Children(calls, parent, lo, hi)), calls[k].id)
            == if t.Some? && lo <= t.value < hi then 1 else 0
    decreases Bound(calls, parent), hi - lo
  {
    hide Ordered, Climb, RebuildTree, Preorder, Find, Occurrences;
    if lo == hi {
      NothingVisited(calls[k].id);
    } else {
      if ChildOf(calls[lo], parent) {
        assert lo < Bound(calls, parent) by { if parent.Some? { ParentPosition(calls, lo); } }
        ScanVisits(calls, k, parent, lo + 1, hi);
        TreeVisits(calls, k, lo);
        ClimbThrough(calls, k, lo, parent);
        ForestVisits(RebuildTree(calls, lo), Children(calls, parent, lo + 1, hi), calls[k].id);
      } else {
        ScanVisits(calls, k, parent, lo + 1, hi);
      }
    }
  }

  lemma {:induction false} NothingVisited(id: Id)
    ensures Occurrences(Preorder([]), id) == 0
  {
  }

  lemma {:induction false} ForestVisits(t: Tree, rest: seq<Tree>, id: Id)
    ensures Occurrences(Preorder([t] + rest), id) == Occurrences(Preorder([t]), id) + Occurrences(Preorder(rest), id)
  {
    PreorderConcat([t], rest);
    OccurrencesConcat(Preorder([t]), Preorder(rest), id);
  }

  lemma {:induction false} RootVisit(t: Tree, id: Id)
    ensures Occurrences(Preorder([t]), id) == (if t.id == id then 1 else 0) + Occurrences(Preorder(t.kids), id)
  {
    assert [t][1..] == [];
    assert Preorder([t]) == [t.id] + Preorder(t.kids);
    OccurrencesConcat([t.id], Preorder(t.kids), id);
    assert [t.id][1..] == [];
  }

  lemma {:induction false} TreeVisits(calls: seq<Call>, k: nat, c: nat)
    requires Ordered(calls) && k < |calls| && c < |calls|
    ensures Occurrences(Preorder([RebuildTree(calls, c)]), calls[k].id)
         == if k == c || Climb(calls, k, Some(calls[c].id)).Some? then 1 else 0
    decreases c, |calls| + 1
  {
    hide Ordered, Climb, Preorder, Children, Occurrences, Find;
    var me := Some(calls[c].id);
    RootVisit(RebuildTree(calls, c), calls[k].id);
    FindOwn(calls, c);
    ScanVisits(calls, k, me, 0, |calls|);
    if k != c && calls[k].id == calls[c].id {
      FindOwn(calls, k);
    }
    if Climb(calls, k, me).Some? {
      ClimbStaysBelow(calls, k, c);
    }
  }

  /** Call `k` and all its ancestors have completed. */
  ghost predicate Finished(calls: seq<Call>, k: nat)
    requires Ordered(calls) && k < |calls|
    decreases |calls| - k
  {
    if !Completed(calls[k]) then false
    else if calls[k].parent.None? then true
    else ParentPosition(calls, k); Finished(calls, Find(calls, calls[k].parent.value).value)
  }

  lemma {:induction false} FinishedClimbs(calls: seq<Call>, k: nat)
    requires Ordered(calls) && k < |calls|
    ensures Finished(calls, k) <==> Climb(calls, k, None).Some?
    decreases |calls| - k
  {
    hide Ordered, Find;
    if Completed(calls[k]) && calls[k].parent.Some? {
      ParentPosition(calls, k);
      FinishedClimbs(calls, Find(calls, calls[k].parent.value).value);
    }
  }

  /** In every reachable call list, the recursive traversal visits a call exactly once if
      it and all its ancestors have completed, and otherwise not at all. */
  lemma {:induction false} VisitedOnceIffFinished(calls: seq<Call>, k: nat)
    requires Ordered(calls) && k < |calls|
    ensures Occurrences(Preorder(RebuildForest(calls)), calls[k].id) == if Finished(calls, k) then 1 else 0
  {
    hide Ordered, Finished, Climb, Preorder, Occurrences, Children;
    ScanVisits(calls, k, None, 0, |calls|);
    FinishedClimbs(calls, k);
  }

  // ----- the list when no root call has completed -----

  /** The completed calls from position `lo` on with this parent. */
  function KidIds(calls: seq<Call>, parent: Id, lo: nat): seq<Id>
    requires lo <= |calls|
    decreases |calls| - lo
  {
    if lo == |calls| then []
    else if ChildOf(calls[lo], Some(parent)) then [calls[lo].id] + KidIds(calls, parent, lo + 1)
    else KidIds(calls, parent, lo + 1)
  }

  /** Each completed call from position `lo` on, followed by its completed children. */
  function FlatIds(calls: seq<Call>, lo: nat): seq<Id>
    requires lo <= |calls|
    decreases |calls| - lo
  {
    if lo == |calls| then []
    else if Completed(calls[lo]) then [calls[lo].id] + KidIds(calls, calls[lo].id, 0) + FlatIds(calls, lo + 1)
    else FlatIds(calls, lo + 1)
  }

  /** All ids the traversal writes, in order. */
  ghost function Visits(calls: seq<Call>): seq<Id>
    requires Ordered(calls)
  {
    if RebuildForest(calls) != [] then Preorder(RebuildForest(calls)) else FlatIds(calls, 0)
  }

  lemma {:induction false} KidVisits(calls: seq<Call>, k: nat, parent: Id, lo: nat)
    requires Ordered(calls) && k < |calls| && lo <= |calls|
    ensures Occurrences(KidIds(calls, parent, lo), calls[k].id) ==
              if lo <= k && ChildOf(calls[k], Some(parent)) then 1 else 0
    decreases |calls| - lo
  {
    hide Ordered;
    if lo < |calls| {
      KidVisits(calls, k, parent, lo + 1);
      FindOwn(calls, k);
      FindOwn(calls, lo);
      if ChildOf(calls[lo], Some(parent)) {
        OccurrencesConcat([calls[lo].id], KidIds(calls, parent, lo + 1), calls[k].id);
        assert [calls[lo].id][1..] == [];
      }
    }
  }

  /** The position of the parent, when the call has one. */
  ghost predicate ParentDone(calls: seq<Call>, k: nat, lo: nat)
    requires Ordered(calls) && k < |calls|
  {
    && calls[k].parent.Some?
    && var p := Find(calls, calls[k].parent.value);
       p.Some? && lo <= p.value && Completed(calls[p.value])
  }

  /** In the flat list a completed call appears once for itself and once more under its
      parent if that has completed too; a call that has not completed never appears. */
  lemma {:induction false} FlatVisits(calls: seq<Call>, k: nat, lo: nat)
    requires Ordered(calls) && k < |calls| && lo <= |calls|
    ensures Occurrences(FlatIds(calls, lo), calls[k].id)
         == if !Completed(calls[k]) then 0 else (if lo <= k then 1 else 0) + (if ParentDone(calls, k, lo) then 1 else 0)
    decreases |calls| - lo
  {
    hide Ordered, Occurrences, KidIds, Find;
    if lo == |calls| {
      OccurrencesShort(calls[k].id, calls[k].id);
    } else {
      FlatVisits(calls, k, lo + 1);
      FindOwn(calls, k);
      FindOwn(calls, lo);
      if Completed(calls[lo]) {
        var id, kids, rest := calls[lo].id, KidIds(calls, calls[lo].id, 0), FlatIds(calls, lo + 1);
        KidVisits(calls, k, id, 0);
        OccurrencesConcat([id] + kids, rest, calls[k].id);
        OccurrencesConcat([id], kids, calls[k].id);
        OccurrencesShort(id, calls[k].id);
      }
    }
  }

  // ----- which of the two lists is written -----

  /** Some call without a parent has completed. */
  ghost predicate RootDone(calls: seq<Call>) {
    exists k :: 0 <= k < |calls| && ChildOf(calls[k], None)
  }

  lemma {:induction false} ChildrenEmptyIff(calls: seq<Call>, parent: Option<Id>, lo: nat, hi: nat)
    requires Ordered(calls) && lo <= hi <= |calls|
    ensures Children(calls, parent, lo, hi) != [] <==> exists k :: lo <= k < hi && ChildOf(calls[k], parent)
    decreases hi - lo
  {
    hide Ordered, RebuildTree, ChildOf;
    if lo < hi {
      ChildrenEmptyIff(calls, parent, lo + 1, hi);
    }
  }

  /** The rebuilt forest is empty exactly when no call without a parent has completed. */
  lemma {:induction false} ForestEmptyIff(calls: seq<Call>)
    requires Ordered(calls)
    ensures RebuildForest(calls) != [] <==> RootDone(calls)
  {
    hide Ordered, ChildOf;
    ChildrenEmptyIff(calls, None, 0, |calls|);
  }

  /** How often the traversal writes a call, for every reachable list: with a completed root
      call, once if the call and all its ancestors have completed and otherwise never;
      without one, once if it has completed and once more if its parent has too. */
  lemma {:induction false} WrittenHowOften(calls: seq<Call>, k: nat)
    requires Ordered(calls) && k < |calls|
    ensures Occurrences(Visits(calls), calls[k].id)
         == if RootDone(calls) then (if Finished(calls, k) then 1 else 0)
            else if !Completed(calls[k]) then 0
            else if ParentDone(calls, k, 0) then 2 else 1
  {
    hide Ordered, Finished, Preorder, Occurrences, FlatIds, ParentDone, RootDone, RebuildForest;
    ForestEmptyIff(calls);
    if RootDone(calls) {
      VisitedOnceIffFinished(calls, k);
    } else {
      FlatVisits(calls, k, 0);
    }
  }

  // ----- a call written twice, a call never written -----

  /** A root call that is still open: its grandchild is written twice. */
  function OpenRootRun(r: Id, a: Id, b: Id): seq<Event> {
    [Start, Enter(r, "", 1), Enter(a, "", 2), Enter(b, "", 3), Exit(b, 4), Exit(a, 5)]
  }

  /** A second root call that is still open: its child is never written. */
  function SecondRootRun(r: Id, a: Id, b: Id): seq<Event> {
    [Start, Enter(r, "", 1), Exit(r, 2), Enter(a, "", 3), Enter(b, "", 4), Exit(b, 5)]
  }

  function Plain(id: Id, parent: Option<Id>, depth: int, start: int, end: int): Call {
    Call(id, parent, "", depth, start, end, [], [], [], [])
  }

  lemma {:induction false} RunStep(s: State, e: Event, rest: seq<Event>)
    ensures ValidRun(s, [e] + rest) <==> Admissible(s, e) && ValidRun(Apply(s, e), rest)
    ensures Final(s, [e] + rest) == Final(Apply(s, e), rest)
  {
    hide Apply, Admissible;
    assert ([e] + rest)[1..] == rest;
  }

  lemma {:induction false} NoMoreEvents(s: State)
    ensures ValidRun(s, []) && Final(s, []) == s
  {
  }

  /** A state with the given calls and open calls in an enabled, active collector. */
  function Active(calls: seq<Call>, stack: seq<Id>, count: int): State {
    State(true, false, true, calls, stack, |stack|, count, count)
  }

  lemma {:induction false} EnterStep(calls: seq<Call>, stack: seq<Id>, id: Id, now: int)
    requires id !in Ids(calls) && now > 0
    ensures var s, e := Active(calls, stack, |calls|), Enter(id, "", now);
            && Admissible(s, e)
            && Apply(s, e) == Active([Plain(id, if stack != [] then Some(stack[0]) else None, |calls|, now, 0)] + calls,
                                     [id] + stack, |calls| + 1)
  {
    hide Ids;
  }

  lemma {:induction false} ExitStep(calls: seq<Call>, stack: seq<Id>, i: nat, now: int)
    requires stack != [] && i < |calls| && Find(calls, stack[0]) == Some(i) && now > 0
    ensures var s, e := Active(calls, stack, |calls|), Exit(stack[0], now);
            && Admissible(s, e)
            && Apply(s, e) == Active(calls[i := Ended(calls[i], now)], stack[1..], |calls|)
  {
    hide Find;
  }

  lemma {:induction false} FindFirst(c: Call, rest: seq<Call>)
    ensures Find([c] + rest, c.id) == Some(0)
  {
  }

  lemma {:induction false} FindSecond(c: Call, d: Call, rest: seq<Call>)
    requires c.id != d.id
    ensures Find([c, d] + rest, d.id) == Some(1)
  {
    assert ([c, d] + rest)[1..] == [d] + rest;
    FindFirst(d, rest);
  }

  /** The first four events of the run with an open root. */
  lemma {:induction false} OpenRootEntered(r: Id, a: Id, b: Id, rest: seq<Event>)
    requires r != a && r != b && a != b
    ensures var s := Active([Plain(b, Some(a), 2, 3, 0), Plain(a, Some(r), 1, 2, 0), Plain(r, None, 0, 1, 0)],
              [b, a, r], 3);
            var run := [Start] + ([Enter(r, "", 1)] + ([Enter(a, "", 2)] + ([Enter(b, "", 3)] + rest)));
            && Final(Initial(true), run) == Final(s, rest)
            && (ValidRun(Initial(true), run) <==> ValidRun(s, rest))
  {
    hide Apply, Admissible, Final, ValidRun;
    StartStep();
    var c0, c1 := [Plain(r, None, 0, 1, 0)], [Plain(a, Some(r), 1, 2, 0), Plain(r, None, 0, 1, 0)];
    ThreeIds(r, a, c0, c1);
    EnterStep([], [], r, 1);
    EnterStep(c0, [r], a, 2);
    EnterStep(c1, [a, r], b, 3);
    assert [Plain(r, None, 0, 1, 0)] + [] == c0 && [Plain(a, Some(r), 1, 2, 0)] + c0 == c1 && [r] + [] == [r];
    assert [a] + [r] == [a, r] && [b] + [a, r] == [b, a, r];
    assert [Plain(b, Some(a), 2, 3, 0)] + c1
        == [Plain(b, Some(a), 2, 3, 0), Plain(a, Some(r), 1, 2, 0), Plain(r, None, 0, 1, 0)];
    RunStep(Active(c1, [a, r], 2), Enter(b, "", 3), rest);
    RunStep(Active(c0, [r], 1), Enter(a, "", 2), [Enter(b, "", 3)] + rest);
    RunStep(Active([], [], 0), Enter(r, "", 1), [Enter(a, "", 2)] + ([Enter(b, "", 3)] + rest));
    RunStep(Initial(true), Start, [Enter(r, "", 1)] + ([Enter(a, "", 2)] + ([Enter(b, "", 3)] + rest)));
  }

  lemma {:induction false} StartStep()
    ensures Admissible(Initial(true), Start) && Apply(Initial(true), Start) == Active([], [], 0)
  {
  }

  lemma {:induction false} ThreeIds(r: Id, a: Id, c0: seq<Call>, c1: seq<Call>)
    requires |c0| == 1 && c0[0].id == r && |c1| == 2 && c1[0].id == a && c1[1].id == r
    ensures Ids([]) == [] && Ids(c0) == [r] && Ids(c1) == [a, r]
  {
    assert c0[1..] == [] && c1[1..][1..] == [];
  }

  /** Calls that have not returned keep the root from completing: a call below a completed
      one is then written twice. */
  lemma {:induction false} WrittenTwice(r: Id, a: Id, b: Id)
    requires r != a && r != b && a != b
    ensures var calls := Final(Initial(true), OpenRootRun(r, a, b)).calls;
            && ValidRun(Initial(true), OpenRootRun(r, a, b)) && Ordered(calls)
            && Occurrences(Visits(calls), b) == 2
  {
    var calls := OpenRootCalls(r, a, b);
    ReachableIsOrdered(true, OpenRootRun(r, a, b));
    hide Final, ValidRun, Ordered, Occurrences, Visits, Find;
    FindSecond(calls[0], calls[1], calls[2..]);
    assert calls == [calls[0], calls[1]] + calls[2..];
    assert !RootDone(calls);
    WrittenHowOften(calls, 0);
  }

  lemma {:induction false} OpenRootCalls(r: Id, a: Id, b: Id) returns (calls: seq<Call>)
    requires r != a && r != b && a != b
    ensures ValidRun(Initial(true), OpenRootRun(r, a, b))
    ensures calls == Final(Initial(true), OpenRootRun(r, a, b)).calls
    ensures calls == [Plain(b, Some(a), 2, 3, 4), Plain(a, Some(r), 1, 2, 5), Plain(r, None, 0, 1, 0)]
  {
    hide Apply, Admissible, Final, ValidRun, Find;
    var cr, ca, cb := Plain(r, None, 0, 1, 0), Plain(a, Some(r), 1, 2, 0), Plain(b, Some(a), 2, 3, 0);
    var cb' := Plain(b, Some(a), 2, 3, 4);
    calls := [cb', Plain(a, Some(r), 1, 2, 5), cr];
    OpenRootEntered(r, a, b, [Exit(b, 4)] + ([Exit(a, 5)] + []));
    assert [Start] + ([Enter(r, "", 1)]
           + ([Enter(a, "", 2)] + ([Enter(b, "", 3)] + ([Exit(b, 4)] + ([Exit(a, 5)] + [])))))
        == OpenRootRun(r, a, b);
    FindFirst(cb, [ca, cr]);
    FindSecond(cb', ca, [cr]);
    assert [cb] + [ca, cr] == [cb, ca, cr] && [cb', ca] + [cr] == [cb', ca, cr];
    ExitStep([cb, ca, cr], [b, a, r], 0, 4);
    assert [cb, ca, cr][0 := cb'] == [cb', ca, cr] && [b, a, r][1..] == [a, r] && [a, r][1..] == [r];
    ExitStep([cb', ca, cr], [a, r], 1, 5);
    assert [cb', ca, cr][1 := Plain(a, Some(r), 1, 2, 5)] == calls;
    RunStep(Active([cb, ca, cr], [b, a, r], 3), Exit(b, 4), [Exit(a, 5)] + []);
    RunStep(Active([cb', ca, cr], [a, r], 3), Exit(a, 5), []);
    NoMoreEvents(Active(calls, [r], 3));
  }

  /** With another root call completed, a completed call below an open one is never written. */
  lemma {:induction false} NeverWritten(r: Id, a: Id, b: Id)
    requires r != a && r != b && a != b
    ensures var calls := Final(Initial(true), SecondRootRun(r, a, b)).calls;
            && ValidRun(Initial(true), SecondRootRun(r, a, b)) && Ordered(calls)
            && calls != [] && calls[0].id == b && Completed(calls[0])
            && Occurrences(Visits(calls), b) == 0
  {
    var calls := SecondRootCalls(r, a, b);
    ReachableIsOrdered(true, SecondRootRun(r, a, b));
    hide Final, ValidRun, Ordered, Occurrences, Visits, Find;
    FindSecond(calls[0], calls[1], calls[2..]);
    assert calls == [calls[0], calls[1]] + calls[2..];
    assert ChildOf(calls[2], None);
    WrittenHowOften(calls, 0);
  }

  lemma {:induction false} SecondRootCalls(r: Id, a: Id, b: Id) returns (calls: seq<Call>)
    requires r != a && r != b && a != b
    ensures ValidRun(Initial(true), SecondRootRun(r, a, b))
    ensures calls == Final(Initial(true), SecondRootRun(r, a, b)).calls
    ensures calls == [Plain(b, Some(a), 2, 4, 5), Plain(a, None, 1, 3, 0), Plain(r, None, 0, 1, 2)]
  {
    hide Apply, Admissible, Final, ValidRun, Find;
    var cr, cr', ca, cb := Plain(r, None, 0, 1, 0), Plain(r, None, 0, 1, 2), Plain(a, None, 1, 3, 0),
        Plain(b, Some(a), 2, 4, 0);
    calls := [Plain(b, Some(a), 2, 4, 5), ca, cr'];
    StartStep();
    ThreeIds(r, a, [cr'], [ca, cr']);
    EnterStep([], [], r, 1);
    assert [cr] + [] == [cr] && [r] + [] == [r];
    FindFirst(cr, []);
    ExitStep([cr], [r], 0, 2);
    assert [cr][0 := cr'] == [cr'] && [r][1..] == [];
    EnterStep([cr'], [], a, 3);
    assert [ca] + [cr'] == [ca, cr'] && [a] + [] == [a];
    EnterStep([ca, cr'], [a], b, 4);
    assert [cb] + [ca, cr'] == [cb, ca, cr'] && [b] + [a] == [b, a];
    FindFirst(cb, [ca, cr']);
    ExitStep([cb, ca, cr'], [b, a], 0, 5);
    assert [cb, ca, cr'][0 := Plain(b, Some(a), 2, 4, 5)] == calls && [b, a][1..] == [a];
    SecondRootSteps(r, a, b, cr, cr', ca, cb, calls);
  }

  lemma {:induction false} SecondRootSteps(r: Id, a: Id, b: Id, cr: Call, cr': Call, ca: Call, cb: Call,
        calls: seq<Call>)
    requires Admissible(Initial(true), Start) && Apply(Initial(true), Start) == Active([], [], 0)
    requires var s, e := Active([], [], 0), Enter(r, "", 1); Admissible(s, e) && Apply(s, e) == Active([cr], [r], 1)
    requires var s, e := Active([cr], [r], 1), Exit(r, 2); Admissible(s, e) && Apply(s, e) == Active([cr'], [], 1)
    requires var s, e := Active([cr'], [], 1), Enter(a, "", 3);
             Admissible(s, e) && Apply(s, e) == Active([ca, cr'], [a], 2)
    requires var s, e := Active([ca, cr'], [a], 2), Enter(b, "", 4);
             Admissible(s, e) && Apply(s, e) == Active([cb, ca, cr'], [b, a], 3)
    requires var s, e := Active([cb, ca, cr'], [b, a], 3), Exit(b, 5);
             Admissible(s, e) && Apply(s, e) == Active(calls, [a], 3)
    ensures ValidRun(Initial(true), SecondRootRun(r, a, b))
    ensures Final(Initial(true), SecondRootRun(r, a, b)) == Active(calls, [a], 3)
  {
    hide Apply, Admissible, Final, ValidRun, Active;
    NoMoreEvents(Active(calls, [a], 3));
    RunStep(Active([cb, ca, cr'], [b, a], 3), Exit(b, 5), []);
    RunStep(Active([ca, cr'], [a], 2), Enter(b, "", 4), [Exit(b, 5)] + []);
    RunStep(Active([cr'], [], 1), Enter(a, "", 3), [Enter(b, "", 4)] + ([Exit(b, 5)] + []));
    RunStep(Active([cr], [r], 1), Exit(r, 2), [Enter(a, "", 3)] + ([Enter(b, "", 4)] + ([Exit(b, 5)] + [])));
    var rest := [Exit(r, 2)] + ([Enter(a, "", 3)] + ([Enter(b, "", 4)] + ([Exit(b, 5)] + [])));
    RunStep(Active([], [], 0), Enter(r, "", 1), rest);
    RunStep(Initial(true), Start, [Enter(r, "", 1)] + rest);
    assert [Start] + ([Enter(r, "", 1)] + rest) == SecondRootRun(r, a, b);
  }

  /** Every call list a run can reach is ordered, so the results above apply to it. */
  lemma {:induction false} ReachableIsOrdered(enabled: bool, run: seq<Event>)
    requires ValidRun(Initial(enabled), run)
    ensures var calls := Final(Initial(enabled), run).calls; Ordered(calls) && TimesOk(calls)
  {
    hide ValidRun, Final;
    InitialInv(enabled);
    RunKeepsInv(Initial(enabled), run);
  }

  lemma InitialInv(enabled: bool)
    ensures Inv(Initial(enabled))
  {
  }
}
