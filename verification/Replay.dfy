/** Replaying a call forest as nested events and rebuilding it from the flat list. */
module Replay {
  import opened Seqs
  import opened CollectorSpec

  datatype Tree = Node(id: Id, name: string, start: int, end: int, kids: seq<Tree>)

  // ----- a forest as events -----

  function Events(f: seq<Tree>): seq<Event>
    decreases f, 0
  {
    if f == [] then [] else TreeEvents(f[0]) + Events(f[1..])
  }

  function TreeEvents(t: Tree): seq<Event>
    decreases t, 1
  {
    [Enter(t.id, t.name, t.start)] + Events(t.kids) + [Exit(t.id, t.end)]
  }

  /** The ids of a forest in the order the call list will hold them: last call first. */
  function TreeIds(f: seq<Tree>): seq<Id>
    decreases f
  {
    if f == [] then [] else TreeIds(f[1..]) + TreeIds(f[0].kids) + [f[0].id]
  }

  /** The calls a replay leaves, newest first; `n` is the depth counter at its start. */
  function Flatten(f: seq<Tree>, parent: Option<Id>, n: int): (calls: seq<Call>)
    ensures |calls| == |TreeIds(f)|
    decreases f
  {
    if f == [] then []
    else
      Flatten(f[1..], parent, n + |TreeIds([f[0]])|) + Flatten(f[0].kids, Some(f[0].id), n + 1)
      + [Root(f[0], parent, n)]
  }

  function Root(t: Tree, parent: Option<Id>, n: int): Call {
    Call(t.id, parent, t.name, n, t.start, t.end, [], [], [], [])
  }

  predicate TimesPositive(f: seq<Tree>)
    decreases f
  {
    f == [] || (f[0].start > 0 && f[0].end > 0 && TimesPositive(f[0].kids) && TimesPositive(f[1..]))
  }

  lemma OneTreeIds(t: Tree)
    ensures TreeIds([t]) == TreeIds(t.kids) + [t.id]
  {
    assert [t][1..] == [];
  }

  lemma OneId(c: Call)
    ensures Ids([c]) == [c.id]
  {
  }

  lemma {:induction false} FlattenStep(f: seq<Tree>, parent: Option<Id>, n: int)
    requires f != []
    ensures Flatten(f, parent, n)
         == Flatten(f[1..], parent, n + |TreeIds([f[0]])|) + Flatten(f[0].kids, Some(f[0].id), n + 1)
            + [Root(f[0], parent, n)]
  {
    hide TreeIds, Root;
  }

  lemma {:induction false} TreeIdsStep(f: seq<Tree>)
    requires f != []
    ensures TreeIds(f) == TreeIds(f[1..]) + TreeIds(f[0].kids) + [f[0].id]
  {
  }

  lemma {:induction false} TreeIdsMembers(f: seq<Tree>)
    requires f != []
    ensures |TreeIds(f)| == |TreeIds(f[1..])| + |TreeIds(f[0].kids)| + 1
    ensures forall x :: x in TreeIds(f) <==> x in TreeIds(f[1..]) || x in TreeIds(f[0].kids) || x == f[0].id
  {
    hide TreeIds;
    TreeIdsStep(f);
  }

  lemma {:induction false} FlattenIds(f: seq<Tree>, parent: Option<Id>, n: int)
    ensures Ids(Flatten(f, parent, n)) == TreeIds(f)
    decreases f
  {
    if f != [] {
      var rest, kids := Flatten(f[1..], parent, n + |TreeIds([f[0]])|), Flatten(f[0].kids, Some(f[0].id), n + 1);
      FlattenIds(f[1..], parent, n + |TreeIds([f[0]])|);
      FlattenIds(f[0].kids, Some(f[0].id), n + 1);
      FlattenStep(f, parent, n);
      TreeIdsStep(f);
      hide Flatten, TreeIds;
      IdsConcat(rest, kids);
      IdsConcat(rest + kids, [Root(f[0], parent, n)]);
      OneId(Root(f[0], parent, n));
      hide Ids;
    }
  }

  lemma {:induction false} IdsConcat(a: seq<Call>, b: seq<Call>)
    ensures Ids(a + b) == Ids(a) + Ids(b)
  {
    hide Ids;
  }

  lemma {:induction false} FinalConcat(s: State, a: seq<Event>, b: seq<Event>)
    ensures Final(s, a + b) == Final(Final(s, a), b)
    decreases |a|
  {
    hide Apply;
    if a == [] {
      assert a + b == b;
    } else {
      FinalConcat(Apply(s, a[0]), a[1..], b);
      assert (a + b)[0] == a[0] && (a + b)[1..] == a[1..] + b;
    }
  }

  // ----- what a replay leaves behind -----

  function Top(s: State): Option<Id> { if s.stack == [] then None else Some(s.stack[0]) }

  /** `s` with the calls of a finished forest on top of its list and its stack unchanged. */
  function Replayed(s: State, f: seq<Tree>): State {
    s.(calls := Flatten(f, Top(s), s.callDepth) + s.calls,
       callDepth := s.callDepth + |TreeIds(f)|, callCount := s.callCount + |TreeIds(f)|)
  }

  lemma {:induction false} ReplayForest(s: State, f: seq<Tree>)
    requires s.active && s.stackDepth >= 0
    requires NoDup(TreeIds(f)) && forall id :: id in TreeIds(f) ==> id !in Ids(s.calls)
    ensures Final(s, Events(f)) == Replayed(s, f)
    decreases f, 0
  {
    if f == [] {
      assert [] + s.calls == s.calls;
    } else {
      var t, rest := f[0], f[1..];
      SplitIds(f);
      ReplayTree(s, t);
      var s1 := Replayed(s, [t]);
      ReplayedIds(s, t);
      FinalConcat(s, TreeEvents(t), Events(rest));
      hide TreeIds, Flatten, Final, TreeEvents, Ids;
      ReplayForest(s1, rest);
      ReplayedTwice(s, f);
    }
  }

  lemma ReplayedIds(s: State, t: Tree)
    ensures forall id :: id in Ids(Replayed(s, [t]).calls) <==>
              id in TreeIds(t.kids) || id == t.id || id in Ids(s.calls)
  {
    hide TreeIds, Flatten, Ids;
    OneTreeIds(t);
    FlattenIds([t], Top(s), s.callDepth);
    IdsConcat(Flatten([t], Top(s), s.callDepth), s.calls);
  }

  /** Replaying a tree and then the rest of the forest is replaying the forest. */
  lemma ReplayedTwice(s: State, f: seq<Tree>)
    requires f != []
    ensures Replayed(Replayed(s, [f[0]]), f[1..]) == Replayed(s, f)
  {
    hide TreeIds, Flatten;
    var t, rest := f[0], f[1..];
    FlattenCons(f, Top(s), s.callDepth);
    var s1 := Replayed(s, [t]);
    var b, c := Flatten([t], Top(s), s.callDepth), s.calls;
    assert s1.calls == b + c && Top(s1) == Top(s);
    var a := Flatten(rest, Top(s), s1.callDepth);
    assert a + (b + c) == (a + b) + c;
  }

  lemma FlattenCons(f: seq<Tree>, parent: Option<Id>, n: int)
    requires f != []
    ensures Flatten(f, parent, n) == Flatten(f[1..], parent, n + |TreeIds([f[0]])|) + Flatten([f[0]], parent, n)
    ensures |TreeIds(f)| == |TreeIds(f[1..])| + |TreeIds([f[0]])|
  {
    hide Flatten, TreeIds;
    OneTree(f[0], parent, n);
    FlattenStep(f, parent, n);
    OneTreeIds(f[0]);
    TreeIdsStep(f);
    Regroup(Flatten(f[1..], parent, n + |TreeIds([f[0]])|), Flatten(f[0].kids, Some(f[0].id), n + 1),
            [Root(f[0], parent, n)]);
  }

  lemma {:induction false} OneTree(t: Tree, parent: Option<Id>, n: int)
    ensures Flatten([t], parent, n) == Flatten(t.kids, Some(t.id), n + 1) + [Root(t, parent, n)]
  {
    assert [t][1..] == [];
  }

  /** The ids of the parts of a forest with distinct ids are distinct and disjoint. */
  lemma {:induction false} SplitIds(f: seq<Tree>)
    requires f != [] && NoDup(TreeIds(f))
    ensures NoDup(TreeIds(f[1..])) && NoDup(TreeIds(f[0].kids))
    ensures f[0].id !in TreeIds(f[1..]) && f[0].id !in TreeIds(f[0].kids)
    ensures forall id :: id in TreeIds(f[1..]) ==> id !in TreeIds(f[0].kids)
    ensures forall id :: id in TreeIds(f) <==> id in TreeIds(f[1..]) || id in TreeIds(f[0].kids) || id == f[0].id
  {
    DistinctParts(TreeIds(f[1..]), TreeIds(f[0].kids), f[0].id);
  }

  lemma DistinctParts(a: seq<Id>, b: seq<Id>, x: Id)
    requires NoDup(a + b + [x])
    ensures NoDup(a) && NoDup(b) && x !in a && x !in b
    ensures forall id :: id in a ==> id !in b
    ensures forall id :: id in a + b + [x] <==> id in a || id in b || id == x
  {
    var all := a + b + [x];
    assert forall i :: 0 <= i < |a| ==> all[i] == a[i];
    assert forall i :: 0 <= i < |b| ==> all[|a| + i] == b[i];
    assert all[|all| - 1] == x;
  }

  lemma {:induction false} ReplayTree(s: State, t: Tree)
    requires s.active && s.stackDepth >= 0
    requires NoDup(TreeIds(t.kids)) && t.id !in TreeIds(t.kids) && t.id !in Ids(s.calls)
    requires forall id :: id in TreeIds(t.kids) ==> id !in Ids(s.calls)
    ensures Final(s, TreeEvents(t)) == Replayed(s, [t])
    decreases t, 1
  {
    hide TreeEvents, Events, Final, TreeIds, Flatten, Ids;
    var s1 := DoEnter(s, t.id, t.name, t.start);
    EnteredIds(s, t);
    ReplayForest(s1, t.kids);
    CloseTree(s, s1, Replayed(s1, t.kids), t);
    OneTree(t, Top(s), s.callDepth);
    OneTreeIds(t);
    TreeRun(s, t);
  }

  lemma EnteredIds(s: State, t: Tree)
    requires s.active
    ensures forall id :: id in Ids(DoEnter(s, t.id, t.name, t.start).calls) <==> id == t.id || id in Ids(s.calls)
  {
    var s1 := DoEnter(s, t.id, t.name, t.start);
    IdsConcat([s1.calls[0]], s.calls);
    assert [s1.calls[0]][1..] == [];
  }

  lemma {:induction false} TreeRun(s: State, t: Tree)
    ensures Final(s, TreeEvents(t))
         == Apply(Final(Apply(s, Enter(t.id, t.name, t.start)), Events(t.kids)), Exit(t.id, t.end))
  {
    hide Apply;
    var enter, exit := [Enter(t.id, t.name, t.start)], [Exit(t.id, t.end)];
    FinalConcat(s, enter + Events(t.kids), exit);
    FinalConcat(s, enter, Events(t.kids));
    assert enter[1..] == [] && exit[1..] == [];
    var s1 := Apply(s, enter[0]);
    assert Final(s, enter) == Final(s1, []) == s1;
    var s2 := Final(s1, Events(t.kids));
    assert Final(s2, exit) == Final(Apply(s2, exit[0]), []);
  }

  /** The exit finds the call below its descendants, ends it and pops it. */
  lemma CloseTree(s: State, s1: State, s2: State, t: Tree)
    requires s.active && s.stackDepth >= 0
    requires s1 == DoEnter(s, t.id, t.name, t.start) && s2 == Replayed(s1, t.kids)
    requires t.id !in TreeIds(t.kids)
    ensures DoExit(s2, t.id, t.end)
         == s.(calls := Flatten(t.kids, Some(t.id), s.callDepth + 1) + [Root(t, Top(s), s.callDepth)] + s.calls,
               callDepth := s.callDepth + 1 + |TreeIds(t.kids)|, callCount := s.callCount + 1 + |TreeIds(t.kids)|)
  {
    hide Flatten, TreeIds, Ids, Find;
    var kids := Flatten(t.kids, Some(t.id), s.callDepth + 1);
    var c := Call(t.id, Top(s), t.name, s.callDepth, t.start, 0, [], [], [], []);
    assert s1.calls == [c] + s.calls && s1.stack == [t.id] + s.stack;
    assert s2.calls == kids + ([c] + s.calls);
    FlattenIds(t.kids, Some(t.id), s.callDepth + 1);
    FindBelow(kids, c, s.calls);
    assert (kids + ([c] + s.calls))[|kids| := Ended(c, t.end)] == kids + [Ended(c, t.end)] + s.calls;
    assert s2.stack[1..] == s.stack;
  }

  lemma {:induction false} FindBelow(above: seq<Call>, c: Call, below: seq<Call>)
    requires c.id !in Ids(above)
    ensures Find(above + ([c] + below), c.id) == Some(|above|)
    decreases |above|
  {
    if above == [] {
      assert above + ([c] + below) == [c] + below;
    } else {
      var all := above + ([c] + below);
      assert all[0] == above[0] && all[1..] == above[1..] + ([c] + below);
      assert Ids(above) == [above[0].id] + Ids(above[1..]);
      FindBelow(above[1..], c, below);
    }
  }
}
