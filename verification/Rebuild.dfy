/** Rebuilding the call tree from the flat list by parent ids, as the serializer's
    traversal does and as is left to a receiver of the flat list, and that it undoes a
    replay up to the order of siblings. */
module Rebuild {
  import opened Seqs
  import opened CollectorSpec
  import opened Replay

  /** What every reachable call list satisfies. */
  ghost predicate Ordered(calls: seq<Call>) {
    NoDup(Ids(calls)) && ParentsLater(calls)
  }

  /** A parent is found strictly later in the list. */
  lemma {:induction false} ParentPosition(calls: seq<Call>, k: nat)
    requires Ordered(calls) && k < |calls| && calls[k].parent.Some?
    ensures var f := Find(calls, calls[k].parent.value); f.Some? && f.value > k
  {
    var p := calls[k].parent.value;
    var later := Ids(calls[k + 1..]);
    assert p in later;
    var j :| 0 <= j < |later| && later[j] == p;
    assert calls[k + 1 + j].id == p && Ids(calls)[k + 1 + j] == p;
    FindIff(calls, p);
    var f := Find(calls, p);
    assert Ids(calls)[f.value] == p;
  }

  predicate Completed(c: Call) { c.end > 0 }

  predicate ChildOf(c: Call, parent: Option<Id>) { Completed(c) && c.parent == parent }

  /** No call at or after this position has the given parent. */
  ghost function Bound(calls: seq<Call>, parent: Option<Id>): nat {
    match parent
    case None => |calls|
    case Some(id) => match Find(calls, id) case Some(i) => i case None => |calls|
  }

  /** The tree under the call at position `k`: its completed children in list order. */
  ghost function RebuildTree(calls: seq<Call>, k: nat): Tree
    requires Ordered(calls) && k < |calls|
    decreases k, |calls| + 1
  {
    var c := calls[k];
    Node(c.id, c.name, c.start, c.end, Children(calls, Some(c.id), 0, |calls|))
  }

  /** The scan over positions `lo` to `hi` for the completed children of `parent`. */
  ghost function Children(calls: seq<Call>, parent: Option<Id>, lo: nat, hi: nat): seq<Tree>
    requires Ordered(calls) && lo <= hi <= |calls|
    decreases Bound(calls, parent), hi - lo
  {
    if lo == hi then []
    else if ChildOf(calls[lo], parent) then
      assert lo < Bound(calls, parent) by { if parent.Some? { ParentPosition(calls, lo); } }
      [RebuildTree(calls, lo)] + Children(calls, parent, lo + 1, hi)
    else Children(calls, parent, lo + 1, hi)
  }

  /** Root calls are those without a parent. */
  ghost function RebuildForest(calls: seq<Call>): seq<Tree>
    requires Ordered(calls)
  {
    Children(calls, None, 0, |calls|)
  }

  lemma {:induction false} ChildrenConcat(calls: seq<Call>, parent: Option<Id>, lo: nat, mid: nat, hi: nat)
    requires Ordered(calls) && lo <= mid <= hi <= |calls|
    ensures Children(calls, parent, lo, hi) == Children(calls, parent, lo, mid) + Children(calls, parent, mid, hi)
    decreases mid - lo
  {
    hide RebuildTree, Ordered;
    if lo < mid {
      ChildrenConcat(calls, parent, lo + 1, mid, hi);
    }
  }

  lemma {:induction false} NoChildren(calls: seq<Call>, parent: Option<Id>, lo: nat, hi: nat)
    requires Ordered(calls) && lo <= hi <= |calls|
    requires forall k :: lo <= k < hi ==> calls[k].parent != parent
    ensures Children(calls, parent, lo, hi) == []
    decreases hi - lo
  {
    hide RebuildTree, Ordered;
    if lo < hi {
      NoChildren(calls, parent, lo + 1, hi);
    }
  }

  // ----- the mirror image of a forest -----

  function Mirror(f: seq<Tree>): seq<Tree>
    decreases f, 0
  {
    if f == [] then [] else Mirror(f[1..]) + [MirrorTree(f[0])]
  }

  function MirrorTree(t: Tree): Tree
    decreases t, 1
  {
    t.(kids := Mirror(t.kids))
  }

  /** The ids in the order the traversal visits them: a call, then its children. */
  function Preorder(f: seq<Tree>): seq<Id>
    decreases f
  {
    if f == [] then [] else [f[0].id] + Preorder(f[0].kids) + Preorder(f[1..])
  }

  lemma {:induction false} PreorderConcat(a: seq<Tree>, b: seq<Tree>)
    ensures Preorder(a + b) == Preorder(a) + Preorder(b)
    decreases |a|
  {
    if a == [] {
      assert a + b == b;
    } else {
      PreorderConcat(a[1..], b);
      assert (a + b)[0] == a[0] && (a + b)[1..] == a[1..] + b;
      assert Preorder(a + b) == [a[0].id] + Preorder(a[0].kids) + Preorder((a + b)[1..]);
      var head, x, y := [a[0].id] + Preorder(a[0].kids), Preorder(a[1..]), Preorder(b);
      assert head + (x + y) == (head + x) + y;
    }
  }

  /** The mirrored forest is visited in exactly the order of the call list, reversed in
      time: each call of the forest once. */
  lemma {:induction false} MirrorVisitsEachOnce(f: seq<Tree>)
    ensures multiset(Preorder(Mirror(f))) == multiset(TreeIds(f))
    decreases f
  {
    if f != [] {
      MirrorVisitsEachOnce(f[1..]);
      MirrorVisitsEachOnce(f[0].kids);
      var m := MirrorTree(f[0]);
      PreorderConcat(Mirror(f[1..]), [m]);
      assert [m][1..] == [];
      assert Preorder([m]) == [m.id] + Preorder(m.kids) + [];
    }
  }

  lemma {:induction false} MirrorTwice(f: seq<Tree>)
    ensures Mirror(Mirror(f)) == f
    decreases f
  {
    if f != [] {
      MirrorTwice(f[1..]);
      MirrorTwice(f[0].kids);
      MirrorSnoc(Mirror(f[1..]), MirrorTree(f[0]));
      assert [f[0]] + f[1..] == f;
    }
  }

  lemma {:induction false} MirrorSnoc(f: seq<Tree>, t: Tree)
    ensures Mirror(f + [t]) == [MirrorTree(t)] + Mirror(f)
    decreases |f|
  {
    if f == [] {
      assert f + [t] == [t] && [t][1..] == [];
    } else {
      MirrorSnoc(f[1..], t);
      assert (f + [t])[0] == f[0] && (f + [t])[1..] == f[1..] + [t];
    }
  }

  // ----- parents within a replayed segment -----

  lemma {:induction false} FlattenParents(f: seq<Tree>, parent: Option<Id>, n: int, k: nat)
    requires k < |TreeIds(f)|
    ensures var c := Flatten(f, parent, n)[k];
            c.parent == parent || (c.parent.Some? && c.parent.value in TreeIds(f))
    decreases f
  {
    assert f != [];
    FlattenStep(f, parent, n);
    TreeIdsMembers(f);
    hide Flatten, TreeIds;
    var r, q := |TreeIds(f[1..])|, |TreeIds(f[0].kids)|;
    if k < r {
      FlattenParents(f[1..], parent, n + |TreeIds([f[0]])|, k);
      assert Flatten(f, parent, n)[k] == Flatten(f[1..], parent, n + |TreeIds([f[0]])|)[k];
    } else if k < r + q {
      FlattenParents(f[0].kids, Some(f[0].id), n + 1, k - r);
      assert Flatten(f, parent, n)[k] == Flatten(f[0].kids, Some(f[0].id), n + 1)[k - r];
    } else {
      assert Flatten(f, parent, n)[k] == Root(f[0], parent, n);
    }
  }

  /** The parent of call `k` stands somewhere after it. */
  ghost predicate HasLater(calls: seq<Call>, k: nat)
    requires k < |calls|
  {
    calls[k].parent.Some? && exists j :: k < j < |calls| && calls[j].id == calls[k].parent.value
  }

  lemma LaterInConcat(a: seq<Call>, b: seq<Call>)
    ensures forall k :: 0 <= k < |a| && HasLater(a, k) ==> HasLater(a + b, k)
    ensures forall k :: 0 <= k < |b| && HasLater(b, k) ==> HasLater(a + b, |a| + k)
  {
    forall k | 0 <= k < |a| && HasLater(a, k)
      ensures HasLater(a + b, k)
    {
      var j :| k < j < |a| && a[j].id == a[k].parent.value;
      assert (a + b)[j] == a[j];
    }
    forall k | 0 <= k < |b| && HasLater(b, k)
      ensures HasLater(a + b, |a| + k)
    {
      var j :| k < j < |b| && b[j].id == b[k].parent.value;
      assert (a + b)[|a| + j] == b[j];
    }
  }

  ghost predicate AllLater(calls: seq<Call>, parent: Option<Id>) {
    forall k :: 0 <= k < |calls| ==> calls[k].parent == parent || HasLater(calls, k)
  }

  lemma {:induction false} FlattenParentsLater(f: seq<Tree>, parent: Option<Id>, n: int)
    ensures AllLater(Flatten(f, parent, n), parent)
    decreases f
  {
    hide AllLater, TreeIds;
    if f == [] {
      NobodyLater(parent);
    } else {
      FlattenParentsLater(f[1..], parent, n + |TreeIds([f[0]])|);
      FlattenParentsLater(f[0].kids, Some(f[0].id), n + 1);
      var a, b := Flatten(f[1..], parent, n + |TreeIds([f[0]])|), Flatten(f[0].kids, Some(f[0].id), n + 1);
      UnderRoot(a, b, parent, Root(f[0], parent, n));
    }
  }

  lemma NobodyLater(parent: Option<Id>)
    ensures AllLater([], parent)
  {
  }

  lemma UnderRoot(a: seq<Call>, b: seq<Call>, parent: Option<Id>, root: Call)
    requires root.parent == parent && AllLater(a, parent) && AllLater(b, Some(root.id))
    ensures AllLater(a + b + [root], parent)
  {
    var calls := a + b + [root];
    LaterInConcat(a, b);
    LaterInConcat(a + b, [root]);
    forall k | 0 <= k < |calls|
      ensures calls[k].parent == parent || HasLater(calls, k)
    {
      if |a| <= k < |a| + |b| {
        assert calls[k] == b[k - |a|] && calls[|a| + |b|].id == root.id;
        if b[k - |a|].parent != Some(root.id) {
          assert HasLater(a + b, |a| + (k - |a|));
        }
      } else if k < |a| {
        assert calls[k] == a[k];
      }
    }
  }

  lemma {:induction false} FlattenOrdered(f: seq<Tree>, n: int)
    requires NoDup(TreeIds(f))
    ensures Ordered(Flatten(f, None, n))
  {
    var calls := Flatten(f, None, n);
    FlattenIds(f, None, n);
    FlattenParentsLater(f, None, n);
    hide Flatten, Ids, TreeIds;
    forall k | 0 <= k < |calls| && calls[k].parent.Some?
      ensures calls[k].parent.value in Ids(calls[k + 1..])
    {
      assert HasLater(calls, k);
      var j :| k < j < |calls| && calls[j].id == calls[k].parent.value;
      assert Ids(calls[k + 1..])[j - k - 1] == calls[j].id;
    }
  }

  // ----- rebuilding a replayed segment -----

  /** The calls of the forest stand at `a`, and no call elsewhere has a parent among them. */
  ghost predicate Segment(calls: seq<Call>, f: seq<Tree>, parent: Option<Id>, n: int, a: nat) {
    && a + |TreeIds(f)| <= |calls|
    && calls[a..a + |TreeIds(f)|] == Flatten(f, parent, n)
    && (forall k :: 0 <= k < |calls| && calls[k].parent.Some? && calls[k].parent.value in TreeIds(f) ==>
          a <= k < a + |TreeIds(f)|)
    && (parent.Some? ==> parent.value !in TreeIds(f))
  }

  /** Which calls name a parent from which part, for parts with disjoint ids. */
  lemma PartBounds(calls: seq<Call>, parent: Option<Id>, rest: seq<Id>, kids: seq<Id>, id: Id, a: nat)
    requires a + |rest| + |kids| < |calls|
    requires forall x :: x in rest ==> x !in kids && x != id
    requires id !in kids
    requires parent.Some? ==> parent.value !in rest && parent.value !in kids && parent.value != id
    requires forall k :: a <= k < a + |rest| ==>
               calls[k].parent == parent || (calls[k].parent.Some? && calls[k].parent.value in rest)
    requires forall k :: a + |rest| <= k < a + |rest| + |kids| ==>
               calls[k].parent.Some? && (calls[k].parent.value == id || calls[k].parent.value in kids)
    requires calls[a + |rest| + |kids|].parent == parent
    requires forall k :: 0 <= k < |calls| && calls[k].parent.Some?
               && (calls[k].parent.value in rest || calls[k].parent.value in kids || calls[k].parent.value == id)
               ==> a <= k <= a + |rest| + |kids|
    ensures forall k :: 0 <= k < |calls| && calls[k].parent.Some? && calls[k].parent.value in rest ==>
              a <= k < a + |rest|
    ensures forall k :: 0 <= k < |calls| && calls[k].parent.Some? &&
              (calls[k].parent.value in kids || calls[k].parent.value == id)
              ==> a + |rest| <= k < a + |rest| + |kids|
    ensures forall k :: a + |rest| <= k < a + |rest| + |kids| ==> calls[k].parent != parent
  {
  }

  lemma {:induction false} SegmentDistinct(calls: seq<Call>, f: seq<Tree>, parent: Option<Id>, n: int, a: nat)
    requires NoDup(Ids(calls)) && Segment(calls, f, parent, n, a)
    ensures NoDup(TreeIds(f))
  {
    hide Flatten, TreeIds;
    FlattenIds(f, parent, n);
    var part := calls[a..a + |TreeIds(f)|];
    forall i, j | 0 <= i < j < |part|
      ensures Ids(part)[i] != Ids(part)[j]
    {
      assert Ids(calls)[a + i] == part[i].id && Ids(calls)[a + j] == part[j].id;
    }
  }

  lemma SliceOfSlice(calls: seq<Call>, a: nat, b: nat, lo: nat, hi: nat)
    requires lo <= hi && a + hi <= b <= |calls|
    ensures calls[a..b][lo..hi] == calls[a + lo..a + hi]
  {
    var x, y := calls[a..b][lo..hi], calls[a + lo..a + hi];
    assert |x| == |y| && forall i :: 0 <= i < |x| ==> x[i] == y[i];
  }

  lemma Slices(calls: seq<Call>, a: nat, x: seq<Call>, y: seq<Call>, c: Call)
    requires a + |x| + |y| + 1 <= |calls| && calls[a..a + |x| + |y| + 1] == x + y + [c]
    ensures calls[a..a + |x|] == x
    ensures calls[a + |x|..a + |x| + |y|] == y
    ensures calls[a + |x| + |y|] == c
  {
    var b := a + |x| + |y| + 1;
    var part := calls[a..b];
    assert part[..|x|] == x && part[|x|..|x| + |y|] == y && part[|x| + |y|] == c;
    SliceOfSlice(calls, a, b, 0, |x|);
    SliceOfSlice(calls, a, b, |x|, |x| + |y|);
    assert calls[a + |x| + |y|] == part[|x| + |y|];
    assert calls[a + |x|..a + (|x| + |y|)] == calls[a + |x|..a + |x| + |y|];
  }

  predicate InTree(t: Tree, id: Id) { id in TreeIds(t.kids) || id == t.id }

  /** Only the middle part of a segment holds children of its root. */
  lemma SegmentPartBounds(calls: seq<Call>, f: seq<Tree>, parent: Option<Id>, n: int, a: nat)
    requires f != [] && Ordered(calls) && Segment(calls, f, parent, n, a)
    ensures var r, q := |TreeIds(f[1..])|, |TreeIds(f[0].kids)|;
            && a + r + q < |calls|
            && (forall k :: 0 <= k < |calls| && calls[k].parent.Some? && calls[k].parent.value in TreeIds(f[1..]) ==>
                  a <= k < a + r)
            && (forall k :: 0 <= k < |calls| && calls[k].parent.Some? && InTree(f[0], calls[k].parent.value) ==>
                  a + r <= k < a + r + q)
            && (forall k :: a + r <= k < a + r + q ==> calls[k].parent != parent)
  {
    hide TreeIds, Flatten, Ordered, Segment;
    hide NoDup, Ids;
    OrderedDistinct(calls);
    SegmentDistinct(calls, f, parent, n, a);
    SplitIds(f);
    SegmentSlices(calls, f, parent, n, a);
    SegmentParents(calls, f, parent, n, a);
    SegmentBounds(calls, f, parent, n, a);
    PartBounds(calls, parent, TreeIds(f[1..]), TreeIds(f[0].kids), f[0].id, a);
  }

  /** The parts of a segment are segments themselves. */
  lemma SegmentParts(calls: seq<Call>, f: seq<Tree>, parent: Option<Id>, n: int, a: nat)
    requires f != [] && Ordered(calls) && Segment(calls, f, parent, n, a)
    ensures Segment(calls, f[1..], parent, n + |TreeIds([f[0]])|, a)
    ensures Segment(calls, f[0].kids, Some(f[0].id), n + 1, a + |TreeIds(f[1..])|)
  {
    hide TreeIds, Flatten, Ordered, Segment;
    SegmentSlices(calls, f, parent, n, a);
    SegmentPartBounds(calls, f, parent, n, a);
    SegmentRoots(calls, f, parent, n, a);
    assert forall id :: id in TreeIds(f[0].kids) ==> InTree(f[0], id);
    MakeSegment(calls, f[1..], parent, n + |TreeIds([f[0]])|, a);
    MakeSegment(calls, f[0].kids, Some(f[0].id), n + 1, a + |TreeIds(f[1..])|);
  }

  /** Neither part contains its own root's parent. */
  lemma SegmentRoots(calls: seq<Call>, f: seq<Tree>, parent: Option<Id>, n: int, a: nat)
    requires f != [] && Ordered(calls) && Segment(calls, f, parent, n, a)
    ensures parent.Some? ==> parent.value !in TreeIds(f[1..])
    ensures f[0].id !in TreeIds(f[0].kids)
  {
    hide TreeIds, Flatten, Ordered, Segment;
    OrderedDistinct(calls);
    SegmentDistinct(calls, f, parent, n, a);
    SplitIds(f);
    SegmentBounds(calls, f, parent, n, a);
  }

  lemma {:induction false} MakeSegment(calls: seq<Call>, f: seq<Tree>, parent: Option<Id>, n: int, a: nat)
    requires a + |TreeIds(f)| <= |calls| && calls[a..a + |TreeIds(f)|] == Flatten(f, parent, n)
    requires forall k :: 0 <= k < |calls| && calls[k].parent.Some? && calls[k].parent.value in TreeIds(f) ==>
               a <= k < a + |TreeIds(f)|
    requires parent.Some? ==> parent.value !in TreeIds(f)
    ensures Segment(calls, f, parent, n, a)
  {
  }

  lemma {:induction false} SegmentBounds(calls: seq<Call>, f: seq<Tree>, parent: Option<Id>, n: int, a: nat)
    requires Segment(calls, f, parent, n, a)
    ensures a + |TreeIds(f)| <= |calls| && (parent.Some? ==> parent.value !in TreeIds(f))
    ensures forall k :: 0 <= k < |calls| && calls[k].parent.Some? && calls[k].parent.value in TreeIds(f) ==>
              a <= k < a + |TreeIds(f)|
  {
    hide TreeIds, Flatten;
  }

  lemma {:induction false} OrderedDistinct(calls: seq<Call>)
    requires Ordered(calls)
    ensures NoDup(Ids(calls))
  {
  }

  lemma {:induction false} SegmentSlices(calls: seq<Call>, f: seq<Tree>, parent: Option<Id>, n: int, a: nat)
    requires f != [] && Segment(calls, f, parent, n, a)
    ensures var r, q := |TreeIds(f[1..])|, |TreeIds(f[0].kids)|;
            && |TreeIds(f)| == r + q + 1
            && calls[a..a + r] == Flatten(f[1..], parent, n + |TreeIds([f[0]])|)
            && calls[a + r..a + r + q] == Flatten(f[0].kids, Some(f[0].id), n + 1)
            && calls[a + r + q] == Root(f[0], parent, n)
  {
    hide TreeIds, Flatten;
    FlattenStep(f, parent, n);
    TreeIdsMembers(f);
    Slices(calls, a, Flatten(f[1..], parent, n + |TreeIds([f[0]])|), Flatten(f[0].kids, Some(f[0].id), n + 1),
           Root(f[0], parent, n));
  }

  lemma {:induction false} SegmentParents(calls: seq<Call>, f: seq<Tree>, parent: Option<Id>, n: int, a: nat)
    requires f != [] && Segment(calls, f, parent, n, a)
    ensures var r, q := |TreeIds(f[1..])|, |TreeIds(f[0].kids)|;
            && |TreeIds(f)| == r + q + 1
            && (forall k :: a <= k < a + r ==>
                  calls[k].parent == parent || (calls[k].parent.Some? && calls[k].parent.value in TreeIds(f[1..])))
            && (forall k :: a + r <= k < a + r + q ==>
                  calls[k].parent.Some? &&
                    (calls[k].parent.value == f[0].id || calls[k].parent.value in TreeIds(f[0].kids)))
  {
    hide TreeIds, Flatten;
    SegmentSlices(calls, f, parent, n, a);
    SliceParents(calls, f[1..], parent, n + |TreeIds([f[0]])|, a);
    SliceParents(calls, f[0].kids, Some(f[0].id), n + 1, a + |TreeIds(f[1..])|);
  }

  lemma {:induction false} SliceParents(calls: seq<Call>, f: seq<Tree>, parent: Option<Id>, n: int, a: nat)
    requires a + |TreeIds(f)| <= |calls| && calls[a..a + |TreeIds(f)|] == Flatten(f, parent, n)
    ensures forall k :: a <= k < a + |TreeIds(f)| ==>
              calls[k].parent == parent || (calls[k].parent.Some? && calls[k].parent.value in TreeIds(f))
  {
    hide TreeIds, Flatten;
    forall k | a <= k < a + |TreeIds(f)|
      ensures calls[k].parent == parent || (calls[k].parent.Some? && calls[k].parent.value in TreeIds(f))
    {
      FlattenParents(f, parent, n, k - a);
      assert calls[k] == calls[a..a + |TreeIds(f)|][k - a];
    }
  }

  /** Children in front, none in between, and those of the last position. */
  lemma {:induction false} JoinChildren(calls: seq<Call>, parent: Option<Id>, lo: nat, mid: nat, last: nat)
    requires Ordered(calls) && lo <= mid <= last < |calls| && Children(calls, parent, mid, last) == []
    ensures Children(calls, parent, lo, last + 1)
         == Children(calls, parent, lo, mid) + Children(calls, parent, last, last + 1)
  {
    hide Children, Ordered;
    ChildrenConcat(calls, parent, lo, mid, last + 1);
    ChildrenConcat(calls, parent, mid, last, last + 1);
  }

  lemma {:induction false} RebuildSegment(calls: seq<Call>, f: seq<Tree>, parent: Option<Id>, n: int, a: nat)
    requires Ordered(calls) && Segment(calls, f, parent, n, a) && TimesPositive(f)
    ensures Children(calls, parent, a, a + |TreeIds(f)|) == Mirror(f)
    decreases f
  {
    hide TreeIds, Flatten, Ordered, Segment, RebuildTree, Bound, MirrorTree;
    if f == [] {
      assert |TreeIds([])| == 0 by { NoTreeIds(); }
    } else {
      hide Children, Mirror;
      SegmentFits(calls, f, parent, n, a);
      SegmentParts(calls, f, parent, n, a);
      SegmentSlices(calls, f, parent, n, a);
      SegmentPartBounds(calls, f, parent, n, a);
      var t, r, q := f[0], |TreeIds(f[1..])|, |TreeIds(f[0].kids)|;
      RebuildSegment(calls, f[1..], parent, n + |TreeIds([t])|, a);
      RebuildSegment(calls, t.kids, Some(t.id), n + 1, a + r);
      RebuildRoot(calls, t, parent, n, a + r, q);
      NoChildren(calls, parent, a + r, a + r + q);
      JoinChildren(calls, parent, a, a + r, a + r + q);
      MirrorCons(f);
    }
  }

  lemma {:induction false} MirrorCons(f: seq<Tree>)
    requires f != []
    ensures Mirror(f) == Mirror(f[1..]) + [MirrorTree(f[0])]
  {
  }

  lemma NoTreeIds()
    ensures TreeIds([]) == []
  {
  }

  lemma {:induction false} SegmentFits(calls: seq<Call>, f: seq<Tree>, parent: Option<Id>, n: int, a: nat)
    requires Segment(calls, f, parent, n, a)
    ensures a + |TreeIds(f)| <= |calls|
  {
  }

  /** The root of the segment rebuilds to its mirrored tree. */
  lemma RebuildRoot(calls: seq<Call>, t: Tree, parent: Option<Id>, n: int, lo: nat, q: nat)
    requires Ordered(calls) && lo + q < |calls| && calls[lo + q] == Root(t, parent, n) && t.end > 0
    requires Children(calls, Some(t.id), lo, lo + q) == Mirror(t.kids)
    requires forall k :: 0 <= k < |calls| && calls[k].parent == Some(t.id) ==> lo <= k < lo + q
    ensures Children(calls, parent, lo + q, lo + q + 1) == [MirrorTree(t)]
  {
    hide Ordered;
    NoChildren(calls, Some(t.id), 0, lo);
    NoChildren(calls, Some(t.id), lo + q, |calls|);
    ChildrenConcat(calls, Some(t.id), 0, lo, |calls|);
    ChildrenConcat(calls, Some(t.id), lo, lo + q, |calls|);
    hide Mirror;
    var kids := Mirror(t.kids);
    assert [] + (kids + []) == kids;
    assert RebuildTree(calls, lo + q) == MirrorTree(t);
    LastChild(calls, parent, lo + q);
  }

  lemma {:induction false} LastChild(calls: seq<Call>, parent: Option<Id>, k: nat)
    requires Ordered(calls) && k < |calls| && ChildOf(calls[k], parent)
    ensures Children(calls, parent, k, k + 1) == [RebuildTree(calls, k)]
  {
    hide RebuildTree, Ordered;
    assert Children(calls, parent, k + 1, k + 1) == [];
  }

  // ----- the main result -----

  /** Replaying any forest with distinct ids in a freshly started collector and then
      rebuilding from the flat list gives back the forest with all siblings reversed;
      every call is visited exactly once, and the stack ends as it began. */
  lemma {:induction false} ReplayThenRebuild(s: State, f: seq<Tree>)
    requires s.active && s.calls == [] && s.stack == [] && s.stackDepth == 0
    requires NoDup(TreeIds(f)) && TimesPositive(f)
    ensures var s' := Final(s, Events(f));
            && Ordered(s'.calls)
            && RebuildForest(s'.calls) == Mirror(f)
            && multiset(Preorder(RebuildForest(s'.calls))) == multiset(TreeIds(f)) == multiset(Ids(s'.calls))
            && s'.stack == s.stack && s'.stackDepth == s.stackDepth
  {
    hide TreeIds, Flatten, Final, Events, Mirror, Ids, NoDup, RebuildForest, Ordered, Preorder;
    assert Ids(s.calls) == [] by { NoIds(); }
    ReplayForest(s, f);
    var calls := Flatten(f, None, s.callDepth);
    assert Final(s, Events(f)).calls == calls + [] == calls;
    RebuildFlattened(f, s.callDepth);
    FlattenIds(f, None, s.callDepth);
    MirrorVisitsEachOnce(f);
  }

  lemma {:induction false} RebuildFlattened(f: seq<Tree>, n: int)
    requires NoDup(TreeIds(f)) && TimesPositive(f)
    ensures Ordered(Flatten(f, None, n)) && RebuildForest(Flatten(f, None, n)) == Mirror(f)
  {
    hide TreeIds, Flatten, Mirror, Ids, NoDup, Ordered;
    var calls := Flatten(f, None, n);
    FlattenOrdered(f, n);
    assert calls[0..|calls|] == calls;
    WholeSegment(f, n);
    RebuildSegment(calls, f, None, n, 0);
  }

  lemma {:induction false} WholeSegment(f: seq<Tree>, n: int)
    ensures Segment(Flatten(f, None, n), f, None, n, 0)
  {
    hide TreeIds, Flatten;
    var calls := Flatten(f, None, n);
    assert calls[0..|calls|] == calls;
  }

  lemma NoIds()
    ensures Ids([]) == []
  {
  }
}
