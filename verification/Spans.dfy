/** Expanding significant calls into child spans: the emitted spans form a tree that
    contracts the call tree. */
module Spans {
  import opened Seqs
  import opened CollectorSpec
  import opened Rebuild

  /** Microseconds; a call that has not returned counts as one millisecond. */
  function Duration(c: Call): nat {
    var end := if c.end > 0 then c.end else c.start + 1000;
    if end - c.start < 0 then 0 else end - c.start
  }

  /** The test used by the emission loop, the parent search and the span printer alike. */
  predicate Significant(c: Call) {
    c.sql != [] || c.http != [] || c.cache != [] || c.redis != [] || Duration(c) > 10000
  }

  // ----- the call tree, by positions -----

  /** The position of the parent of call `k`, if it has one in the list. */
  function ParentOf(calls: seq<Call>, k: nat): (r: Option<nat>)
    requires k < |calls|
    ensures r.Some? ==> r.value < |calls|
  {
    if calls[k].parent.None? || calls[k].parent.value == "" then None else Find(calls, calls[k].parent.value)
  }

  lemma ParentLater(calls: seq<Call>, k: nat)
    requires Ordered(calls) && k < |calls| && ParentOf(calls, k).Some?
    ensures ParentOf(calls, k).value > k
  {
    ParentPosition(calls, k);
  }

  ghost predicate Between(up: seq<nat>, lo: nat, hi: nat) {
    forall i :: 0 <= i < |up| ==> lo < up[i] < hi
  }

  lemma BetweenCons(p: nat, up: seq<nat>, lo: nat, hi: nat)
    requires lo < p < hi && Between(up, p, hi)
    ensures Between([p] + up, lo, hi)
  {
  }

  /** The proper ancestors of call `k`, nearest first. */
  ghost function Ancestors(calls: seq<Call>, k: nat): (r: seq<nat>)
    requires Ordered(calls) && k < |calls|
    ensures Between(r, k, |calls|)
    decreases |calls| - k
  {
    match ParentOf(calls, k)
    case None => []
    case Some(p) => ParentLater(calls, k); BetweenCons(p, Ancestors(calls, p), k, |calls|); [p] + Ancestors(calls, p)
  }

  lemma {:induction false} AncestorsStep(calls: seq<Call>, k: nat, p: nat)
    requires Ordered(calls) && k < |calls| && ParentOf(calls, k) == Some(p)
    ensures k < p < |calls| && Ancestors(calls, k) == [p] + Ancestors(calls, p)
  {
    hide Ordered, ParentOf;
    ParentLater(calls, k);
  }

  lemma {:induction false} AncestorsTransitive(calls: seq<Call>, a: nat, m: nat, b: nat)
    requires Ordered(calls) && b < |calls| && m < |calls|
    requires m in Ancestors(calls, b) && a in Ancestors(calls, m)
    ensures a in Ancestors(calls, b)
    decreases |calls| - b
  {
    hide Ordered, ParentOf;
    var p := ParentOf(calls, b).value;
    AncestorsStep(calls, b, p);
    if m != p {
      AncestorsTransitive(calls, a, m, p);
    }
  }

  // ----- the spans -----

  datatype Span = Span(id: Id, parent: Id)

  /** The parent search: the nearest significant ancestor, else the root span. */
  ghost function ParentSpanId(calls: seq<Call>, k: nat, root: Id): Id
    requires Ordered(calls) && k < |calls|
    decreases |calls| - k
  {
    match ParentOf(calls, k)
    case None => root
    case Some(p) =>
      if Significant(calls[p]) then calls[p].id
      else ParentLater(calls, k); ParentSpanId(calls, p, root)
  }

  predicate Emitted(c: Call) { c.start > 0 && Significant(c) }

  /** The emission loop from position `k` on. */
  ghost function EmitFrom(calls: seq<Call>, k: nat, root: Id): seq<Span>
    requires Ordered(calls) && k <= |calls|
    decreases |calls| - k
  {
    if k == |calls| then []
    else if Emitted(calls[k]) then [Span(calls[k].id, ParentSpanId(calls, k, root))] + EmitFrom(calls, k + 1, root)
    else EmitFrom(calls, k + 1, root)
  }

  ghost function Emit(calls: seq<Call>, root: Id): seq<Span>
    requires Ordered(calls)
  {
    EmitFrom(calls, 0, root)
  }

  // ----- what is emitted -----

  /** `s` is the span of the call at position `k`. */
  ghost predicate SpanOf(calls: seq<Call>, k: nat, root: Id, s: Span)
    requires Ordered(calls)
  {
    k < |calls| && Emitted(calls[k]) && s == Span(calls[k].id, ParentSpanId(calls, k, root))
  }

  lemma {:induction false} EmittedSpans(calls: seq<Call>, from: nat, root: Id, s: Span)
    requires Ordered(calls) && from <= |calls|
    ensures s in EmitFrom(calls, from, root) <==> exists k :: from <= k && SpanOf(calls, k, root, s)
    decreases |calls| - from
  {
    hide Ordered, Emitted, ParentSpanId;
    if from < |calls| {
      EmittedSpans(calls, from + 1, root, s);
      if SpanOf(calls, from, root, s) {
        assert s in EmitFrom(calls, from, root);
      }
    }
  }

  lemma IsEmitted(calls: seq<Call>, k: nat, root: Id, s: Span)
    requires Ordered(calls) && SpanOf(calls, k, root, s)
    ensures s in Emit(calls, root)
  {
    hide Ordered, SpanOf;
    EmittedSpans(calls, 0, root, s);
  }

  lemma WhichCall(calls: seq<Call>, root: Id, s: Span) returns (k: nat)
    requires Ordered(calls) && s in Emit(calls, root)
    ensures SpanOf(calls, k, root, s)
  {
    hide Ordered, SpanOf;
    EmittedSpans(calls, 0, root, s);
    k :| SpanOf(calls, k, root, s);
  }

  /** No two emitted spans have the same id. */
  lemma {:induction false} SpansDistinct(calls: seq<Call>, from: nat, root: Id)
    requires Ordered(calls) && from <= |calls|
    ensures forall i, j :: 0 <= i < j < |EmitFrom(calls, from, root)|
              ==> EmitFrom(calls, from, root)[i].id != EmitFrom(calls, from, root)[j].id
    decreases |calls| - from
  {
    hide Ordered, Emitted, ParentSpanId;
    if from < |calls| {
      SpansDistinct(calls, from + 1, root);
      var rest := EmitFrom(calls, from + 1, root);
      forall j | 0 <= j < |rest|
        ensures rest[j].id != calls[from].id
      {
        EmittedSpans(calls, from + 1, root, rest[j]);
        var k :| from + 1 <= k && SpanOf(calls, k, root, rest[j]);
        if calls[k].id == calls[from].id {
          SamePosition(calls, k, from);
        }
      }
    }
  }

  lemma SamePosition(calls: seq<Call>, i: nat, j: nat)
    requires Ordered(calls) && i < |calls| && j < |calls| && calls[i].id == calls[j].id
    ensures i == j
  {
    hide ParentsLater;
    assert Ids(calls)[i] == Ids(calls)[j];
  }

  /** Position `m` is the nearest significant ancestor of call `k`: an ancestor, and every
      nearer one is insignificant. */
  ghost predicate Nearest(calls: seq<Call>, k: nat, m: nat)
    requires Ordered(calls) && k < |calls|
  {
    NearestIn(calls, Ancestors(calls, k), m)
  }

  ghost predicate NearestIn(calls: seq<Call>, up: seq<nat>, m: nat)
    requires forall i :: 0 <= i < |up| ==> up[i] < |calls|
  {
    exists j :: 0 <= j < |up| && up[j] == m && Significant(calls[m]) && InsignificantBefore(calls, up, j)
  }

  ghost predicate InsignificantBefore(calls: seq<Call>, up: seq<nat>, j: nat)
    requires j <= |up| && forall i :: 0 <= i < |up| ==> up[i] < |calls|
  {
    forall i :: 0 <= i < j ==> !Significant(calls[up[i]])
  }

  lemma NearestFirst(calls: seq<Call>, p: nat, up: seq<nat>)
    requires p < |calls| && forall i :: 0 <= i < |up| ==> up[i] < |calls|
    requires Significant(calls[p])
    ensures NearestIn(calls, [p] + up, p)
  {
    hide Significant;
    assert InsignificantBefore(calls, [p] + up, 0);
  }

  lemma NearestCons(calls: seq<Call>, p: nat, up: seq<nat>, m: nat)
    requires p < |calls| && forall i :: 0 <= i < |up| ==> up[i] < |calls|
    requires !Significant(calls[p]) && NearestIn(calls, up, m)
    ensures NearestIn(calls, [p] + up, m)
  {
    hide Significant;
    var j :| 0 <= j < |up| && up[j] == m && Significant(calls[m]) && InsignificantBefore(calls, up, j);
    assert InsignificantBefore(calls, [p] + up, j + 1);
  }

  /** The parent search finds the nearest significant ancestor; the root span's id is the
      answer exactly when no ancestor is significant. */
  lemma {:induction false} ParentIsNearest(calls: seq<Call>, k: nat, root: Id) returns (m: Option<nat>)
    requires Ordered(calls) && k < |calls|
    ensures m.Some? ==> m.value < |calls| && Nearest(calls, k, m.value)
    ensures m.Some? ==> ParentSpanId(calls, k, root) == calls[m.value].id
    ensures m.None? ==> ParentSpanId(calls, k, root) == root
    ensures m.None? ==> InsignificantBefore(calls, Ancestors(calls, k), |Ancestors(calls, k)|)
    decreases |calls| - k
  {
    hide Ordered, Significant, ParentOf, NearestIn;
    match ParentOf(calls, k) {
      case None => m := None;
      case Some(p) =>
        AncestorsStep(calls, k, p);
        if Significant(calls[p]) {
          m := Some(p);
          NearestFirst(calls, p, Ancestors(calls, p));
        } else {
          m := ParentIsNearest(calls, p, root);
          if m.Some? {
            NearestCons(calls, p, Ancestors(calls, p), m.value);
          }
        }
    }
  }

  lemma {:induction false} NearestIsAncestor(calls: seq<Call>, k: nat, m: nat)
    requires Ordered(calls) && k < |calls| && Nearest(calls, k, m)
    ensures m in Ancestors(calls, k) && k < m < |calls| && Significant(calls[m])
  {
    hide Ordered, Significant, Ancestors;
  }

  /** Every emitted span hangs off another emitted span, the one of its call's nearest
      significant ancestor, or off the root span if its call has no significant ancestor. */
  lemma ParentIsEmitted(calls: seq<Call>, root: Id, s: Span) returns (k: nat, m: Option<nat>)
    requires Ordered(calls) && TimesOk(calls) && s in Emit(calls, root)
    ensures SpanOf(calls, k, root, s)
    ensures m.Some? ==> m.value < |calls| && Nearest(calls, k, m.value) && s.parent == calls[m.value].id
    ensures m.Some? ==> Span(s.parent, ParentSpanId(calls, m.value, root)) in Emit(calls, root)
    ensures m.None? ==> s.parent == root && InsignificantBefore(calls, Ancestors(calls, k), |Ancestors(calls, k)|)
  {
    hide Ordered, Significant, Ancestors, Nearest, ParentSpanId, Emit, InsignificantBefore;
    k := WhichCall(calls, root, s);
    m := ParentIsNearest(calls, k, root);
    if m.Some? {
      NearestIsAncestor(calls, k, m.value);
      IsEmitted(calls, m.value, root, Span(calls[m.value].id, ParentSpanId(calls, m.value, root)));
    }
  }

  // ----- in terms of the calls' own fields -----

  /** What makes a call a span: an operation of any kind, or more than ten milliseconds
      between its start and its end. */
  predicate Expands(c: Call) {
    |c.sql| > 0 || |c.http| > 0 || |c.cache| > 0 || |c.redis| > 0 || (c.end > 0 && c.end - c.start > 10000)
  }

  lemma ExpandsIff(c: Call)
    ensures Expands(c) <==> Significant(c)
  {
  }

  /** The ancestors are found by following parent ids until a call has none. */
  lemma {:induction false} AncestorsFollow(calls: seq<Call>, k: nat)
    requires Ordered(calls) && k < |calls|
    ensures var up, parent := Ancestors(calls, k), calls[k].parent;
            if parent.None? || parent.value == "" then up == []
            else up != [] && calls[up[0]].id == parent.value && up[1..] == Ancestors(calls, up[0])
  {
    hide Ordered, Ancestors;
    var parent := calls[k].parent;
    if parent.Some? && parent.value != "" {
      ParentPosition(calls, k);
      AncestorsStep(calls, k, ParentOf(calls, k).value);
    } else {
      NoAncestors(calls, k);
    }
  }

  lemma {:induction false} NoAncestors(calls: seq<Call>, k: nat)
    requires Ordered(calls) && k < |calls| && ParentOf(calls, k).None?
    ensures Ancestors(calls, k) == []
  {
    hide Ordered, ParentOf;
  }

  /** `r` is the id of the nearest ancestor that is a span itself, or the root span's. */
  ghost predicate NearestSpan(calls: seq<Call>, k: nat, root: Id, r: Id)
    requires Ordered(calls) && k < |calls|
  {
    var up := Ancestors(calls, k);
    || (r == root && forall i :: 0 <= i < |up| ==> !Expands(calls[up[i]]))
    || exists j :: 0 <= j < |up| && r == calls[up[j]].id && Expands(calls[up[j]])
                   && forall i :: 0 <= i < j ==> !Expands(calls[up[i]])
  }

  lemma {:induction false} ParentIsNearestSpan(calls: seq<Call>, k: nat, root: Id)
    requires Ordered(calls) && k < |calls|
    ensures NearestSpan(calls, k, root, ParentSpanId(calls, k, root))
  {
    hide Ordered, Significant, Expands, Ancestors, ParentSpanId;
    var m := ParentIsNearest(calls, k, root);
    forall c ensures Expands(c) <==> Significant(c) { ExpandsIff(c); }
  }

  /** A call is among the spans exactly when it has a start time and is worth a span. */
  ghost predicate SpansOfCalls(calls: seq<Call>, root: Id, spans: seq<Span>)
    requires Ordered(calls)
  {
    && (forall k :: 0 <= k < |calls| ==>
          var c := calls[k];
          (exists s :: s in spans && s.id == c.id)
          <==> c.start > 0 && (|c.sql| > 0 || |c.http| > 0 || |c.cache| > 0 || |c.redis| > 0
                               || (c.end > 0 && c.end - c.start > 10000)))
    && (forall s :: s in spans ==>
          exists k :: 0 <= k < |calls| && calls[k].id == s.id && NearestSpan(calls, k, root, s.parent))
    && InCallOrder(calls, spans)
  }

  ghost predicate InCallOrder(calls: seq<Call>, spans: seq<Span>) {
    forall i, j, m, n :: 0 <= i < j < |spans| && 0 <= m < |calls| && 0 <= n < |calls|
      ==> calls[m].id == spans[i].id && calls[n].id == spans[j].id ==> m < n
  }

  lemma {:induction false} CallIsSpan(calls: seq<Call>, root: Id, k: nat)
    requires Ordered(calls) && k < |calls|
    ensures (exists s :: s in Emit(calls, root) && s.id == calls[k].id) <==> Emitted(calls[k])
  {
    hide Ordered, Emitted, Emit, ParentSpanId;
    if s :| s in Emit(calls, root) && s.id == calls[k].id {
      var k' := WhichCall(calls, root, s);
      SamePosition(calls, k, k');
    }
    if Emitted(calls[k]) {
      var s := Span(calls[k].id, ParentSpanId(calls, k, root));
      IsEmitted(calls, k, root, s);
      assert s.id == calls[k].id;
    }
  }

  /** The spans come in the order of the calls. */
  lemma {:induction false} SpansInOrder(calls: seq<Call>, from: nat, root: Id, i: nat, j: nat, m: nat, n: nat)
    requires Ordered(calls) && from <= |calls| && m < |calls| && n < |calls|
    requires i < j < |EmitFrom(calls, from, root)|
    requires calls[m].id == EmitFrom(calls, from, root)[i].id && calls[n].id == EmitFrom(calls, from, root)[j].id
    ensures m < n
    decreases |calls| - from
  {
    hide Ordered, Emitted, ParentSpanId;
    if Emitted(calls[from]) {
      if i == 0 {
        SamePosition(calls, m, from);
        var s := EmitFrom(calls, from + 1, root)[j - 1];
        EmittedSpans(calls, from + 1, root, s);
        var k :| from + 1 <= k && SpanOf(calls, k, root, s);
        SamePosition(calls, n, k);
      } else {
        SpansInOrder(calls, from + 1, root, i - 1, j - 1, m, n);
      }
    } else {
      SpansInOrder(calls, from + 1, root, i, j, m, n);
    }
  }

  /** Which calls become spans, below which span each stands, and in which order they come. */
  lemma {:induction false} WhichSpans(calls: seq<Call>, root: Id)
    requires Ordered(calls)
    ensures SpansOfCalls(calls, root, Emit(calls, root))
  {
    hide Ordered, ParentSpanId, EmitFrom, NearestSpan;
    var spans := Emit(calls, root);
    forall k | 0 <= k < |calls|
      ensures (exists s :: s in spans && s.id == calls[k].id) <==> calls[k].start > 0 && Expands(calls[k])
    {
      CallIsSpan(calls, root, k);
      ExpandsIff(calls[k]);
    }
    forall s | s in spans
      ensures exists k :: 0 <= k < |calls| && calls[k].id == s.id && NearestSpan(calls, k, root, s.parent)
    {
      var k := WhichCall(calls, root, s);
      ParentIsNearestSpan(calls, k, root);
    }
    forall i, j, m, n | 0 <= i < j < |spans| && 0 <= m < |calls| && 0 <= n < |calls|
                        && calls[m].id == spans[i].id && calls[n].id == spans[j].id
      ensures m < n
    {
      SpansInOrder(calls, 0, root, i, j, m, n);
    }
  }

  // ----- ancestry -----

  ghost predicate Link(spans: seq<Span>, child: Id, parent: Id) {
    Span(child, parent) in spans
  }

  /** `path` climbs from its first id to its last along parent links of emitted spans. */
  ghost predicate Climbs(spans: seq<Span>, path: seq<Id>)
    decreases |path|
  {
    |path| >= 2 && Link(spans, path[0], path[1]) && (|path| > 2 ==> Climbs(spans, path[1..]))
  }

  /** The span with id `low` lies below the one with id `high`. */
  ghost predicate SpanAncestor(spans: seq<Span>, low: Id, high: Id) {
    exists path :: Climbs(spans, path) && path[0] == low && path[|path| - 1] == high
  }

  /** A link out of an emitted call leads to its nearest significant ancestor or the root. */
  lemma LinkIsNearest(calls: seq<Call>, root: Id, k: nat, parent: Id) returns (m: Option<nat>)
    requires Ordered(calls) && k < |calls| && Link(Emit(calls, root), calls[k].id, parent)
    ensures m.None? ==> parent == root
    ensures m.Some? ==> m.value < |calls| && parent == calls[m.value].id && m.value in Ancestors(calls, k)
  {
    hide Ordered, Emitted, Ancestors, Nearest, ParentSpanId, Emit;
    var s := Span(calls[k].id, parent);
    var k' := WhichCall(calls, root, s);
    SamePosition(calls, k, k');
    m := ParentIsNearest(calls, k, root);
    if m.Some? {
      NearestIsAncestor(calls, k, m.value);
    }
  }

  lemma {:induction false} IdListed(calls: seq<Call>, k: nat)
    requires k < |calls|
    ensures calls[k].id in Ids(calls)
  {
    assert Ids(calls)[k] == calls[k].id;
  }

  lemma {:induction false} NoLinkFromRoot(calls: seq<Call>, root: Id, parent: Id)
    requires Ordered(calls) && root !in Ids(calls)
    ensures !Link(Emit(calls, root), root, parent)
  {
    hide Ordered, Emitted, ParentSpanId, Emit;
    if Link(Emit(calls, root), root, parent) {
      var k := WhichCall(calls, root, Span(root, parent));
      IdListed(calls, k);
    }
  }

  lemma {:induction false} ClimbIsAncestry(calls: seq<Call>, root: Id, b: nat, a: nat, path: seq<Id>)
    requires Ordered(calls) && a < |calls| && b < |calls| && root !in Ids(calls)
    requires Climbs(Emit(calls, root), path) && path[0] == calls[b].id && path[|path| - 1] == calls[a].id
    ensures a in Ancestors(calls, b)
    decreases |path|
  {
    hide Ordered, Ancestors, Emit;
    var m := LinkIsNearest(calls, root, b, path[1]);
    if |path| == 2 {
      assert Ids(calls)[a] == calls[a].id;
      SamePosition(calls, a, m.value);
    } else {
      NoLinkFromRoot(calls, root, path[2]);
      assert path[1..][|path| - 2] == path[|path| - 1];
      ClimbIsAncestry(calls, root, m.value, a, path[1..]);
      AncestorsTransitive(calls, a, m.value, b);
    }
  }

  lemma {:induction false} AncestryClimbs(calls: seq<Call>, root: Id, b: nat, a: nat) returns (path: seq<Id>)
    requires Ordered(calls) && TimesOk(calls) && b < |calls| && Significant(calls[b])
    requires a in Ancestors(calls, b) && Significant(calls[a])
    ensures Climbs(Emit(calls, root), path) && path[0] == calls[b].id && path[|path| - 1] == calls[a].id
    decreases |calls| - b
  {
    hide Ordered, Significant, Ancestors, Nearest, ParentSpanId, Emit;
    var m := FartherAncestor(calls, root, b, a);
    var s := Span(calls[b].id, calls[m].id);
    IsEmitted(calls, b, root, s);
    if a == m {
      path := [calls[b].id, calls[a].id];
    } else {
      var rest := AncestryClimbs(calls, root, m, a);
      path := [calls[b].id] + rest;
      assert path[1..] == rest;
    }
  }

  /** If call `k` has a significant ancestor, the parent search finds one, and every other
      significant ancestor of `k` is an ancestor of the one found. */
  lemma {:induction false} FartherAncestor(calls: seq<Call>, root: Id, k: nat, a: nat) returns (m: nat)
    requires Ordered(calls) && k < |calls| && a in Ancestors(calls, k) && Significant(calls[a])
    ensures k < m < |calls| && Significant(calls[m]) && ParentSpanId(calls, k, root) == calls[m].id
    ensures a == m || a in Ancestors(calls, m)
    decreases |calls| - k
  {
    hide Ordered, Significant, ParentOf;
    var p := ParentOf(calls, k).value;
    AncestorsStep(calls, k, p);
    if Significant(calls[p]) {
      m := p;
    } else {
      m := FartherAncestor(calls, root, p, a);
    }
  }

  /** One emitted span is an ancestor of another in the span tree exactly when its call
      is an ancestor of the other's call in the call tree. */
  lemma {:induction false} ContractionPreservesAncestry(calls: seq<Call>, root: Id, a: nat, b: nat)
    requires Ordered(calls) && TimesOk(calls) && root !in Ids(calls)
    requires a < |calls| && b < |calls| && Significant(calls[a]) && Significant(calls[b])
    ensures a in Ancestors(calls, b) <==> SpanAncestor(Emit(calls, root), calls[b].id, calls[a].id)
  {
    hide Ordered, TimesOk, Significant, Ancestors, Emit;
    if a in Ancestors(calls, b) {
      var path := AncestryClimbs(calls, root, b, a);
    }
    if SpanAncestor(Emit(calls, root), calls[b].id, calls[a].id) {
      var path :| Climbs(Emit(calls, root), path) && path[0] == calls[b].id && path[|path| - 1] == calls[a].id;
      ClimbIsAncestry(calls, root, b, a, path);
    }
  }
}
