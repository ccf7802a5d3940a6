/** For which tests every run keeps the promise that those which conflict with `all` come at
    the end: exactly when no two of the others share a key. */
module SchedulerAtEnd {
  import opened Seqs
  import opened SchedulerSpec
  import opened SchedulerSafety
  import opened SchedulerPairs
  import opened SchedulerOvertaking
  import opened SchedulerBatches

  predicate Share(t: Test, u: Test) { exists k :: k in t.conflicts && k in u.conflicts }

  /** No two of the tests that can run beside others share a key. */
  ghost predicate Apart(tests: seq<Test>) {
    && DistinctFiles(tests)
    && forall t, u :: t in tests && u in tests && NotNeedsAll(t) && NotNeedsAll(u) && Share(t, u) ==> t == u
  }

  // ----- tests that share no keys -----

  ghost predicate NoneShared(stack: seq<Test>) {
    forall i, j :: 0 <= i < j < |stack| ==> !Share(stack[i], stack[j])
  }

  /** The stack has only been popped, and what was popped is no longer waited for. */
  ghost predicate Popping(p0: seq<Test>, s: State) {
    && s.waiting == map[]
    && |s.pending| <= |p0| && s.pending == p0[..|s.pending|]
    && forall w, t :: w in s.running && t in s.running[w] ==> t in p0[|s.pending|..]
  }

  /** Nobody is blocked: active keys belong to tests popped earlier. */
  lemma AllFree(n: nat, p0: seq<Test>, s: State)
    requires Inv(n, s) && Popping(p0, s) && NoneShared(p0)
    ensures forall t :: t in s.pending ==> IsFree(t, s.owners)
  {
    hide Inv;
    forall t, w, u, k | t in s.pending && w in s.running && u in s.running[w] && k in t.conflicts
      ensures k !in u.conflicts
    {
      AboveAndBelow(p0, |s.pending|, t, u, k);
    }
    forall t | t in s.pending
      ensures IsFree(t, s.owners)
    {
      var r := FirstActive(t.conflicts, s.owners);
      if r.Some? {
        var _ := Holder(n, s, r.value);
      }
    }
  }

  /** Whoever's key is active is running. */
  lemma Holder(n: nat, s: State, k: Key) returns (u: Test)
    requires Inv(n, s) && k in s.owners
    ensures s.owners[k] in s.running && u in s.running[s.owners[k]] && k in u.conflicts
  {
    u :| u in s.running[s.owners[k]] && k in u.conflicts;
  }

  lemma AboveAndBelow(stack: seq<Test>, m: nat, t: Test, u: Test, k: Key)
    requires NoneShared(stack) && m <= |stack| && t in stack[..m] && u in stack[m..] && k in t.conflicts
    ensures k !in u.conflicts
  {
    var i :| 0 <= i < m && stack[..m][i] == t;
    var j :| 0 <= j < |stack| - m && stack[m..][j] == u;
    assert stack[i] == t && stack[m + j] == u;
    assert !Share(stack[i], stack[m + j]);
  }

  lemma IdlePops(n: nat, p0: seq<Test>, s: State, w: Worker)
    requires Inv(n, s) && Popping(p0, s)
    ensures var i := Idle(s, w);
            && Inv(n, i) && Popping(p0, i) && i.pending == s.pending && i.workers == s.workers && w !in i.running
            && i.dispatched == s.dispatched && i.sequential == s.sequential
  {
    hide Release, Inv;
    if w in s.running {
      ReleaseNothing(s.order, w, s.owners, s.pending);
      FinishKeepsInv(n, s, w);
    }
  }

  /** A message that does not put the deferred tests on the stack. */
  lemma PopStep(n: nat, cfg: Config, p0: seq<Test>, s: State, w: Worker)
    requires Inv(n, s) && w in s.workers && Popping(p0, s) && NoneShared(p0)
    requires |s.workers| != 1 || s.sequential == []
    ensures var s' := Step(cfg, s, w);
            && Popping(p0, s') && |s'.pending| <= |s.pending| && s.dispatched <= s'.dispatched
            && (forall t :: t in s'.dispatched ==> t in s.dispatched || t in s.pending)
            && (|s'.workers| < |s.workers| || s.pending == [] ==> s'.pending == [])
            && |s'.workers| <= |s.workers|
  {
    hide Take, OwnBatch, Release, Inv, Popping, Choose, IsFree, Reverse, BatchSize;
    IdlePops(n, p0, s, w);
    var i := Idle(s, w);
    AllFree(n, p0, i);
    var t := PopTake(cfg, p0, i);
    assert Merge(i) == i;
    if t.files != [] {
      SentPops(p0, i, w, t);
    } else {
      RetiredPops(p0, i, w, t);
    }
  }

  /** What is taken comes off the stack. */
  lemma PopTake(cfg: Config, p0: seq<Test>, s: State) returns (t: Taken)
    requires s.workers != {} && Popping(p0, s) && forall x :: x in s.pending ==> IsFree(x, s.owners)
    ensures t == Choose(cfg, s) && t.waiting == s.waiting && (t.files == [] ==> s.pending == [])
    ensures |t.pending| <= |s.pending| && t.pending == p0[..|t.pending|]
    ensures forall x :: x in t.files ==> x in p0[|t.pending|..] && x in s.pending
  {
    hide Take, IsFree, Reverse;
    TakeFree(s.pending, s.waiting, s.owners, [], BatchSize(cfg, |s.workers|));
    t := Choose(cfg, s);
    assert p0[..|s.pending|][..|t.pending|] == p0[..|t.pending|];
    assert p0[|t.pending|..] == s.pending[|t.pending|..] + p0[|s.pending|..];
  }

  lemma Deeper(p0: seq<Test>, m: nat, n: nat)
    requires m <= n <= |p0|
    ensures forall t :: t in p0[n..] ==> t in p0[m..]
  {
    assert p0[m..] == p0[m..n] + p0[n..];
  }

  lemma SentPops(p0: seq<Test>, s: State, w: Worker, t: Taken)
    requires Popping(p0, s) && t.waiting == s.waiting && |t.pending| <= |s.pending| && t.pending == p0[..|t.pending|]
    requires forall x :: x in t.files ==> x in p0[|t.pending|..]
    ensures Popping(p0, Dispatch(s, w, t))
  {
    hide OwnBatch;
    Deeper(p0, |t.pending|, |s.pending|);
  }

  lemma RetiredPops(p0: seq<Test>, s: State, w: Worker, t: Taken)
    requires Popping(p0, s) && t.waiting == s.waiting && |t.pending| <= |s.pending| && t.pending == p0[..|t.pending|]
    ensures Popping(p0, Retire(s, w, t))
  {
    Deeper(p0, |t.pending|, |s.pending|);
  }

  // ----- every run -----

  /** No deferred test has been sent, and the stack is empty once a worker is gone. */
  ghost predicate OthersFirst(n: nat, p0: seq<Test>, s: State) {
    Popping(p0, s) && (forall t :: t in s.dispatched ==> NotNeedsAll(t)) && (|s.workers| < n ==> s.pending == [])
  }

  /** Nothing but deferred tests is left. */
  ghost predicate OnlyDeferredLeft(s: State) {
    |s.workers| <= 1 && s.sequential == [] && s.waiting == map[] && forall t :: t in s.pending ==> NeedsAll(t)
  }

  ghost predicate Orderly(n: nat, p0: seq<Test>, s: State) {
    AllAtEnd(s.dispatched) && (OthersFirst(n, p0, s) || OnlyDeferredLeft(s))
  }

  /** The only worker takes deferred tests. */
  lemma EndStep(n: nat, cfg: Config, s: State, w: Worker)
    requires Inv(n, s) && s.workers == {w} && AllAtEnd(s.dispatched)
    requires forall t :: t in Offered(s, w).pending ==> NeedsAll(t)
    ensures AllAtEnd(Step(cfg, s, w).dispatched) && OnlyDeferredLeft(Step(cfg, s, w))
  {
    hide Inv, Step, Offered, Reverse;
    SoloStep(n, cfg, s, w);
    var s', back := Step(cfg, s, w), Reverse(Offered(s, w).pending);
    ReverseMembers(Offered(s, w).pending);
    ReverseMembers(s'.pending);
    var all := s.dispatched + back;
    assert all == s'.dispatched + Reverse(s'.pending);
    assert AllAtEnd(all);
    assert forall i :: 0 <= i < |s'.dispatched| ==> s'.dispatched[i] == all[i];
    forall t | t in s'.pending
      ensures NeedsAll(t)
    {
      var i :| 0 <= i < |s'.pending| && Reverse(s'.pending)[i] == t;
      assert all[|s'.dispatched| + i] == t;
      assert t in back;
    }
    assert s'.workers == {} || s'.workers == {w};
  }

  lemma StepOrderly(n: nat, cfg: Config, p0: seq<Test>, s: State, w: Worker)
    requires Inv(n, s) && w in s.workers && n >= 2 && NoneShared(p0) && (forall t :: t in p0 ==> NotNeedsAll(t))
    requires Orderly(n, p0, s) && |s.workers| <= n
    ensures Orderly(n, p0, Step(cfg, s, w)) && |Step(cfg, s, w).workers| <= n
  {
    hide Step, Offered, Popping, NoneShared, Release, Inv;
    if |s.workers| == 1 && (s.sequential != [] || !OthersFirst(n, p0, s)) {
      OnlyOne(s.workers, w);
      EndOffered(n, p0, s, w);
      EndStep(n, cfg, s, w);
    } else {
      assert s.workers != {};
      PoppedMembers(p0, s);
      PopStep(n, cfg, p0, s, w);
      var s' := Step(cfg, s, w);
      assert forall t :: t in s'.dispatched ==> NotNeedsAll(t);
      OrdinaryFirst(s'.dispatched);
    }
  }

  lemma OrdinaryFirst(sent: seq<Test>)
    requires forall t :: t in sent ==> NotNeedsAll(t)
    ensures AllAtEnd(sent)
  {
    assert forall i :: 0 <= i < |sent| ==> sent[i] in sent;
  }

  lemma PoppedMembers(p0: seq<Test>, s: State)
    requires Popping(p0, s)
    ensures forall t :: t in s.pending ==> t in p0
  {
  }

  lemma EndOffered(n: nat, p0: seq<Test>, s: State, w: Worker)
    requires Inv(n, s) && s.workers == {w} && n >= 2 && Orderly(n, p0, s)
    requires s.sequential != [] || !OthersFirst(n, p0, s)
    ensures forall t :: t in Offered(s, w).pending ==> NeedsAll(t)
  {
    hide Release;
    assert s.waiting == map[];
    if w in s.running {
      ReleaseNothing(s.order, w, s.owners, s.pending);
    }
    assert Idle(s, w).pending == s.pending;
  }

  lemma {:induction false} RunOrderly(n: nat, cfg: Config, p0: seq<Test>, s: State, run: seq<Worker>)
    requires Inv(n, s) && n >= 2 && NoneShared(p0) && (forall t :: t in p0 ==> NotNeedsAll(t))
    requires Orderly(n, p0, s) && |s.workers| <= n && ValidRun(cfg, s, run)
    ensures Orderly(n, p0, Final(cfg, s, run))
    decreases |run|
  {
    hide Step, Inv, Orderly, NoneShared;
    if run != [] {
      StepOrderly(n, cfg, p0, s, run[0]);
      StepKeepsInv(n, cfg, s, run[0]);
      RunOrderly(n, cfg, p0, Step(cfg, s, run[0]), run[1..]);
    }
  }

  // ----- the stack of a list -----

  lemma {:induction false} DistinctCount(tests: seq<Test>, t: Test)
    requires DistinctFiles(tests)
    ensures multiset(tests)[t] <= 1
    decreases |tests|
  {
    if tests != [] {
      var rest := tests[1..];
      assert tests == [tests[0]] + rest;
      assert DistinctFiles(rest) && forall i :: 0 <= i < |rest| ==> rest[i].file != tests[0].file;
      DistinctCount(rest, t);
      assert t in rest <==> t in multiset(rest);
    }
  }

  lemma TwiceCount(s: seq<Test>, i: nat, j: nat)
    requires i < j < |s| && s[i] == s[j]
    ensures multiset(s)[s[i]] >= 2
  {
    var a, b := s[..j], s[j..];
    assert s == a + b && a[i] == s[i] && b[0] == s[j];
    assert s[i] in a && s[i] in b;
  }

  /** The tests on the first stack are the ordinary tests of the list, each once. */
  lemma StackFacts(shuffle: bool, tests: seq<Test>, pending: seq<Test>, t: Test)
    requires InitialOrder(shuffle, tests, pending) && DistinctFiles(tests)
    ensures t in pending ==> t in tests && NotNeedsAll(t)
    ensures multiset(pending)[t] <= 1
  {
    hide DistinctFiles, Filter;
    PartitionCount(tests, t);
    DistinctCount(tests, t);
    FilterHolds(tests);
    ReverseMultiset(Filter(tests, NotNeedsAll));
    assert multiset(pending) == multiset(Filter(tests, NotNeedsAll));
    assert t in pending <==> t in multiset(pending);
    assert t in tests <==> t in multiset(tests);
    assert t in Filter(tests, NotNeedsAll) <==> t in multiset(Filter(tests, NotNeedsAll));
  }

  lemma StackApart(shuffle: bool, tests: seq<Test>, pending: seq<Test>)
    requires InitialOrder(shuffle, tests, pending) && Apart(tests)
    ensures NoneShared(pending) && forall t :: t in pending ==> NotNeedsAll(t)
  {
    hide InitialOrder, Share, DistinctFiles;
    forall t | t in pending
      ensures t in tests && NotNeedsAll(t) && multiset(pending)[t] <= 1
    {
      StackFacts(shuffle, tests, pending, t);
    }
    forall i, j | 0 <= i < j < |pending|
      ensures !Share(pending[i], pending[j])
    {
      if Share(pending[i], pending[j]) {
        assert pending[i] in pending && pending[j] in pending;
        TwiceCount(pending, i, j);
      }
    }
  }

  /** If no two ordinary tests share a key and there are at least two workers, the tests
      that conflict with `all` come last in every run, shuffled or not. */
  lemma ApartKeepsPromise(cfg: Config, tests: seq<Test>, requested: int, pending: seq<Test>, run: seq<Worker>, s: State)
    requires Reached(cfg, tests, requested, pending, run, s)
    requires Apart(tests) && Workers(tests, requested) >= 2
    ensures AllAtEnd(s.dispatched)
  {
    hide Inv, Final, ValidRun, InitialOrder, Filter, NoneShared, Apart;
    var n, s0 := Workers(tests, requested), Init(tests, requested, pending);
    InitKeepsInv(cfg.shuffle, tests, requested, pending);
    StackApart(cfg.shuffle, tests, pending);
    assert |s0.workers| == n && pending == pending[..|pending|];
    RunOrderly(n, cfg, pending, s0, run);
  }

  // ----- two tests that share a key -----

  /** The tests of a list that have keys at all, beside the deferred ones, are `b` and `c`. */
  ghost predicate OnlyKeyed(tests: seq<Test>, b: Test, c: Test) {
    b in tests && c in tests && forall t :: t in tests && NotNeedsAll(t) && t != b && t != c ==> t.conflicts == []
  }

  /** In every list whose tests with keys are these two and any that conflict with `all`, for
      every number of workers that makes the runner use this scheduler and over every run,
      those that conflict with `all` come last. */
  ghost predicate PromiseKept(b: Test, c: Test, valgrind: bool) {
    forall cfg, tests, requested, pending, run, s ::
      Reached(cfg, tests, requested, pending, run, s) && Unshuffled(cfg, tests) && OnlyKeyed(tests, b, c)
      && cfg.valgrind == valgrind && requested >= 2
      ==> AllAtEnd(s.dispatched)
  }

  lemma ApartPair(tests: seq<Test>, b: Test, c: Test)
    requires DistinctFiles(tests) && OnlyKeyed(tests, b, c) && !Share(b, c)
    ensures Apart(tests)
  {
    hide DistinctFiles;
    ShareBothWays(b, c);
  }

  lemma ShareBothWays(b: Test, c: Test)
    ensures Share(b, c) <==> Share(c, b)
  {
  }

  lemma {:induction false} TwoOrdinary(tests: seq<Test>, b: Test, c: Test)
    requires b in tests && c in tests && b != c && NotNeedsAll(b) && NotNeedsAll(c)
    ensures |Filter(tests, NotNeedsAll)| >= 2
  {
    var f := Filter(tests, NotNeedsAll);
    InFilter(tests, b);
    InFilter(tests, c);
    var i :| 0 <= i < |f| && f[i] == b;
    var j :| 0 <= j < |f| && f[j] == c;
  }

  lemma {:induction false} InFilter(tests: seq<Test>, t: Test)
    requires t in tests && NotNeedsAll(t)
    ensures t in Filter(tests, NotNeedsAll)
  {
    if tests[0] != t {
      assert t in tests[1..];
      InFilter(tests[1..], t);
    }
  }

  lemma DisjointKeepsPromise(b: Test, c: Test, valgrind: bool)
    requires b != c && NotNeedsAll(b) && NotNeedsAll(c) && !Share(b, c)
    ensures PromiseKept(b, c, valgrind)
  {
    forall cfg, tests, requested, pending, run, s
      | Reached(cfg, tests, requested, pending, run, s) && Unshuffled(cfg, tests) && OnlyKeyed(tests, b, c)
        && cfg.valgrind == valgrind && requested >= 2
      ensures AllAtEnd(s.dispatched)
    {
      hide Reached, Share, DistinctFiles, Filter;
      ApartPair(tests, b, c);
      TwoOrdinary(tests, b, c);
      ApartKeepsPromise(cfg, tests, requested, pending, run, s);
    }
  }

  /** The list of the run that breaks the promise. */
  lemma Given(b: Test, c: Test, x: Test, a: Test, cfg: Config)
    requires NotNeedsAll(b) && NotNeedsAll(c) && x.conflicts == [] && NeedsAll(a)
    requires DistinctFiles([b, x, c, a]) && cfg.totalFileCount == 3 && !cfg.shuffle
    ensures Filter([b, x, c, a], NeedsAll) == [a] && |Filter([b, x, c, a], NotNeedsAll)| == 3
    ensures InitialOrder(false, [b, x, c, a], [c, x, b]) && Unshuffled(cfg, [b, x, c, a])
    ensures OnlyKeyed([b, x, c, a], b, c)
  {
    hide Filter, DistinctFiles, Reverse;
    assert [b, x, c, a] == [b] + [x, c, a];
    FilterPair(b, [x, c, a], NeedsAll);
    FilterThree(x, c, a, NeedsAll);
    FilterPair(b, [x, c, a], NotNeedsAll);
    FilterThree(x, c, a, NotNeedsAll);
    assert [b] + [x, c] == [b, x, c];
    ReverseThree(b, x, c);
  }

  lemma ReverseThree(b: Test, x: Test, c: Test)
    ensures Reverse([b, x, c]) == [c, x, b]
  {
    hide Reverse;
  }

  /** The first message: `b` is sent, with a test without keys. */
  lemma FirstSentAway(cfg: Config, b: Test, c: Test, x: Test, a: Test) returns (s: State)
    requires NotNeedsAll(b) && NotNeedsAll(c) && x.conflicts == [] && NeedsAll(a)
    requires DistinctFiles([b, x, c, a]) && cfg.totalFileCount == 3 && !cfg.shuffle
    ensures Reached(cfg, [b, x, c, a], 3, [c, x, b], [] + [1], s) && Inv(3, s)
    ensures s.pending == [c] && s.sequential == [a] && s.waiting == map[] && s.workers == {1, 2, 3}
    ensures s.running == map[1 := [b, x]] && s.dispatched == [b, x]
  {
    hide Take, Filter, Reached, OwnBatch, FirstActive, InitialOrder, Unshuffled, BatchSize, Inv;
    var tests := [b, x, c, a];
    Given(b, c, x, a, cfg);
    var s0 := Init(tests, 3, [c, x, b]);
    ReachedInit(cfg, tests, 3, [c, x, b]);
    SizeOne(cfg.valgrind, 3);
    Unblocked(b, map[]);
    Unblocked(x, map[]);
    CollectTwo([c], x, b, map[], map[], 1);
    assert [c, x, b] == [c] + [x, b] && [] + [b, x] == [b, x];
    assert |s0.workers| == 3 && cfg == Cfg(cfg.valgrind, 3);
    s := Step(cfg, s0, 1);
    ReachedStep(cfg, tests, 3, [c, x, b], [], s0, 1);
    ReachedInv(cfg, tests, 3, [c, x, b], [] + [1], s);
  }

  lemma ActiveKey(n: nat, s: State, b: Test, c: Test, x: Test) returns (z: Key)
    requires Inv(n, s) && s.running == map[1 := [b, x]] && Share(b, c)
    ensures FirstActive(c.conflicts, s.owners) == Some(z)
  {
    hide Counting, OrderOk, WaitingOk, AllRunsAlone, Drained;
    var k :| k in b.conflicts && k in c.conflicts;
    assert b in s.running[1] && HasKey(s.running[1], k);
    assert k in s.owners;
    hide Inv, HasKey;
    z := FirstActive(c.conflicts, s.owners).value;
  }

  /** Two messages later `c` waits and worker 1 is the only one left. */
  lemma OthersGone(cfg: Config, b: Test, c: Test, x: Test, a: Test) returns (s: State, z: Key)
    requires NotNeedsAll(b) && NotNeedsAll(c) && x.conflicts == [] && NeedsAll(a) && Share(b, c)
    requires DistinctFiles([b, x, c, a]) && cfg.totalFileCount == 3 && !cfg.shuffle
    ensures Reached(cfg, [b, x, c, a], 3, [c, x, b], [] + [1] + [2] + [3], s) && Inv(3, s)
    ensures s.pending == [] && s.sequential == [a] && s.waiting == map[z := [c]] && s.workers == {1}
    ensures 1 in s.running && s.dispatched == [b, x]
  {
    hide Take, Reached, OwnBatch, FirstActive, BatchSize, Inv, Share;
    var tests, pending := [b, x, c, a], [c, x, b];
    var s1 := FirstSentAway(cfg, b, c, x, a);
    z := ActiveKey(3, s1, b, c, x);
    ParkLast(c, map[], s1.owners, BatchSize(cfg, 3), z);
    assert [] + [c] == [c];
    var s2 := Step(cfg, s1, 2);
    ReachedStep(cfg, tests, 3, pending, [] + [1], s1, 2);
    assert s2.workers == {1, 3} && s2.pending == [] && s2.waiting == map[z := [c]];
    Full([], s2.waiting, s2.owners, [], BatchSize(cfg, 2));
    s := Step(cfg, s2, 3);
    ReachedStep(cfg, tests, 3, pending, [] + [1] + [2], s2, 3);
    StepKeepsInv(3, cfg, s1, 2);
    StepKeepsInv(3, cfg, s2, 3);
    assert s.workers == {1};
  }

  /** Giving up all keys brings back the one test that waits. */
  lemma {:induction false} ReleaseOne(order: seq<Key>, w: Worker, owners: map<Key, Worker>, z: Key, t: Test)
    requires z in order && NoDup(order) && forall k :: k in order ==> k in owners && owners[k] == w
    ensures Release(order, w, owners, map[z := [t]], []).pending == [t]
    decreases |order|
  {
    var k, rest := order[0], order[1..];
    assert order == [k] + rest;
    assert k !in rest;
    if k == z {
      assert map[z := [t]] - {k} == map[] && Reverse([t]) == [t] && [] + [t] == [t];
      ReleaseNothing(rest, w, owners - {k}, [t]);
    } else {
      var none: seq<Test> := [];
      assert map[z := [t]] - {k} == map[z := [t]] && none + Reverse(Get(map[z := [t]], k)) == none;
      ReleaseOne(rest, w, owners - {k}, z, t);
    }
  }

  /** When it reports back, `c` comes off its list, and `a` goes on top of it. */
  lemma LastTaken(cfg: Config, s: State, z: Key, c: Test, a: Test)
    requires Inv(3, s) && s.workers == {1} && 1 in s.running && s.pending == []
    requires s.waiting == map[z := [c]] && s.sequential == [a]
    ensures Step(cfg, s, 1).dispatched == s.dispatched + [a, c]
  {
    hide Take, OwnBatch, FirstActive, BatchSize, Release;
    assert z in s.owners && forall k :: k in s.owners ==> s.owners[k] == 1;
    ReleaseOne(s.order, 1, s.owners, z, c);
    SoloIsFree(3, s, 1);
    hide Inv;
    var m := Offered(s, 1);
    assert m.pending == [c] + [a] == [] + [c, a];
    Unblocked(a, map[]);
    Unblocked(c, map[]);
    CollectTwo([], c, a, map[], map[], BatchSize(cfg, 1));
    assert Choose(cfg, m) == Taken([], map[], [a, c]);
  }

  lemma SharingBreaksPromise(b: Test, c: Test, valgrind: bool)
    requires b.file != c.file && NotNeedsAll(b) && NotNeedsAll(c) && Share(b, c)
    ensures !PromiseKept(b, c, valgrind)
  {
    hide Reached, Unshuffled, OnlyKeyed, Step, Inv, DistinctFiles, Share;
    var x, a := Spare(b, c);
    var cfg, tests := Cfg(valgrind, 3), [b, x, c, a];
    Given(b, c, x, a, cfg);
    var s, z := OthersGone(cfg, b, c, x, a);
    LastTaken(cfg, s, z, c, a);
    var run := [] + [1] + [2] + [3];
    ReachedStep(cfg, tests, 3, [c, x, b], run, s, 1);
    var s' := Step(cfg, s, 1);
    assert s'.dispatched[2] == a && s'.dispatched[3] == c;
    assert !AllAtEnd(s'.dispatched);
    assert Reached(cfg, tests, 3, [c, x, b], run + [1], s') && cfg.valgrind == valgrind;
  }

  /** A test without keys and one that conflicts with `all`, of new names. */
  lemma Spare(b: Test, c: Test) returns (x: Test, a: Test)
    requires b.file != c.file
    ensures x.conflicts == [] && NeedsAll(a) && DistinctFiles([b, x, c, a])
  {
    hide Names;
    var used := [b.file, c.file];
    var names := Names(used, 2);
    assert b.file in used && c.file in used;
    x, a := Test(names[0], []), Test(names[1], [ALL]);
  }

  /** For any two ordinary tests, under valgrind and without it: the tests that conflict with
      `all` come last in every run of every list in which only these two have other keys,
      exactly when the two share no key. */
  lemma AtEndIffNoSharedKey(b: Test, c: Test, valgrind: bool)
    requires b.file != c.file && NotNeedsAll(b) && NotNeedsAll(c)
    ensures PromiseKept(b, c, valgrind) <==> !Share(b, c)
  {
    hide PromiseKept, Share;
    if Share(b, c) {
      SharingBreaksPromise(b, c, valgrind);
    } else {
      DisjointKeepsPromise(b, c, valgrind);
    }
  }
}
