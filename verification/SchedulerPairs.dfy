/** For which pairs of tests with a common key the scheduler's promise to keep the original
    order holds: exactly when neither conflicts with `all`, the earlier test has that
    key only and the later one lists it first. Every other pair is overtaken in some run. */
module SchedulerPairs {
  import opened Seqs
  import opened SchedulerSpec
  import opened SchedulerSafety

  predicate IsEither(t: Test, b: Test, c: Test) { t == b || t == c }

  function Either(b: Test, c: Test): Test -> bool { t => IsEither(t, b, c) }

  /** Of the two tests, the first one sent is `b`. */
  ghost predicate FirstSent(s: State, b: Test, c: Test) {
    var sent := Filter(s.dispatched, Either(b, c));
    sent == [] || sent[0] == b
  }

  /** `b` stands before `c`, each of them once. */
  ghost predicate Before(tests: seq<Test>, b: Test, c: Test) {
    Filter(tests, Either(b, c)) == [b, c]
  }

  /** A list names each file once, so that a file has one list of conflict keys. */
  ghost predicate DistinctFiles(tests: seq<Test>) {
    forall i, j :: 0 <= i < j < |tests| ==> tests[i].file != tests[j].file
  }

  /** The lists and settings the coordinator can be given when it does not shuffle. */
  ghost predicate Unshuffled(cfg: Config, tests: seq<Test>) {
    !cfg.shuffle && cfg.totalFileCount == |Filter(tests, NotNeedsAll)| && DistinctFiles(tests)
  }

  /** In every test list with `b` before `c`, for every number of workers that makes the
      runner use this scheduler and over every run, `c` is never sent before `b`. */
  ghost predicate NeverOvertaken(b: Test, c: Test, valgrind: bool) {
    forall cfg, tests, requested, pending, run, s ::
      Reached(cfg, tests, requested, pending, run, s) && Unshuffled(cfg, tests) && Before(tests, b, c)
      && cfg.valgrind == valgrind && requested >= 2
      ==> FirstSent(s, b, c)
  }

  predicate OnlyHas(t: Test, k: Key) { forall x :: x in t.conflicts ==> x == k }

  // ----- the pairs whose order is kept -----

  /** `b` has no key but `k`, and `c` lists `k` first. */
  predicate Aligned(b: Test, c: Test, k: Key) {
    && b.conflicts != [] && OnlyHas(b, k)
    && c.conflicts != [] && c.conflicts[0] == k
  }

  /** The two tests in the order they will be met: behind `k` first, then on the stack. */
  ghost function Line(k: Key, b: Test, c: Test, waiting: map<Key, seq<Test>>, pending: seq<Test>): seq<Test> {
    Filter(Get(waiting, k), Either(b, c)) + Filter(Reverse(pending), Either(b, c))
  }

  /** Neither test waits behind another key. */
  ghost predicate NowhereElse(k: Key, b: Test, c: Test, waiting: map<Key, seq<Test>>) {
    forall z, t :: z in waiting && z != k && t in waiting[z] ==> !IsEither(t, b, c)
  }

  ghost predicate Lined(k: Key, b: Test, c: Test, waiting: map<Key, seq<Test>>, pending: seq<Test>) {
    Line(k, b, c, waiting, pending) == [b, c] && NowhereElse(k, b, c, waiting)
  }

  /** Until one of them is sent they stand in line; the first one sent is `b`. */
  ghost predicate PairInv(k: Key, b: Test, c: Test, s: State) {
    && FirstSent(s, b, c)
    && (Filter(s.dispatched, Either(b, c)) == [] ==> Lined(k, b, c, s.waiting, s.pending))
  }

  lemma UnparkKeepsLine(k: Key, b: Test, c: Test, z: Key, waiting: map<Key, seq<Test>>, pending: seq<Test>)
    requires Lined(k, b, c, waiting, pending)
    ensures Lined(k, b, c, waiting - {z}, pending + Reverse(Get(waiting, z)))
  {
    hide Filter, Reverse;
    var p, parked := Either(b, c), Get(waiting, z);
    FilterReversedConcat(pending, Reverse(parked), p);
    ReverseTwice(parked);
    var stack := Filter(Reverse(pending), p);
    FilterNone([], p);
    if z == k {
      assert Get(waiting - {z}, k) == [];
      assert [] + (Filter(parked, p) + stack) == Filter(parked, p) + stack;
    } else {
      FilterNone(parked, p);
      assert [] + stack == stack;
      assert Get(waiting - {z}, k) == Get(waiting, k);
    }
  }

  lemma {:induction false} ReleaseKeepsLine(k: Key, b: Test, c: Test, order: seq<Key>, w: Worker,
        owners: map<Key, Worker>, waiting: map<Key, seq<Test>>, pending: seq<Test>)
    requires Lined(k, b, c, waiting, pending)
    ensures var r := Release(order, w, owners, waiting, pending);
            Lined(k, b, c, r.waiting, r.pending)
    decreases |order|
  {
    hide Lined;
    if order != [] {
      var z := order[0];
      if z in owners && owners[z] == w {
        UnparkKeepsLine(k, b, c, z, waiting, pending);
        ReleaseKeepsLine(k, b, c, order[1..], w, owners - {z}, waiting - {z}, pending + Reverse(Get(waiting, z)));
      } else {
        ReleaseKeepsLine(k, b, c, order[1..], w, owners, waiting, pending);
      }
    }
  }

  /** Taking another test off the stack changes nothing. */
  lemma PopOther(k: Key, b: Test, c: Test, waiting: map<Key, seq<Test>>, pending: seq<Test>)
    requires Lined(k, b, c, waiting, pending) && pending != [] && !IsEither(pending[|pending| - 1], b, c)
    ensures Lined(k, b, c, waiting, pending[..|pending| - 1])
  {
    hide Filter, Reverse;
    FilterPop(pending, Either(b, c));
  }

  /** Parking another test changes nothing either. */
  lemma ParkOther(k: Key, b: Test, c: Test, waiting: map<Key, seq<Test>>, pending: seq<Test>, z: Key, x: Test)
    requires Lined(k, b, c, waiting, pending) && !IsEither(x, b, c)
    ensures Lined(k, b, c, waiting[z := Get(waiting, z) + [x]], pending)
  {
    hide Filter, Reverse;
    FilterSnoc(Get(waiting, z), x, Either(b, c));
  }

  /** One of the two on top of the stack moves to the end of those behind `k`. */
  lemma ParkPair(k: Key, b: Test, c: Test, waiting: map<Key, seq<Test>>, pending: seq<Test>)
    requires Lined(k, b, c, waiting, pending) && pending != [] && IsEither(pending[|pending| - 1], b, c)
    ensures Lined(k, b, c, waiting[k := Get(waiting, k) + [pending[|pending| - 1]]], pending[..|pending| - 1])
  {
    hide Filter, Reverse;
    var x, p := pending[|pending| - 1], Either(b, c);
    FilterPop(pending, p);
    FilterSnoc(Get(waiting, k), x, p);
    var parked, below := Filter(Get(waiting, k), p), Filter(Reverse(pending[..|pending| - 1]), p);
    assert (parked + [x]) + below == parked + ([x] + below);
  }

  lemma NotFirst(front: seq<Test>, rest: seq<Test>, b: Test, c: Test)
    requires b != c && front + ([c] + rest) == [b, c]
    ensures front != []
  {
    assert (front + ([c] + rest))[|front|] == c;
  }

  /** Whichever of the two is on top of the stack: if it is `c`, then `b` waits behind `k`. */
  lemma TopOfPair(k: Key, b: Test, c: Test, waiting: map<Key, seq<Test>>, pending: seq<Test>)
    requires b != c && Lined(k, b, c, waiting, pending) && pending != [] && pending[|pending| - 1] == c
    ensures k in waiting
  {
    hide Filter, Reverse;
    FilterPop(pending, Either(b, c));
    FilterNone([], Either(b, c));
    NotFirst(Filter(Get(waiting, k), Either(b, c)), Filter(Reverse(pending[..|pending| - 1]), Either(b, c)), b, c);
  }

  lemma {:induction false} TakeExtends(pending: seq<Test>, waiting: map<Key, seq<Test>>, owners: map<Key, Worker>,
        files: seq<Test>, batchSize: nat)
    ensures files <= Take(pending, waiting, owners, files, batchSize).files
    decreases |pending|
  {
    hide FirstActive;
    if |files| <= batchSize && pending != [] {
      var x, rest := pending[|pending| - 1], pending[..|pending| - 1];
      match FirstActive(x.conflicts, owners) {
        case Some(z) => TakeExtends(rest, waiting[z := Get(waiting, z) + [x]], owners, files, batchSize);
        case None => TakeExtends(rest, waiting, owners, files + [x], batchSize);
      }
    }
  }

  lemma {:induction false} FilterFirst(sent: seq<Test>, more: seq<Test>, p: Test -> bool)
    requires sent <= more && Filter(sent, p) != []
    ensures Filter(more, p) != [] && Filter(more, p)[0] == Filter(sent, p)[0]
  {
    hide Filter;
    assert more == sent + more[|sent|..];
    FilterConcat(sent, more[|sent|..], p);
  }

  /** What a collected batch can do to the line: nothing, or take `b` first. */
  ghost predicate TakenFrom(k: Key, b: Test, c: Test, r: Taken) {
    var got := Filter(r.files, Either(b, c));
    if got == [] then Lined(k, b, c, r.waiting, r.pending) else got[0] == b
  }

  lemma {:induction false} TakeKeepsLine(k: Key, b: Test, c: Test, pending: seq<Test>, waiting: map<Key, seq<Test>>,
        owners: map<Key, Worker>, files: seq<Test>, batchSize: nat)
    requires b != c && Aligned(b, c, k) && waiting.Keys <= owners.Keys
    requires Lined(k, b, c, waiting, pending) && Filter(files, Either(b, c)) == []
    ensures TakenFrom(k, b, c, Take(pending, waiting, owners, files, batchSize))
    decreases |pending|
  {
    hide Filter, Lined, FirstActive;
    if |files| <= batchSize && pending != [] {
      var x, rest := pending[|pending| - 1], pending[..|pending| - 1];
      FilterSnoc(files, x, Either(b, c));
      match FirstActive(x.conflicts, owners) {
        case Some(z) =>
          if IsEither(x, b, c) {
            ActiveIsK(k, b, c, waiting, pending, owners);
            ParkPair(k, b, c, waiting, pending);
          } else {
            PopOther(k, b, c, waiting, pending);
            ParkOther(k, b, c, waiting, rest, z, x);
          }
          TakeKeepsLine(k, b, c, rest, waiting[z := Get(waiting, z) + [x]], owners, files, batchSize);
        case None =>
          if IsEither(x, b, c) {
            ActiveIsK(k, b, c, waiting, pending, owners);
            TakeExtends(rest, waiting, owners, files + [x], batchSize);
            FilterFirst(files + [x], Take(rest, waiting, owners, files + [x], batchSize).files, Either(b, c));
          } else {
            PopOther(k, b, c, waiting, pending);
            TakeKeepsLine(k, b, c, rest, waiting, owners, files + [x], batchSize);
          }
      }
    }
  }

  /** If one of the two on top is blocked, it is blocked by `k`; if it is not, it is `b`. */
  lemma {:induction false} ActiveIsK(k: Key, b: Test, c: Test, waiting: map<Key, seq<Test>>, pending: seq<Test>,
        owners: map<Key, Worker>)
    requires b != c && Aligned(b, c, k) && waiting.Keys <= owners.Keys && Lined(k, b, c, waiting, pending)
    requires pending != [] && IsEither(pending[|pending| - 1], b, c)
    ensures var x := pending[|pending| - 1];
            match FirstActive(x.conflicts, owners) case Some(z) => z == k case None => x == b
  {
    hide Lined;
    var x := pending[|pending| - 1];
    if x == c {
      TopOfPair(k, b, c, waiting, pending);
      assert k in waiting.Keys;
    }
  }

  lemma MergeKeepsPair(n: nat, k: Key, b: Test, c: Test, s: State)
    requires Inv(n, s) && NotNeedsAll(b) && NotNeedsAll(c) && PairInv(k, b, c, s)
    ensures PairInv(k, b, c, Merge(s))
  {
    hide Filter, Reverse;
    FilterNone(s.sequential, Either(b, c));
    FilterReverse(s.sequential, Either(b, c));
    FilterReversedConcat(s.pending, s.sequential, Either(b, c));
    var stack := Filter(Reverse(s.pending), Either(b, c));
    assert Reverse<Test>([]) == [] && [] + stack == stack;
  }

  lemma ChoiceKeepsPair(k: Key, b: Test, c: Test, cfg: Config, m: State, w: Worker)
    requires b != c && Aligned(b, c, k) && m.waiting.Keys <= m.owners.Keys && m.workers != {} && PairInv(k, b, c, m)
    ensures var t := Choose(cfg, m);
            PairInv(k, b, c, if t.files != [] then Dispatch(m, w, t) else Retire(m, w, t))
  {
    hide Filter, Lined, Take, OwnBatch;
    var t, p := Choose(cfg, m), Either(b, c);
    FilterConcat(m.dispatched, t.files, p);
    FilterNone([], p);
    if Filter(m.dispatched, p) == [] {
      TakeKeepsLine(k, b, c, m.pending, m.waiting, m.owners, [], BatchSize(cfg, |m.workers|));
      assert [] + Filter(t.files, p) == Filter(t.files, p);
    }
  }

  lemma StepKeepsPair(n: nat, k: Key, b: Test, c: Test, cfg: Config, s: State, w: Worker)
    requires Inv(n, s) && w in s.workers && b != c && Aligned(b, c, k) && NotNeedsAll(b) && NotNeedsAll(c)
    requires PairInv(k, b, c, s)
    ensures PairInv(k, b, c, Step(cfg, s, w))
  {
    hide Filter, Lined, Release, Choose;
    var s' := s;
    if w in s.running {
      s' := Finish(s, w);
      FinishKeepsInv(n, s, w);
      if Filter(s.dispatched, Either(b, c)) == [] {
        ReleaseKeepsLine(k, b, c, s.order, w, s.owners, s.waiting, s.pending);
      }
    }
    MergeKeepsPair(n, k, b, c, s');
    MergeKeepsInv(n, s', w);
    ChoiceKeepsPair(k, b, c, cfg, Merge(s'), w);
  }

  lemma {:induction false} RunKeepsPair(n: nat, k: Key, b: Test, c: Test, cfg: Config, s: State, run: seq<Worker>)
    requires Inv(n, s) && ValidRun(cfg, s, run) && b != c && Aligned(b, c, k) && NotNeedsAll(b) && NotNeedsAll(c)
    requires PairInv(k, b, c, s)
    ensures PairInv(k, b, c, Final(cfg, s, run))
    decreases |run|
  {
    hide Inv, PairInv, Aligned, Step;
    if run != [] {
      StepKeepsInv(n, cfg, s, run[0]);
      StepKeepsPair(n, k, b, c, cfg, s, run[0]);
      RunKeepsPair(n, k, b, c, cfg, Step(cfg, s, run[0]), run[1..]);
    }
  }

  lemma {:induction false} FilterWithin(tests: seq<Test>, b: Test, c: Test)
    requires NotNeedsAll(b) && NotNeedsAll(c)
    ensures Filter(Filter(tests, NotNeedsAll), Either(b, c)) == Filter(tests, Either(b, c))
  {
    if tests != [] {
      FilterWithin(tests[1..], b, c);
      FilterConcat([tests[0]], Filter(tests[1..], NotNeedsAll), Either(b, c));
    }
  }

  lemma InitLined(k: Key, b: Test, c: Test, tests: seq<Test>, requested: int, pending: seq<Test>)
    requires Before(tests, b, c) && NotNeedsAll(b) && NotNeedsAll(c) && InitialOrder(false, tests, pending)
    ensures PairInv(k, b, c, Init(tests, requested, pending))
  {
    hide Filter, Reverse;
    FilterWithin(tests, b, c);
    ReverseTwice(Filter(tests, NotNeedsAll));
    FilterNone([], Either(b, c));
    assert [] + [b, c] == [b, c];
  }

  lemma AlignedIsKept(b: Test, c: Test, k: Key, valgrind: bool)
    requires b != c && Aligned(b, c, k) && NotNeedsAll(b) && NotNeedsAll(c)
    ensures NeverOvertaken(b, c, valgrind)
  {
    forall cfg, tests, requested, pending, run, s
      | Reached(cfg, tests, requested, pending, run, s) && Unshuffled(cfg, tests) && Before(tests, b, c)
        && cfg.valgrind == valgrind && requested >= 2
      ensures FirstSent(s, b, c)
    {
      hide Aligned, Inv, FirstSent, Final, ValidRun;
      InitLined(k, b, c, tests, requested, pending);
      InitKeepsInv(cfg.shuffle, tests, requested, pending);
      RunKeepsPair(Workers(tests, requested), k, b, c, cfg, Init(tests, requested, pending), run);
    }
  }
}
