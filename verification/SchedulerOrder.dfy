/** In which order the scheduler sends the tests of one conflict key. */
module SchedulerOrder {
  import opened Seqs
  import opened SchedulerSpec
  import opened SchedulerSafety

  /** The test conflicts with key `k` and with no other. */
  predicate SoleKey(t: Test, k: Key) {
    t.conflicts != [] && forall c :: c in t.conflicts ==> c == k
  }

  function OnlyKey(k: Key): Test -> bool { t => SoleKey(t, k) }

  /** The tests of key `k` not yet sent, in the order they will be met: first those
      waiting behind the key, then the stack from its top. */
  ghost function Queue(k: Key, waiting: map<Key, seq<Test>>, pending: seq<Test>): seq<Test> {
    Filter(Get(waiting, k), OnlyKey(k)) + Filter(Reverse(pending), OnlyKey(k))
  }

  /** Sent tests followed by queued ones always spell the original order. */
  ghost predicate InOrder(k: Key, tests: seq<Test>, s: State) {
    Filter(s.dispatched, OnlyKey(k)) + Queue(k, s.waiting, s.pending) == Filter(tests, OnlyKey(k))
  }

  /** Pushing the tests parked behind `c` back on the stack. */
  lemma UnparkKeepsQueue(k: Key, c: Key, waiting: map<Key, seq<Test>>, pending: seq<Test>)
    requires forall t :: t in Get(waiting, c) ==> c in t.conflicts
    ensures Queue(k, waiting - {c}, pending + Reverse(Get(waiting, c))) == Queue(k, waiting, pending)
  {
    var p, parked := OnlyKey(k), Get(waiting, c);
    var stack, stack' := Filter(Reverse(pending), p), Filter(Reverse(pending + Reverse(parked)), p);
    assert stack' == Filter(parked, p) + stack by {
      FilterReversedConcat(pending, Reverse(parked), p);
      ReverseTwice(parked);
    }
    if c == k {
      assert Get(waiting - {c}, k) == [];
      assert [] + stack' == stack';
    } else {
      assert Filter(parked, p) == [] by {
        FilterNone(parked, p);
      }
      assert [] + stack == stack;
      assert Get(waiting - {c}, k) == Get(waiting, k);
    }
  }

  lemma {:induction false} ReleaseKeepsQueue(k: Key, order: seq<Key>, w: Worker, owners: map<Key, Worker>,
        waiting: map<Key, seq<Test>>, pending: seq<Test>)
    requires forall c, t :: c in waiting && t in waiting[c] ==> c in t.conflicts
    ensures var r := Release(order, w, owners, waiting, pending);
            Queue(k, r.waiting, r.pending) == Queue(k, waiting, pending)
    decreases |order|
  {
    if order != [] {
      var c := order[0];
      if c in owners && owners[c] == w {
        ReleaseKeepsQueue(k, order[1..], w, owners - {c}, waiting - {c}, pending + Reverse(Get(waiting, c)));
        UnparkKeepsQueue(k, c, waiting, pending);
      } else {
        ReleaseKeepsQueue(k, order[1..], w, owners, waiting, pending);
      }
    }
  }

  lemma {:induction false} TakeKeepsQueue(k: Key, pending: seq<Test>, waiting: map<Key, seq<Test>>,
        owners: map<Key, Worker>, files: seq<Test>, batchSize: nat)
    requires waiting.Keys <= owners.Keys
    ensures var r := Take(pending, waiting, owners, files, batchSize);
            Filter(r.files, OnlyKey(k)) + Queue(k, r.waiting, r.pending) ==
                     Filter(files, OnlyKey(k)) + Queue(k, waiting, pending)
    decreases |pending|
  {
    hide Filter, Reverse, FirstActive;
    if |files| > batchSize || pending == [] {
    } else {
      var x, rest := pending[|pending| - 1], pending[..|pending| - 1];
      match FirstActive(x.conflicts, owners) {
        case Some(c) =>
          ParkKeepsQueue(k, c, pending, waiting);
          TakeKeepsQueue(k, rest, waiting[c := Get(waiting, c) + [x]], owners, files, batchSize);
        case None =>
          CollectKeepsQueue(k, pending, waiting, owners, files);
          TakeKeepsQueue(k, rest, waiting, owners, files + [x], batchSize);
      }
    }
  }

  /** Parking the top test behind its key `c`. */
  lemma ParkKeepsQueue(k: Key, c: Key, pending: seq<Test>, waiting: map<Key, seq<Test>>)
    requires pending != [] && c in pending[|pending| - 1].conflicts
    ensures var x := pending[|pending| - 1];
            Queue(k, waiting[c := Get(waiting, c) + [x]], pending[..|pending| - 1]) == Queue(k, waiting, pending)
  {
    hide Filter, Reverse;
    var x, p := pending[|pending| - 1], OnlyKey(k);
    FilterPop(pending, p);
    FilterSnoc(Get(waiting, c), x, p);
    var parked, below := Filter(Get(waiting, k), p), Filter(Reverse(pending[..|pending| - 1]), p);
    if SoleKey(x, k) {
      assert (parked + [x]) + below == parked + ([x] + below);
    }
  }

  /** Collecting the top test; if its only key is `k`, nobody can be waiting behind `k`. */
  lemma {:induction false} CollectKeepsQueue(k: Key, pending: seq<Test>, waiting: map<Key, seq<Test>>,
        owners: map<Key, Worker>, files: seq<Test>)
    requires pending != [] && waiting.Keys <= owners.Keys
    requires forall c :: c in pending[|pending| - 1].conflicts ==> c !in owners
    ensures var x, rest := pending[|pending| - 1], pending[..|pending| - 1];
            Filter(files + [x], OnlyKey(k)) + Queue(k, waiting, rest) ==
                     Filter(files, OnlyKey(k)) + Queue(k, waiting, pending)
  {
    hide Filter, Reverse, Get;
    var x, rest, p := pending[|pending| - 1], pending[..|pending| - 1], OnlyKey(k);
    FilterPop(pending, p);
    FilterSnoc(files, x, p);
    if SoleKey(x, k) {
      NobodyBehind(k, x, waiting, owners);
      var f, below := Filter(files, p), Filter(Reverse(rest), p);
      assert (f + [x]) + ([] + below) == f + ([] + ([x] + below));
    }
  }

  lemma NobodyBehind(k: Key, x: Test, waiting: map<Key, seq<Test>>, owners: map<Key, Worker>)
    requires SoleKey(x, k) && waiting.Keys <= owners.Keys && forall c :: c in x.conflicts ==> c !in owners
    ensures Filter(Get(waiting, k), OnlyKey(k)) == []
  {
    assert x.conflicts[0] in x.conflicts;
    assert k !in waiting.Keys;
  }

  lemma MergeKeepsOrder(k: Key, tests: seq<Test>, s: State)
    requires AllRunsAlone(s) && k != ALL && InOrder(k, tests, s)
    ensures InOrder(k, tests, Merge(s))
  {
    hide Filter, Reverse;
    FilterNone(s.sequential, OnlyKey(k));
    FilterReverse(s.sequential, OnlyKey(k));
    FilterReversedConcat(s.pending, s.sequential, OnlyKey(k));
  }

  lemma DispatchKeepsOrder(k: Key, tests: seq<Test>, s: State, w: Worker, c: Taken)
    requires InOrder(k, tests, s)
    requires Filter(c.files, OnlyKey(k)) + Queue(k, c.waiting, c.pending) == Queue(k, s.waiting, s.pending)
    ensures InOrder(k, tests, Dispatch(s, w, c))
  {
    FilterConcat(s.dispatched, c.files, OnlyKey(k));
    var sent, batch, queue := Filter(s.dispatched, OnlyKey(k)), Filter(c.files, OnlyKey(k)),
        Queue(k, c.waiting, c.pending);
    assert (sent + batch) + queue == sent + (batch + queue);
  }

  lemma ScheduleKeepsOrder(n: nat, k: Key, cfg: Config, tests: seq<Test>, s: State, w: Worker)
    requires Inv(n, s) && w in s.workers && w !in s.running
    requires k != ALL && InOrder(k, tests, s)
    ensures InOrder(k, tests, Schedule(cfg, s, w))
  {
    MergeKeepsOrder(k, tests, s);
    MergeKeepsInv(n, s, w);
    ChoiceKeepsOrder(k, cfg, tests, Merge(s), w);
  }

  lemma ChoiceKeepsOrder(k: Key, cfg: Config, tests: seq<Test>, m: State, w: Worker)
    requires w in m.workers && m.waiting.Keys <= m.owners.Keys && InOrder(k, tests, m)
    ensures var c := Choose(cfg, m);
            InOrder(k, tests, if c.files != [] then Dispatch(m, w, c) else Retire(m, w, c))
  {
    var c := Choose(cfg, m);
    TakeKeepsQueue(k, m.pending, m.waiting, m.owners, [], BatchSize(cfg, |m.workers|));
    assert Filter([], OnlyKey(k)) + Queue(k, m.waiting, m.pending) == Queue(k, m.waiting, m.pending);
    if c.files != [] {
      DispatchKeepsOrder(k, tests, m, w, c);
    }
  }

  lemma StepKeepsOrder(n: nat, k: Key, cfg: Config, tests: seq<Test>, s: State, w: Worker)
    requires Inv(n, s) && w in s.workers
    requires k != ALL && InOrder(k, tests, s)
    ensures InOrder(k, tests, Step(cfg, s, w))
  {
    if w in s.running {
      FinishKeepsInv(n, s, w);
      ReleaseKeepsQueue(k, s.order, w, s.owners, s.waiting, s.pending);
      ScheduleKeepsOrder(n, k, cfg, tests, Finish(s, w), w);
    } else {
      ScheduleKeepsOrder(n, k, cfg, tests, s, w);
    }
  }

  lemma {:induction false} RunKeepsOrder(n: nat, k: Key, cfg: Config, tests: seq<Test>, s: State, run: seq<Worker>)
    requires Inv(n, s) && ValidRun(cfg, s, run)
    requires k != ALL && InOrder(k, tests, s)
    ensures InOrder(k, tests, Final(cfg, s, run))
    decreases |run|
  {
    if run != [] {
      StepKeepsInv(n, cfg, s, run[0]);
      StepKeepsOrder(n, k, cfg, tests, s, run[0]);
      RunKeepsOrder(n, k, cfg, tests, Step(cfg, s, run[0]), run[1..]);
    }
  }

  lemma {:induction false} FilterTwice(tests: seq<Test>, k: Key)
    requires k != ALL
    ensures Filter(Filter(tests, NotNeedsAll), OnlyKey(k)) == Filter(tests, OnlyKey(k))
  {
    if tests != [] {
      FilterTwice(tests[1..], k);
      assert SoleKey(tests[0], k) ==> NotNeedsAll(tests[0]);
      FilterConcat([tests[0]], Filter(tests[1..], NotNeedsAll), OnlyKey(k));
    }
  }

  lemma InitInOrder(k: Key, tests: seq<Test>, requested: int, pending: seq<Test>)
    requires k != ALL && InitialOrder(false, tests, pending)
    ensures InOrder(k, tests, Init(tests, requested, pending))
  {
    ReverseTwice(Filter(tests, NotNeedsAll));
    FilterTwice(tests, k);
    hide Filter, Reverse;
    FilterNone([], OnlyKey(k));
  }

  /** Without shuffling, over every interleaving, the tests whose only key is `k` are
      sent in their original order; what was sent so far is always a prefix of it. */
  lemma {:induction false} SoleKeyOrderKept(k: Key, cfg: Config, tests: seq<Test>, requested: int, pending: seq<Test>,
        run: seq<Worker>, s: State)
    requires Reached(cfg, tests, requested, pending, run, s) && !cfg.shuffle && k != ALL
    ensures Filter(s.dispatched, OnlyKey(k)) <= Filter(tests, OnlyKey(k))
    ensures !Busy(s) ==> Filter(s.dispatched, OnlyKey(k)) == Filter(tests, OnlyKey(k))
  {
    hide Filter, Reverse;
    var n, s0 := Workers(tests, requested), Init(tests, requested, pending);
    InitKeepsInv(cfg.shuffle, tests, requested, pending);
    InitInOrder(k, tests, requested, pending);
    RunKeepsOrder(n, k, cfg, tests, s0, run);
    ReachedInv(cfg, tests, requested, pending, run, s);
    if !Busy(s) {
      assert |s.running.Keys| == 0;
      assert Get(s.waiting, k) == [];
      FilterNone(Get(s.waiting, k), OnlyKey(k));
      FilterNone(Reverse(s.pending), OnlyKey(k));
    }
  }

  // ----- the tests that run alone come out backwards -----

  ghost predicate AloneBackwards(tests: seq<Test>, s: State) {
    && Filter(s.dispatched, NeedsAll) + Filter(Reverse(s.pending), NeedsAll) + Reverse(s.sequential)
       == Reverse(Filter(tests, NeedsAll))
    && (s.sequential != [] ==> Filter(Reverse(s.pending), NeedsAll) == [])
  }

  lemma {:induction false} ReleaseKeepsAlone(order: seq<Key>, w: Worker, owners: map<Key, Worker>,
        waiting: map<Key, seq<Test>>, pending: seq<Test>)
    requires forall c, t :: c in waiting && t in waiting[c] ==> !NeedsAll(t)
    ensures Filter(Reverse(Release(order, w, owners, waiting, pending).pending), NeedsAll) ==
              Filter(Reverse(pending), NeedsAll)
    decreases |order|
  {
    if order != [] {
      var c := order[0];
      if c in owners && owners[c] == w {
        var parked := Get(waiting, c);
        ReleaseKeepsAlone(order[1..], w, owners - {c}, waiting - {c}, pending + Reverse(parked));
        ReverseConcat(pending, Reverse(parked));
        ReverseTwice(parked);
        FilterConcat(parked, Reverse(pending), NeedsAll);
        FilterNone(parked, NeedsAll);
      } else {
        ReleaseKeepsAlone(order[1..], w, owners, waiting, pending);
      }
    }
  }

  /** The collected tests that run alone, then those still on the stack. */
  ghost function AloneQueue(files: seq<Test>, pending: seq<Test>): seq<Test> {
    Filter(files, NeedsAll) + Filter(Reverse(pending), NeedsAll)
  }

  ghost predicate AloneUnowned(pending: seq<Test>, owners: map<Key, Worker>) {
    forall i :: 0 <= i < |pending| && NeedsAll(pending[i]) ==> owners == map[]
  }

  lemma CollectKeepsAlone(files: seq<Test>, pending: seq<Test>)
    requires pending != []
    ensures AloneQueue(files + [pending[|pending| - 1]], pending[..|pending| - 1]) == AloneQueue(files, pending)
  {
    hide Filter, Reverse;
    var x, rest := pending[|pending| - 1], pending[..|pending| - 1];
    FilterPop(pending, NeedsAll);
    FilterSnoc(files, x, NeedsAll);
    var f, below := Filter(files, NeedsAll), Filter(Reverse(rest), NeedsAll);
    assert (f + [x]) + below == f + ([x] + below);
  }

  lemma ParkKeepsAlone(files: seq<Test>, pending: seq<Test>)
    requires pending != [] && !NeedsAll(pending[|pending| - 1])
    ensures AloneQueue(files, pending[..|pending| - 1]) == AloneQueue(files, pending)
  {
    hide Filter, Reverse;
    FilterPop(pending, NeedsAll);
  }

  lemma {:induction false} TakeKeepsAlone(pending: seq<Test>, waiting: map<Key, seq<Test>>, owners: map<Key, Worker>,
        files: seq<Test>, batchSize: nat)
    requires AloneUnowned(pending, owners)
    ensures var r := Take(pending, waiting, owners, files, batchSize);
            AloneQueue(r.files, r.pending) == AloneQueue(files, pending)
    decreases |pending|
  {
    hide AloneQueue, FirstActive;
    if |files| > batchSize || pending == [] {
    } else {
      var x, rest := pending[|pending| - 1], pending[..|pending| - 1];
      match FirstActive(x.conflicts, owners) {
        case Some(c) =>
          ParkKeepsAlone(files, pending);
          TakeKeepsAlone(rest, waiting[c := Get(waiting, c) + [x]], owners, files, batchSize);
        case None =>
          CollectKeepsAlone(files, pending);
          TakeKeepsAlone(rest, waiting, owners, files + [x], batchSize);
      }
    }
  }

  lemma ScheduleKeepsAlone(n: nat, cfg: Config, tests: seq<Test>, s: State, w: Worker)
    requires Inv(n, s) && w in s.workers && w !in s.running && AloneBackwards(tests, s)
    ensures AloneBackwards(tests, Schedule(cfg, s, w))
  {
    MergeKeepsInv(n, s, w);
    MergeKeepsAlone(tests, s);
    ChoiceKeepsAlone(cfg, tests, Merge(s), w);
  }

  lemma ChoiceKeepsAlone(cfg: Config, tests: seq<Test>, m: State, w: Worker)
    requires w in m.workers && AloneBackwards(tests, m)
    requires (exists t :: t in m.pending && NeedsAll(t)) ==> m.owners == map[]
    ensures var c := Choose(cfg, m);
            AloneBackwards(tests, if c.files != [] then Dispatch(m, w, c) else Retire(m, w, c))
  {
    var c := Choose(cfg, m);
    TakeKeepsAlone(m.pending, m.waiting, m.owners, [], BatchSize(cfg, |m.workers|));
    var rest := Filter(Reverse(m.pending), NeedsAll);
    assert Filter([], NeedsAll) + rest == rest;
    if c.files != [] {
      DispatchKeepsBackwards(tests, m, w, c);
    }
  }

  lemma DispatchKeepsBackwards(tests: seq<Test>, s: State, w: Worker, c: Taken)
    requires AloneBackwards(tests, s)
    requires Filter(c.files, NeedsAll) + Filter(Reverse(c.pending), NeedsAll) == Filter(Reverse(s.pending), NeedsAll)
    ensures AloneBackwards(tests, Dispatch(s, w, c))
  {
    FilterConcat(s.dispatched, c.files, NeedsAll);
    var sent, batch, rest := Filter(s.dispatched, NeedsAll), Filter(c.files, NeedsAll),
        Filter(Reverse(c.pending), NeedsAll);
    assert (sent + batch) + rest == sent + (batch + rest);
  }

  lemma MergeKeepsAlone(tests: seq<Test>, s: State)
    requires AllRunsAlone(s) && AloneBackwards(tests, s)
    ensures AloneBackwards(tests, Merge(s))
  {
    hide Filter, Reverse;
    FilterReversedConcat(s.pending, s.sequential, NeedsAll);
    FilterAll(s.sequential, NeedsAll);
    FilterReverse(s.sequential, NeedsAll);
    var sent := Filter(s.dispatched, NeedsAll);
    assert s.sequential != [] ==> sent + [] + Reverse(s.sequential) == sent + (Reverse(s.sequential) + []) + [];
  }

  lemma {:induction false} RunKeepsAlone(n: nat, cfg: Config, tests: seq<Test>, s: State, run: seq<Worker>)
    requires Inv(n, s) && ValidRun(cfg, s, run) && AloneBackwards(tests, s)
    ensures AloneBackwards(tests, Final(cfg, s, run))
    decreases |run|
  {
    if run != [] {
      var w := run[0];
      StepKeepsInv(n, cfg, s, w);
      if w in s.running {
        FinishKeepsInv(n, s, w);
        ReleaseKeepsAlone(s.order, w, s.owners, s.waiting, s.pending);
        ScheduleKeepsAlone(n, cfg, tests, Finish(s, w), w);
      } else {
        ScheduleKeepsAlone(n, cfg, tests, s, w);
      }
      RunKeepsAlone(n, cfg, tests, Step(cfg, s, w), run[1..]);
    }
  }

  lemma InitBackwards(shuffle: bool, tests: seq<Test>, requested: int, pending: seq<Test>)
    requires InitialOrder(shuffle, tests, pending)
    ensures AloneBackwards(tests, Init(tests, requested, pending))
  {
    ReverseMultiset(Filter(tests, NotNeedsAll));
    forall t | t in pending
      ensures !NeedsAll(t)
    {
      assert t in multiset(pending);
      FilterMembers(tests, NotNeedsAll, t);
    }
    FilterNone(pending, NeedsAll);
    FilterReverse(pending, NeedsAll);
  }

  /** The tests that conflict with `all` are sent in the reverse of their original
      order, because the deferred list is appended to a stack popped from its end. */
  lemma {:induction false} AllOrderReversed(cfg: Config, tests: seq<Test>, requested: int, pending: seq<Test>,
        run: seq<Worker>, s: State)
    requires Reached(cfg, tests, requested, pending, run, s)
    ensures Filter(s.dispatched, NeedsAll) <= Reverse(Filter(tests, NeedsAll))
    ensures !Busy(s) ==> Filter(s.dispatched, NeedsAll) == Reverse(Filter(tests, NeedsAll))
  {
    var n, s0 := Workers(tests, requested), Init(tests, requested, pending);
    InitKeepsInv(cfg.shuffle, tests, requested, pending);
    InitBackwards(cfg.shuffle, tests, requested, pending);
    RunKeepsAlone(n, cfg, tests, s0, run);
  }

  /** The comment at the reversal promises original order for tests with a common key.
      For tests with that one key alone it holds exactly when the key is not `all`, or
      when there are fewer than two of them. */
  lemma {:induction false} SoleKeyOrderIff(k: Key, cfg: Config, tests: seq<Test>, requested: int, pending: seq<Test>,
        run: seq<Worker>, s: State)
    requires Reached(cfg, tests, requested, pending, run, s) && !cfg.shuffle && !Busy(s)
    requires NoDup(tests)
    ensures Filter(s.dispatched, OnlyKey(k)) == Filter(tests, OnlyKey(k)) <==>
              k != ALL || |Filter(tests, OnlyKey(k))| < 2
  {
    if k != ALL {
      SoleKeyOrderKept(k, cfg, tests, requested, pending, run, s);
    } else {
      AllOrderReversed(cfg, tests, requested, pending, run, s);
      FilterWithinAll(s.dispatched);
      FilterWithinAll(tests);
      FilterReverse(Filter(tests, NeedsAll), OnlyKey(ALL));
      var l := Filter(tests, OnlyKey(ALL));
      FilterNoDup(tests, OnlyKey(ALL));
      assert |l| >= 2 ==> Reverse(l)[0] == l[|l| - 1] != l[0];
      assert |l| < 2 ==> Reverse(l) == l;
    }
  }

  lemma {:induction false} FilterWithinAll(s: seq<Test>)
    ensures Filter(Filter(s, NeedsAll), OnlyKey(ALL)) == Filter(s, OnlyKey(ALL))
  {
    if s != [] {
      FilterWithinAll(s[1..]);
      assert SoleKey(s[0], ALL) ==> s[0].conflicts[0] in s[0].conflicts;
      FilterConcat([s[0]], Filter(s[1..], NeedsAll), OnlyKey(ALL));
    }
  }

  lemma {:induction false} FilterNoDup(s: seq<Test>, p: Test -> bool)
    requires NoDup(s)
    ensures NoDup(Filter(s, p))
  {
    if s != [] {
      FilterNoDup(s[1..], p);
      FilterMembers(s[1..], p, s[0]);
    }
  }
}
