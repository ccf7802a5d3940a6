/** How large batches are, and when the tests that run alone really come at the end. */
module SchedulerBatches {
  import opened Seqs
  import opened SchedulerSpec
  import opened SchedulerSafety
  import SchedulerOvertaking

  /** None of the test's keys is active. */
  predicate IsFree(t: Test, owners: map<Key, Worker>) { FirstActive(t.conflicts, owners).None? }

  function FreeOf(owners: map<Key, Worker>): Test -> bool { t => IsFree(t, owners) }

  /** The state a worker is scheduled from: its last batch is back, and the deferred tests
      are on the stack if it is the only worker left. */
  function Offered(s: State, w: Worker): State { Merge(Idle(s, w)) }

  function Idle(s: State, w: Worker): State { if w in s.running then Finish(s, w) else s }

  // ----- the size of a batch -----

  /** The free tests on the stack, from its top. */
  ghost function FreeTests(pending: seq<Test>, owners: map<Key, Worker>): seq<Test> {
    Filter(Reverse(pending), FreeOf(owners))
  }

  /** Collecting takes the first free tests, one more than the batch size if there are as many. */
  lemma {:induction false} TakeCollects(pending: seq<Test>, waiting: map<Key, seq<Test>>, owners: map<Key, Worker>,
                                        files: seq<Test>, batchSize: nat)
    requires |files| <= batchSize + 1
    ensures var free := FreeTests(pending, owners);
            Take(pending, waiting, owners, files, batchSize).files
            == files + free[..Min(batchSize + 1 - |files|, |free|)]
    decreases |pending|
  {
    hide Filter, Reverse, FirstActive;
    if |files| > batchSize {
    } else if pending == [] {
      assert FreeTests(pending, owners) == [] by { NoTests(owners); }
    } else {
      var x, rest := pending[|pending| - 1], pending[..|pending| - 1];
      FilterPop(pending, FreeOf(owners));
      var free := FreeTests(rest, owners);
      match FirstActive(x.conflicts, owners) {
        case Some(z) => TakeCollects(rest, waiting[z := Get(waiting, z) + [x]], owners, files, batchSize);
        case None =>
          TakeCollects(rest, waiting, owners, files + [x], batchSize);
          var m := Min(batchSize + 1 - |files + [x]|, |free|);
          assert ([x] + free)[..m + 1] == [x] + free[..m];
          assert (files + [x]) + free[..m] == files + ([x] + free[..m]);
      }
    }
  }

  lemma {:induction false} NoTests(owners: map<Key, Worker>)
    ensures FreeTests([], owners) == []
  {
  }

  /** The batch sent at a message consists of the first free tests on the stack. It exceeds
      the batch size, by one, exactly when more free tests than that are there. */
  lemma BatchIsFirstFree(n: nat, cfg: Config, s: State, w: Worker)
    requires Inv(n, s) && w in s.workers
    ensures var m := Offered(s, w);
            var free, size := FreeTests(m.pending, m.owners), BatchSize(cfg, |s.workers|);
            && Batch(Step(cfg, s, w).running, w) == free[..Min(size + 1, |free|)]
            && (|Batch(Step(cfg, s, w).running, w)| > size <==> |free| > size)
  {
    hide Filter, Reverse, Take, OwnBatch, Release, Inv;
    var m := Offered(s, w);
    assert m.workers == s.workers && w !in m.running;
    var free, size := FreeTests(m.pending, m.owners), BatchSize(cfg, |s.workers|);
    TakeCollects(m.pending, m.waiting, m.owners, [], size);
    assert [] + free[..Min(size + 1, |free|)] == free[..Min(size + 1, |free|)];
  }

  /** Under valgrind the batch size is 1, yet one of two workers is sent both of two free
      tests at once. */
  lemma {:induction false} TwoUnderValgrind(x: Test, y: Test)
    requires x.conflicts == [] && y.conflicts == []
    ensures var cfg := Config(true, false, 2);
            exists s :: Reached(cfg, [x, y], 2, [y, x], [] + [1], s) && 1 in s.running
              && s.running[1] == [x, y] && BatchSize(cfg, 2) == 1
  {
    hide Step, Reached, Inv;
    var cfg := Config(true, false, 2);
    var s := TwoGiven(x, y);
    BatchIsFirstFree(2, cfg, s, 1);
    BothFree(x, y);
    assert Offered(s, 1) == s;
    hide FreeTests;
    ReachedStep(cfg, [x, y], 2, [y, x], [], s, 1);
    var s' := Step(cfg, s, 1);
    assert Batch(s'.running, 1) == [x, y][..2] == [x, y];
    assert Reached(cfg, [x, y], 2, [y, x], [] + [1], s');
  }

  lemma {:induction false} BothFree(x: Test, y: Test)
    ensures FreeTests([y, x], map[]) == [x, y]
  {
    assert Reverse([y, x]) == [x, y];
    hide Reverse;
    FilterAll([x, y], FreeOf(map[]));
  }

  lemma {:induction false} TwoGiven(x: Test, y: Test) returns (s: State)
    requires x.conflicts == [] && y.conflicts == []
    ensures Reached(Config(true, false, 2), [x, y], 2, [y, x], [], s) && Inv(2, s)
    ensures s.pending == [y, x] && s.owners == map[] && s.running == map[] && s.sequential == []
    ensures 1 in s.workers && |s.workers| == 2
  {
    hide Reached, Inv;
    var tests := [x, y];
    s := SchedulerOvertaking.Begin(true, tests);
    assert Reverse(tests) == [y, x];
    ReachedInv(Config(true, false, 2), tests, 2, [y, x], [], s);
    FilterAll(tests, NotNeedsAll);
  }

  // ----- one worker left -----

  /** With nothing but free tests on the stack nothing is parked: it is taken from its top. */
  lemma {:induction false} TakeFree(pending: seq<Test>, waiting: map<Key, seq<Test>>, owners: map<Key, Worker>,
                                    files: seq<Test>, batchSize: nat)
    requires forall t :: t in pending ==> IsFree(t, owners)
    ensures var r := Take(pending, waiting, owners, files, batchSize);
            && r.waiting == waiting && r.files + Reverse(r.pending) == files + Reverse(pending)
            && |r.pending| <= |pending| && r.pending == pending[..|r.pending|]
            && (forall t :: t in r.files ==> t in files || t in pending[|r.pending|..])
            && (|files| <= batchSize && pending != [] ==> |r.files| > |files|)
            && |r.files| >= |files|
    decreases |pending|
  {
    hide Reverse, FirstActive;
    if |files| <= batchSize && pending != [] {
      var x, rest := pending[|pending| - 1], pending[..|pending| - 1];
      ReversePop(pending);
      assert IsFree(x, owners);
      TakeFree(rest, waiting, owners, files + [x], batchSize);
      assert (files + [x]) + Reverse(rest) == files + ([x] + Reverse(rest));
      var r := Take(rest, waiting, owners, files + [x], batchSize);
      assert pending[|r.pending|..] == rest[|r.pending|..] + [x];
    }
  }

  /** A message of the only worker: what was sent, followed by the stack from its top, stays
      the same, and nothing waits. */
  lemma SoloStep(n: nat, cfg: Config, s: State, w: Worker)
    requires Inv(n, s) && s.workers == {w}
    ensures var s' := Step(cfg, s, w);
            && s'.sequential == [] && s'.waiting == map[] && s'.workers <= {w} && s.dispatched <= s'.dispatched
            && s'.dispatched + Reverse(s'.pending) == s.dispatched + Reverse(Offered(s, w).pending)
  {
    hide Reverse, Inv, Dispatch, Retire, Choose, Offered, Step;
    SoloIsFree(n, s, w);
    StepOffers(cfg, s, w);
    SoloTakes(cfg, Offered(s, w), w);
  }

  lemma StepOffers(cfg: Config, s: State, w: Worker)
    requires w in s.workers
    ensures var m := Offered(s, w);
            && m.workers == s.workers
            && var t := Choose(cfg, m); Step(cfg, s, w) == if t.files != [] then Dispatch(m, w, t) else Retire(m, w, t)
  {
    hide Release, Choose, Dispatch, Retire;
  }

  lemma SoloTakes(cfg: Config, m: State, w: Worker)
    requires m.sequential == [] && m.waiting == map[] && m.owners == map[] && m.workers == {w}
    ensures var t := Choose(cfg, m);
            var s' := if t.files != [] then Dispatch(m, w, t) else Retire(m, w, t);
            && s'.sequential == [] && s'.waiting == map[] && s'.workers <= {w} && m.dispatched <= s'.dispatched
            && s'.dispatched + Reverse(s'.pending) == m.dispatched + Reverse(m.pending)
  {
    hide Take, OwnBatch, Reverse, BatchSize;
    NothingActive();
    hide IsFree;
    TakeFree(m.pending, map[], map[], [], BatchSize(cfg, |m.workers|));
    var t := Choose(cfg, m);
    assert t.files + Reverse(t.pending) == [] + Reverse(m.pending) == Reverse(m.pending);
    Regroup(m.dispatched, t.files, Reverse(t.pending));
    assert t.files == [] ==> t.files + Reverse(t.pending) == Reverse(t.pending);
  }

  lemma NothingActive()
    ensures forall t :: IsFree(t, map[])
  {
  }

  /** The only worker is always scheduled with no key active and nobody waiting. */
  lemma SoloIsFree(n: nat, s: State, w: Worker)
    requires Inv(n, s) && s.workers == {w}
    ensures var m := Offered(s, w);
            && m.sequential == [] && m.waiting == map[] && m.owners == map[]
            && m.workers == {w} && w !in m.running && m.dispatched == s.dispatched
  {
    hide Release;
    if w in s.running {
      FinishKeepsInv(n, s, w);
    }
    NobodyRunning(n, Idle(s, w), w);
  }

  lemma {:induction false} ReleaseNothing(order: seq<Key>, w: Worker, owners: map<Key, Worker>, pending: seq<Test>)
    ensures var r := Release(order, w, owners, map[], pending); r.pending == pending && r.waiting == map[]
    decreases |order|
  {
    if order != [] {
      var k := order[0];
      assert Reverse(Get(map[], k)) == [] && pending + [] == pending;
      var nobody: map<Key, seq<Test>> := map[];
      assert nobody - {k} == nobody;
      if k in owners && owners[k] == w {
        ReleaseNothing(order[1..], w, owners - {k}, pending);
      } else {
        ReleaseNothing(order[1..], w, owners, pending);
      }
    }
  }

  lemma SoloOffered(s: State, w: Worker)
    requires s.sequential == [] && s.waiting == map[]
    ensures Offered(s, w).pending == s.pending
  {
    hide Release;
    if w in s.running {
      ReleaseNothing(s.order, w, s.owners, s.pending);
    }
  }

  lemma {:induction false} SoloRun(n: nat, cfg: Config, s: State, w: Worker, run: seq<Worker>)
    requires Inv(n, s) && ValidRun(cfg, s, run)
    requires s.workers <= {w} && s.sequential == [] && s.waiting == map[]
    ensures var s' := Final(cfg, s, run); s'.dispatched + Reverse(s'.pending) == s.dispatched + Reverse(s.pending)
    decreases |run|
  {
    hide Inv, Reverse, Step;
    if run != [] {
      assert run[0] == w && s.workers == {w};
      SoloStep(n, cfg, s, w);
      SoloOffered(s, w);
      StepKeepsInv(n, cfg, s, w);
      SoloRun(n, cfg, Step(cfg, s, w), w, run[1..]);
    }
  }

  // ----- when the deferred tests come last -----

  /** No test that can run beside others is sent after one that cannot. */
  ghost predicate AllAtEnd(sent: seq<Test>) {
    forall i, j :: 0 <= i < j < |sent| && NeedsAll(sent[i]) ==> NeedsAll(sent[j])
  }

  /** Until the merge none of the deferred tests has been sent or is on the stack. */
  ghost predicate Deferred(tests: seq<Test>, s: State) {
    s.sequential != [] ==>
      && s.sequential == Filter(tests, NeedsAll)
      && (forall t :: t in s.dispatched ==> NotNeedsAll(t))
      && (forall t :: t in s.pending ==> NotNeedsAll(t))
  }

  lemma FinishDeferred(n: nat, tests: seq<Test>, s: State, w: Worker)
    requires Inv(n, s) && w in s.workers && Deferred(tests, s)
    ensures Deferred(tests, Idle(s, w))
  {
    hide Release, Filter;
    if w in s.running && s.sequential != [] {
      forall t | t in Finish(s, w).pending
        ensures NotNeedsAll(t)
      {
        ReleasePending(s.order, w, s.owners, s.waiting, s.pending, t);
      }
    }
  }

  lemma StepDeferred(n: nat, cfg: Config, tests: seq<Test>, s: State, w: Worker)
    requires Inv(n, s) && w in s.workers && Deferred(tests, s)
    ensures Deferred(tests, Step(cfg, s, w))
    ensures s.sequential != [] && Step(cfg, s, w).sequential == [] ==> s.workers == {w}
  {
    FinishDeferred(n, tests, s, w);
    var m := Offered(s, w);
    if m.sequential == [] {
      if s.sequential != [] {
        OnlyOne(s.workers, w);
      }
    } else {
      hide Release, Filter, OwnBatch, Inv;
      var t := Choose(cfg, m);
      assert m == Idle(s, w);
      TakeMembers(m.pending, m.waiting, m.owners, [], BatchSize(cfg, |m.workers|));
    }
  }

  lemma OnlyOne(ws: set<Worker>, w: Worker)
    requires |ws| == 1 && w in ws
    ensures ws == {w}
  {
    assert |ws - {w}| == 0;
  }

  /** Whatever is collected or left was on the stack before. */
  lemma {:induction false} TakeMembers(pending: seq<Test>, waiting: map<Key, seq<Test>>, owners: map<Key, Worker>,
                                       files: seq<Test>, batchSize: nat)
    requires forall t :: t in pending || t in files ==> NotNeedsAll(t)
    ensures var r := Take(pending, waiting, owners, files, batchSize);
            forall t :: t in r.pending || t in r.files ==> NotNeedsAll(t)
    decreases |pending|
  {
    hide FirstActive;
    if |files| <= batchSize && pending != [] {
      var x, rest := pending[|pending| - 1], pending[..|pending| - 1];
      assert x in pending;
      match FirstActive(x.conflicts, owners) {
        case Some(z) => TakeMembers(rest, waiting[z := Get(waiting, z) + [x]], owners, files, batchSize);
        case None => TakeMembers(rest, waiting, owners, files + [x], batchSize);
      }
    }
  }

  lemma {:induction false} RunDeferred(n: nat, cfg: Config, tests: seq<Test>, s: State, run: seq<Worker>)
    requires Inv(n, s) && ValidRun(cfg, s, run) && Deferred(tests, s)
    ensures Deferred(tests, Final(cfg, s, run))
    decreases |run|
  {
    hide Inv, Deferred, Step;
    if run != [] {
      StepKeepsInv(n, cfg, s, run[0]);
      StepDeferred(n, cfg, tests, s, run[0]);
      RunDeferred(n, cfg, tests, Step(cfg, s, run[0]), run[1..]);
    }
  }

  lemma {:induction false} RunSplits(cfg: Config, s: State, run: seq<Worker>, k: nat)
    requires ValidRun(cfg, s, run) && k <= |run|
    ensures ValidRun(cfg, s, run[..k]) && ValidRun(cfg, Final(cfg, s, run[..k]), run[k..])
    ensures Final(cfg, Final(cfg, s, run[..k]), run[k..]) == Final(cfg, s, run)
    decreases k
  {
    hide Step;
    if k == 0 {
      assert run[..0] == [] && run[0..] == run;
    } else {
      RunSplits(cfg, Step(cfg, s, run[0]), run[1..], k - 1);
      assert run[..k][1..] == run[1..][..k - 1] && run[1..][k - 1..] == run[k..];
    }
  }

  /** The message at which the deferred tests go on the stack comes from the only worker. */
  lemma {:induction false} MergeHappens(n: nat, cfg: Config, tests: seq<Test>, s: State, run: seq<Worker>)
    returns (k: nat)
    requires Inv(n, s) && ValidRun(cfg, s, run) && Deferred(tests, s)
    requires s.sequential != [] && Final(cfg, s, run).sequential == []
    ensures k < |run| && ValidRun(cfg, s, run[..k])
    ensures var p := Final(cfg, s, run[..k]); p.sequential != [] && p.workers == {run[k]}
    decreases |run|
  {
    hide Inv, Deferred, Step;
    var s' := Step(cfg, s, run[0]);
    StepKeepsInv(n, cfg, s, run[0]);
    StepDeferred(n, cfg, tests, s, run[0]);
    if s'.sequential == [] {
      k := 0;
    } else {
      var k' := MergeHappens(n, cfg, tests, s', run[1..]);
      k := k' + 1;
      assert run[..k][1..] == run[1..][..k'] && run[1..][k'] == run[k];
    }
  }

  /** Deferred tests followed by the rest of the stack, after tests that are not deferred. */
  lemma AtEndIff(sent: seq<Test>, alone: seq<Test>, others: seq<Test>)
    requires alone != [] && forall t :: t in alone ==> NeedsAll(t)
    requires (forall t :: t in sent ==> NotNeedsAll(t)) && (forall t :: t in others ==> NotNeedsAll(t))
    ensures AllAtEnd(sent + alone + others) <==> others == []
  {
    var all := sent + alone + others;
    assert forall i :: 0 <= i < |sent| ==> all[i] == sent[i] && sent[i] in sent;
    assert forall i :: 0 <= i < |alone| ==> all[|sent| + i] == alone[i] && alone[i] in alone;
    if others == [] {
      forall i, j | 0 <= i < j < |all| && NeedsAll(all[i])
        ensures NeedsAll(all[j])
      {
        assert i >= |sent| && all[j] == all[|sent| + (j - |sent|)];
      }
    } else {
      assert all[|sent| + 0] == alone[0] && all[|sent| + |alone|] == others[0] && others[0] in others;
    }
  }

  lemma {:induction false} FilterHolds(tests: seq<Test>)
    ensures forall t :: t in Filter(tests, NeedsAll) ==> NeedsAll(t)
    ensures forall t :: t in Filter(tests, NotNeedsAll) ==> NotNeedsAll(t)
  {
    forall t | t in Filter(tests, NeedsAll)
      ensures NeedsAll(t)
    {
      FilterMembers(tests, NeedsAll, t);
    }
    forall t | t in Filter(tests, NotNeedsAll)
      ensures NotNeedsAll(t)
    {
      FilterMembers(tests, NotNeedsAll, t);
    }
  }

  lemma InitDeferred(shuffle: bool, tests: seq<Test>, requested: int, pending: seq<Test>)
    requires InitialOrder(shuffle, tests, pending)
    ensures Deferred(tests, Init(tests, requested, pending))
  {
    FilterHolds(tests);
    ReverseMultiset(Filter(tests, NotNeedsAll));
    hide Filter, Reverse;
    forall t | t in pending
      ensures NotNeedsAll(t)
    {
      assert t in multiset(pending);
    }
  }

  /** From the merge on everything is sent in a fixed order. */
  lemma {:induction false} AfterMerge(n: nat, cfg: Config, tests: seq<Test>, p: State, w: Worker, rest: seq<Worker>)
    requires Inv(n, p) && Deferred(tests, p) && p.sequential != [] && p.workers == {w}
    requires rest != [] && rest[0] == w && ValidRun(cfg, p, rest) && !Busy(Final(cfg, p, rest))
    ensures Final(cfg, p, rest).dispatched
         == p.dispatched + Reverse(Filter(tests, NeedsAll)) + Reverse(Idle(p, w).pending)
  {
    hide Inv, Filter, Release, Reverse, Step;
    SoloStep(n, cfg, p, w);
    StepKeepsInv(n, cfg, p, w);
    SoloRun(n, cfg, Step(cfg, p, w), w, rest[1..]);
    var stack := Idle(p, w).pending;
    assert Offered(p, w).pending == stack + Filter(tests, NeedsAll);
    ReverseConcat(stack, Filter(tests, NeedsAll));
    var end := Final(cfg, p, rest);
    NothingReversed();
    assert end.dispatched + [] == end.dispatched;
    var a, b := Reverse(Filter(tests, NeedsAll)), Reverse(stack);
    assert p.dispatched + (a + b) == p.dispatched + a + b;
  }

  lemma {:induction false} NothingReversed()
    ensures Reverse<Test>([]) == []
  {
  }

  lemma {:induction false} ReverseMembers(s: seq<Test>)
    ensures forall t :: t in Reverse(s) <==> t in s
    ensures s == [] <==> Reverse(s) == []
  {
    ReverseMultiset(s);
    hide Reverse;
    assert forall t :: t in Reverse(s) <==> t in multiset(Reverse(s));
    assert forall t :: t in s <==> t in multiset(s);
  }

  /** In every complete run of a list with tests that conflict with `all`: they come after
      all the others, as the comment promises, exactly when the stack is empty at the
      message that merges them in. What is on it then is sent after them, from its top. */
  lemma AllAtEndIff(cfg: Config, tests: seq<Test>, requested: int, pending: seq<Test>, run: seq<Worker>, s: State)
    returns (k: nat)
    requires Reached(cfg, tests, requested, pending, run, s) && !Busy(s) && Filter(tests, NeedsAll) != []
    ensures k < |run| && ValidRun(cfg, Init(tests, requested, pending), run[..k])
    ensures var p := Final(cfg, Init(tests, requested, pending), run[..k]);
            && p.workers == {run[k]} && p.sequential == Filter(tests, NeedsAll)
            && s.dispatched == p.dispatched + Reverse(Filter(tests, NeedsAll)) + Reverse(Idle(p, run[k]).pending)
            && (AllAtEnd(s.dispatched) <==> Idle(p, run[k]).pending == [])
  {
    hide Filter, Reverse, Step, Release, Inv, AllAtEnd;
    var n, s0 := Workers(tests, requested), Init(tests, requested, pending);
    InitKeepsInv(cfg.shuffle, tests, requested, pending);
    InitDeferred(cfg.shuffle, tests, requested, pending);
    k := MergeHappens(n, cfg, tests, s0, run);
    RunSplits(cfg, s0, run, k);
    var p, w := Final(cfg, s0, run[..k]), run[k];
    RunKeepsInv(n, cfg, s0, run[..k]);
    RunDeferred(n, cfg, tests, s0, run[..k]);
    AfterMerge(n, cfg, tests, p, w, run[k..]);
    FinishDeferred(n, tests, p, w);
    FilterHolds(tests);
    ReverseMembers(Filter(tests, NeedsAll));
    ReverseMembers(Idle(p, w).pending);
    assert Idle(p, w).sequential == p.sequential;
    AtEndIff(p.dispatched, Reverse(Filter(tests, NeedsAll)), Reverse(Idle(p, w).pending));
  }

  /** With a single worker the deferred tests are sent first of all. */
  lemma {:induction false} OneWorkerSendsThemFirst(cfg: Config, tests: seq<Test>, requested: int, pending: seq<Test>,
        run: seq<Worker>, s: State)
    requires Reached(cfg, tests, requested, pending, run, s) && !Busy(s)
    requires Filter(tests, NeedsAll) != [] && Workers(tests, requested) == 1
    ensures s.dispatched == Reverse(Filter(tests, NeedsAll)) + Reverse(pending)
  {
    hide Filter, Reverse, Step, Release, Inv;
    var s0 := Init(tests, requested, pending);
    InitKeepsInv(cfg.shuffle, tests, requested, pending);
    InitDeferred(cfg.shuffle, tests, requested, pending);
    assert s0.workers == {1};
    assert run != [] && run[0] == 1;
    AfterMerge(1, cfg, tests, s0, 1, run);
    assert [] + Reverse(Filter(tests, NeedsAll)) == Reverse(Filter(tests, NeedsAll));
  }
}
