/** The coordinator of the parallel test run, in the source's own form: an object whose
    lists and maps the message handlers update. Each handler is proved to take the step
    of `SchedulerSpec`, so the results about runs hold of it. */
module Scheduler {
  import opened Seqs
  import opened SchedulerSpec
  import opened SchedulerSafety
  import opened SchedulerOrder

  class Coordinator {
    const cfg: Config
    var testFiles: seq<Test>
    var sequentialTests: seq<Test>
    var waitingTests: map<Key, seq<Test>>
    var activeConflicts: map<Key, Worker>
    var activeOrder: seq<Key>
    var workerProcs: set<Worker>
    var testsInProgress: int

    // What the workers are doing, and the log of what was sent and reported back.
    var running: map<Worker, seq<Test>>
    var dispatched: seq<Test>
    var finished: seq<Test>

    ghost function Abs(): State
      reads this
    {
      State(testFiles, sequentialTests, waitingTests, activeConflicts, activeOrder,
            workerProcs, testsInProgress, running, dispatched, finished)
    }

    /** Sorts out the tests that must run alone, then reverses or shuffles the rest;
        `shuffled` is the outcome of the shuffle. */
    constructor (tests: seq<Test>, requested: int, valgrind: bool, shuffle: bool, shuffled: seq<Test>)
      requires shuffle ==> multiset(shuffled) == multiset(Filter(tests, NotNeedsAll))
      ensures cfg == Config(valgrind, shuffle, |Filter(tests, NotNeedsAll)|)
      ensures InitialOrder(shuffle, tests, testFiles)
      ensures Abs() == Init(tests, requested, testFiles)
    {
      var sequential, parallel := Partition(tests);
      ReverseMultiset(parallel);
      cfg := Config(valgrind, shuffle, |parallel|);
      testFiles := if shuffle then shuffled else Reverse(parallel);
      sequentialTests := sequential;
      waitingTests, activeConflicts, activeOrder := map[], map[], [];
      workerProcs := WorkerIds(WorkerCount(requested, |parallel|));
      testsInProgress := 0;
      running, dispatched, finished := map[], [], [];
    }

    static method Partition(tests: seq<Test>) returns (sequential: seq<Test>, parallel: seq<Test>)
      ensures sequential == Filter(tests, NeedsAll) && parallel == Filter(tests, NotNeedsAll)
    {
      sequential, parallel := [], [];
      for n := 0 to |tests|
        invariant sequential == Filter(tests[..n], NeedsAll)
        invariant parallel == Filter(tests[..n], NotNeedsAll)
      {
        assert tests[..n + 1] == tests[..n] + [tests[n]];
        FilterConcat(tests[..n], [tests[n]], NeedsAll);
        FilterConcat(tests[..n], [tests[n]], NotNeedsAll);
        if NeedsAll(tests[n]) {
          sequential := sequential + [tests[n]];
        } else {
          parallel := parallel + [tests[n]];
        }
      }
      assert tests[..|tests|] == tests;
    }

    /** `tests_finished` from worker `i`, up to the fall-through. */
    method TestsFinished(i: Worker)
      requires i in running
      modifies this
      ensures Abs() == Finish(old(Abs()), i)
    {
      testsInProgress := testsInProgress - 1;
      GiveUpKeys(i);
      running, finished := running - {i}, finished + running[i];
    }

    /** The loop over `activeConflicts`: the keys of worker `i` become inactive. */
    method GiveUpKeys(i: Worker)
      modifies `activeConflicts, `activeOrder, `waitingTests, `testFiles
      ensures Released(activeOrder, activeConflicts, waitingTests, testFiles)
           == Release(old(activeOrder), i, old(activeConflicts), old(waitingTests), old(testFiles))
    {
      hide Release;
      var keys, kept := activeOrder, [];
      ghost var all := Release(keys, i, activeConflicts, waitingTests, testFiles);
      assert keys[0..] == keys && [] + all.order == all.order;
      for n := 0 to |keys|
        invariant activeOrder == kept + keys[n..]
        invariant var r := Release(keys[n..], i, activeConflicts, waitingTests, testFiles);
                  all == r.(order := kept + r.order)
      {
        var key := keys[n];
        ReleaseStep(kept, keys, n, i, activeConflicts, waitingTests, testFiles);
        if key in activeConflicts && activeConflicts[key] == i {
          activeConflicts := activeConflicts - {key};
          activeOrder := kept + keys[n + 1..];
          if key in waitingTests {
            Unpark(key);
          } else {
            assert waitingTests - {key} == waitingTests && testFiles + Reverse([]) == testFiles;
          }
        } else {
          kept := kept + [key];
          assert activeOrder == kept + keys[n + 1..];
        }
      }
      ReleaseNil(i, activeConflicts, waitingTests, testFiles);
      assert keys[|keys|..] == [] && kept + [] == kept;
    }

    /** Pops the tests parked behind `key` back onto the stack. */
    method Unpark(key: Key)
      requires key in waitingTests
      modifies `testFiles, `waitingTests
      ensures testFiles == old(testFiles) + Reverse(old(waitingTests)[key])
      ensures waitingTests == old(waitingTests) - {key}
    {
      var parked := waitingTests[key];
      while parked != []
        invariant testFiles + Reverse(parked) == old(testFiles) + Reverse(old(waitingTests)[key])
        invariant unchanged(`waitingTests)
        decreases |parked|
      {
        ReversePop(parked);
        testFiles := testFiles + [parked[|parked| - 1]];
        parked := parked[..|parked| - 1];
      }
      waitingTests := waitingTests - {key};
    }

    /** `ready` from worker `i`, and the tail of `tests_finished`. */
    method Ready(i: Worker)
      requires i in workerProcs
      modifies this
      ensures Abs() == Schedule(cfg, old(Abs()), i)
    {
      hide Take, OwnBatch, WorkerIds, BatchSize;
      // Schedule sequential tests only once we are down to one worker.
      if |workerProcs| == 1 && sequentialTests != [] {
        testFiles, sequentialTests := testFiles + sequentialTests, [];
      }
      ghost var merged := Abs();
      var files := CollectBatch(BatchSize(cfg, |workerProcs|));
      if files != [] {
        Own(files, i);
        testsInProgress := testsInProgress + 1;
        running, dispatched := running[i := files], dispatched + files;
      } else {
        workerProcs := workerProcs - {i};
      }
    }

    method CollectBatch(batchSize: nat) returns (files: seq<Test>)
      modifies `testFiles, `waitingTests
      ensures Taken(testFiles, waitingTests, files) ==
                Take(old(testFiles), old(waitingTests), activeConflicts, [], batchSize)
    {
      files := [];
      while |files| <= batchSize && testFiles != []
        invariant Take(testFiles, waitingTests, activeConflicts, files, batchSize)
               == Take(old(testFiles), old(waitingTests), activeConflicts, [], batchSize)
        decreases |testFiles|
      {
        var file := testFiles[|testFiles| - 1];
        testFiles := testFiles[..|testFiles| - 1];
        var blocked := None;
        for n := 0 to |file.conflicts|
          invariant blocked.None? &&
                      FirstActive(file.conflicts[n..], activeConflicts) == FirstActive(file.conflicts, activeConflicts)
        {
          if file.conflicts[n] in activeConflicts {
            blocked := Some(file.conflicts[n]);
            break;
          }
        }
        if blocked.Some? {
          waitingTests := waitingTests[blocked.value := Get(waitingTests, blocked.value) + [file]];
        } else {
          files := files + [file];
        }
      }
    }

    method Own(files: seq<Test>, i: Worker)
      modifies `activeConflicts, `activeOrder
      ensures Owned(activeConflicts, activeOrder) == OwnBatch(files, i, Owned(old(activeConflicts), old(activeOrder)))
    {
      ghost var all := OwnBatch(files, i, Owned(activeConflicts, activeOrder));
      for n := 0 to |files|
        invariant OwnBatch(files[n..], i, Owned(activeConflicts, activeOrder)) == all
      {
        var keys := files[n].conflicts;
        for m := 0 to |keys|
          invariant OwnBatch(files[n + 1..], i, OwnKeys(keys[m..], i, Owned(activeConflicts, activeOrder))) == all
        {
          if keys[m] !in activeConflicts {
            activeOrder := activeOrder + [keys[m]];
          }
          activeConflicts := activeConflicts[keys[m] := i];
        }
      }
    }

    /** One scheduling message from worker `i`. */
    method HandleMessage(i: Worker)
      requires i in workerProcs
      modifies this
      ensures Abs() == Step(cfg, old(Abs()), i)
    {
      if i in running {
        TestsFinished(i);
      }
      Ready(i);
    }

    /** The coordinator's loop, with an arbitrary live worker speaking each time. */
    method RunAll(tests: seq<Test>, ghost requested: int)
      requires InitialOrder(cfg.shuffle, tests, testFiles)
      requires Abs() == Init(tests, requested, testFiles)
      modifies this
      ensures testsInProgress == 0
      ensures multiset(finished) == multiset(tests) == multiset(dispatched)
      ensures !cfg.shuffle ==> forall k :: k != ALL ==> Filter(dispatched, OnlyKey(k)) == Filter(tests, OnlyKey(k))
      ensures Filter(dispatched, NeedsAll) == Reverse(Filter(tests, NeedsAll))
    {
      ghost var pending, run: seq<Worker> := testFiles, [];
      while testFiles != [] || sequentialTests != [] || testsInProgress > 0
        invariant Reached(cfg, tests, requested, pending, run, Abs())
        decreases |tests| + Workers(tests, requested) - |run|
      {
        NothingLostOrStranded(cfg, tests, requested, pending, run, Abs());
        var i :| i in workerProcs;
        ReachedStep(cfg, tests, requested, pending, run, Abs(), i);
        HandleMessage(i);
        run := run + [i];
        Terminates(cfg, tests, requested, pending, run, Abs());
      }
      IdleMeansFinished(cfg, tests, requested, pending, run, Abs());
      AllOrderReversed(cfg, tests, requested, pending, run, Abs());
      if !cfg.shuffle {
        forall k | k != ALL
          ensures Filter(dispatched, OnlyKey(k)) == Filter(tests, OnlyKey(k))
        {
          SoleKeyOrderKept(k, cfg, tests, requested, pending, run, Abs());
        }
      }
    }
  }

  lemma {:induction false} ReleaseNil(w: Worker, owners: map<Key, Worker>, waiting: map<Key, seq<Test>>,
        pending: seq<Test>)
    ensures Release([], w, owners, waiting, pending) == Released([], owners, waiting, pending)
  {
  }

  lemma {:induction false} ReleaseStep(kept: seq<Key>, keys: seq<Key>, n: nat, w: Worker, owners: map<Key, Worker>,
        waiting: map<Key, seq<Test>>, pending: seq<Test>)
    requires n < |keys|
    ensures var k, r := keys[n], Release(keys[n..], w, owners, waiting, pending);
            if k in owners && owners[k] == w then
              r == Release(keys[n + 1..], w, owners - {k}, waiting - {k}, pending + Reverse(Get(waiting, k)))
            else
              var r' := Release(keys[n + 1..], w, owners, waiting, pending);
              r.(order := kept + r.order) == r'.(order := (kept + [k]) + r'.order)
  {
    assert keys[n..][0] == keys[n] && keys[n..][1..] == keys[n + 1..];
    if !(keys[n] in owners && owners[keys[n]] == w) {
      var r' := Release(keys[n + 1..], w, owners, waiting, pending);
      assert kept + ([keys[n]] + r'.order) == (kept + [keys[n]]) + r'.order;
    }
  }
}
