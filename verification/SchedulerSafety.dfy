/** Safety, conservation and termination of the scheduler over every run. */
module SchedulerSafety {
  import opened Seqs
  import opened SchedulerSpec

  ghost predicate HasKey(files: seq<Test>, k: Key) {
    exists t :: t in files && k in t.conflicts
  }

  // ----- the joint invariant -----

  ghost predicate Counting(n: nat, s: State) {
    && s.inProgress == |s.running|
    && s.running.Keys <= s.workers
    && (forall w :: w in s.running ==> s.running[w] != [])
    && (forall w :: w in s.workers ==> 1 <= w <= n)
  }

  /** `activeConflicts` holds exactly the keys of running batches, each under its worker. */
  ghost predicate KeysOwned(s: State) {
    && (forall w, k :: w in s.running && HasKey(s.running[w], k) ==> k in s.owners && s.owners[k] == w)
    && (forall k :: k in s.owners ==> s.owners[k] in s.running && HasKey(s.running[s.owners[k]], k))
  }

  ghost predicate OrderOk(owners: map<Key, Worker>, order: seq<Key>) {
    NoDup(order) && forall k :: k in order <==> k in owners
  }

  /** A test waits only under an active key of its own. */
  ghost predicate WaitingOk(waiting: map<Key, seq<Test>>, owners: map<Key, Worker>) {
    forall k :: k in waiting ==> k in owners && forall t :: t in waiting[k] ==> k in t.conflicts && !NeedsAll(t)
  }

  ghost predicate AllRunsAlone(s: State) {
    && (forall t :: t in s.sequential ==> NeedsAll(t))
    && (forall t :: t in s.pending && NeedsAll(t) ==> |s.workers| <= 1)
    && (forall w, t :: w in s.running && t in s.running[w] && NeedsAll(t) ==> s.workers == {w})
  }

  ghost predicate Drained(s: State) {
    s.workers == {} ==> s.pending == [] && s.sequential == []
  }

  ghost predicate Inv(n: nat, s: State) {
    && Counting(n, s)
    && KeysOwned(s)
    && OrderOk(s.owners, s.order)
    && WaitingOk(s.waiting, s.owners)
    && AllRunsAlone(s)
    && Drained(s)
  }

  // ----- conservation of tests -----

  /** How often a test occurs in a list, in the waiting lists, in the running batches. */
  function Count(files: seq<Test>, t: Test): nat { multiset(files)[t] }

  ghost function WaitingCount(order: seq<Key>, waiting: map<Key, seq<Test>>, t: Test): nat {
    if order == [] then 0 else Count(Get(waiting, order[0]), t) + WaitingCount(order[1..], waiting, t)
  }

  ghost function InFlightCount(n: nat, running: map<Worker, seq<Test>>, t: Test): nat {
    if n == 0 then 0 else InFlightCount(n - 1, running, t) + Count(Batch(running, n), t)
  }

  /** Not yet sent: pending, deferred or waiting. */
  ghost function UnsentCount(s: State, t: Test): nat {
    Count(s.pending, t) + Count(s.sequential, t) + WaitingCount(s.order, s.waiting, t)
  }

  /** Every occurrence of a test is in exactly one place; what was sent is running or finished. */
  ghost predicate ConservedFor(n: nat, tests: seq<Test>, s: State, t: Test) {
    && Count(tests, t) == UnsentCount(s, t) + InFlightCount(n, s.running, t) + Count(s.finished, t)
    && Count(s.dispatched, t) == InFlightCount(n, s.running, t) + Count(s.finished, t)
  }

  ghost predicate Conserved(n: nat, tests: seq<Test>, s: State) {
    forall t :: ConservedFor(n, tests, s, t)
  }

  lemma {:induction false} WaitingCountSame(order: seq<Key>, w1: map<Key, seq<Test>>, w2: map<Key, seq<Test>>, t: Test)
    requires forall k :: k in order ==> Get(w1, k) == Get(w2, k)
    ensures WaitingCount(order, w1, t) == WaitingCount(order, w2, t)
  {
    if order != [] {
      WaitingCountSame(order[1..], w1, w2, t);
    }
  }

  lemma {:induction false} WaitingCountAppend(order: seq<Key>, waiting: map<Key, seq<Test>>, k: Key, x: Test, t: Test)
    requires NoDup(order) && k in order
    ensures WaitingCount(order, waiting[k := Get(waiting, k) + [x]], t) ==
              WaitingCount(order, waiting, t) + Count([x], t)
  {
    var waiting' := waiting[k := Get(waiting, k) + [x]];
    if order[0] == k {
      WaitingCountSame(order[1..], waiting, waiting', t);
    } else {
      WaitingCountAppend(order[1..], waiting, k, x, t);
    }
  }

  lemma {:induction false} WaitingCountConcat(a: seq<Key>, b: seq<Key>, waiting: map<Key, seq<Test>>, t: Test)
    ensures WaitingCount(a + b, waiting, t) == WaitingCount(a, waiting, t) + WaitingCount(b, waiting, t)
  {
    if a == [] {
      assert a + b == b;
    } else {
      WaitingCountConcat(a[1..], b, waiting, t);
      assert (a + b)[0] == a[0] && (a + b)[1..] == a[1..] + b;
    }
  }

  lemma {:induction false} WaitingCountEmpty(order: seq<Key>, waiting: map<Key, seq<Test>>, t: Test)
    requires forall k :: k in order ==> Get(waiting, k) == []
    ensures WaitingCount(order, waiting, t) == 0
  {
    if order != [] {
      WaitingCountEmpty(order[1..], waiting, t);
    }
  }

  lemma {:induction false} InFlightSame(n: nat, r1: map<Worker, seq<Test>>, r2: map<Worker, seq<Test>>, t: Test)
    requires forall w :: 1 <= w <= n ==> Batch(r1, w) == Batch(r2, w)
    ensures InFlightCount(n, r1, t) == InFlightCount(n, r2, t)
  {
    if n > 0 {
      InFlightSame(n - 1, r1, r2, t);
    }
  }

  lemma {:induction false} InFlightAdd(n: nat, running: map<Worker, seq<Test>>, w: Worker, files: seq<Test>, t: Test)
    requires w !in running && 1 <= w <= n
    ensures InFlightCount(n, running[w := files], t) == InFlightCount(n, running, t) + Count(files, t)
  {
    if w == n {
      InFlightSame(n - 1, running, running[w := files], t);
    } else {
      InFlightAdd(n - 1, running, w, files, t);
    }
  }

  lemma {:induction false} InFlightEmpty(n: nat, t: Test)
    ensures InFlightCount(n, map[], t) == 0
  {
    if n > 0 {
      InFlightEmpty(n - 1, t);
    }
  }

  // ----- releasing keys -----

  lemma {:induction false} ReleaseFacts(order: seq<Key>, w: Worker, owners: map<Key, Worker>,
        waiting: map<Key, seq<Test>>, pending: seq<Test>)
    requires NoDup(order) && forall k :: k in order ==> k in owners
    ensures var r := Release(order, w, owners, waiting, pending);
            && r.owners == (map k | k in owners && !(k in order && owners[k] == w) :: owners[k])
            && r.waiting == (map k | k in waiting && !(k in order && owners[k] == w) :: waiting[k])
            && (forall k :: k in r.order <==> k in order && owners[k] != w)
            && NoDup(r.order)
    decreases |order|
  {
    hide Reverse, Get;
    if order != [] {
      var k := order[0];
      assert order == [k] + order[1..];
      if owners[k] == w {
        ReleaseFacts(order[1..], w, owners - {k}, waiting - {k}, pending + Reverse(Get(waiting, k)));
      } else {
        ReleaseFacts(order[1..], w, owners, waiting, pending);
      }
    }
  }

  lemma {:induction false} ReleaseConserves(order: seq<Key>, w: Worker, owners: map<Key, Worker>,
        waiting: map<Key, seq<Test>>, pending: seq<Test>, t: Test)
    requires NoDup(order) && forall k :: k in order ==> k in owners
    ensures var r := Release(order, w, owners, waiting, pending);
            Count(r.pending, t) + WaitingCount(r.order, r.waiting, t) ==
                    Count(pending, t) + WaitingCount(order, waiting, t)
    decreases |order|
  {
    if order != [] {
      var k := order[0];
      assert order == [k] + order[1..];
      if owners[k] == w {
        ReleaseConserves(order[1..], w, owners - {k}, waiting - {k}, pending + Reverse(Get(waiting, k)), t);
        ReverseMultiset(Get(waiting, k));
        WaitingCountSame(order[1..], waiting, waiting - {k}, t);
      } else {
        var r := Release(order[1..], w, owners, waiting, pending);
        ReleaseConserves(order[1..], w, owners, waiting, pending, t);
        ReleaseFacts(order[1..], w, owners, waiting, pending);
        assert Get(r.waiting, k) == Get(waiting, k);
        assert ([k] + r.order)[1..] == r.order;
      }
    }
  }

  lemma {:induction false} ReleasePending(order: seq<Key>, w: Worker, owners: map<Key, Worker>,
        waiting: map<Key, seq<Test>>, pending: seq<Test>, t: Test)
    requires t in Release(order, w, owners, waiting, pending).pending
    ensures t in pending || exists k :: k in waiting && t in waiting[k]
    decreases |order|
  {
    if order != [] {
      var k := order[0];
      if k in owners && owners[k] == w {
        ReleasePending(order[1..], w, owners - {k}, waiting - {k}, pending + Reverse(Get(waiting, k)), t);
      } else {
        ReleasePending(order[1..], w, owners, waiting, pending, t);
      }
    }
  }

  lemma FinishKeepsKeys(n: nat, s: State, w: Worker)
    requires Inv(n, s) && w in s.running
    ensures KeysOwned(Finish(s, w)) && OrderOk(Finish(s, w).owners, Finish(s, w).order)
    ensures WaitingOk(Finish(s, w).waiting, Finish(s, w).owners)
  {
    ReleaseFacts(s.order, w, s.owners, s.waiting, s.pending);
  }

  lemma FinishKeepsAlone(n: nat, s: State, w: Worker)
    requires Inv(n, s) && w in s.running
    ensures AllRunsAlone(Finish(s, w))
  {
    var s' := Finish(s, w);
    forall t | t in s'.pending && NeedsAll(t)
      ensures |s'.workers| <= 1
    {
      ReleasePending(s.order, w, s.owners, s.waiting, s.pending, t);
    }
  }

  lemma FinishKeepsInv(n: nat, s: State, w: Worker)
    requires Inv(n, s) && w in s.running
    ensures Inv(n, Finish(s, w))
  {
    FinishKeepsKeys(n, s, w);
    FinishKeepsAlone(n, s, w);
    assert s.running.Keys == Finish(s, w).running.Keys + {w};
  }

  lemma FinishConserves(n: nat, tests: seq<Test>, s: State, w: Worker, t: Test)
    requires Inv(n, s) && w in s.running && ConservedFor(n, tests, s, t)
    ensures ConservedFor(n, tests, Finish(s, w), t)
  {
    var s' := Finish(s, w);
    ReleaseConserves(s.order, w, s.owners, s.waiting, s.pending, t);
    InFlightAdd(n, s'.running, w, s.running[w], t);
    assert s'.running[w := s.running[w]] == s.running;
  }

  // ----- taking a batch -----

  ghost predicate Free(files: seq<Test>, owners: map<Key, Worker>) {
    forall k :: HasKey(files, k) ==> k !in owners
  }

  lemma {:induction false} TakeFacts(pending: seq<Test>, waiting: map<Key, seq<Test>>, owners: map<Key, Worker>,
        files: seq<Test>, batchSize: nat)
    requires WaitingOk(waiting, owners) && Free(files, owners) && |files| <= batchSize + 1
    requires (exists t :: t in pending && NeedsAll(t)) ==> owners == map[]
    ensures var r := Take(pending, waiting, owners, files, batchSize);
            && WaitingOk(r.waiting, owners)
            && Free(r.files, owners)
            && |files| <= |r.files| <= batchSize + 1
            && (r.files == [] ==> r.pending == [])
            && (forall t :: t in r.pending ==> t in pending)
            && (forall t :: t in r.files ==> t in files || t in pending)
    decreases |pending|
  {
    if |files| > batchSize || pending == [] {
    } else {
      var t, rest := pending[|pending| - 1], pending[..|pending| - 1];
      match FirstActive(t.conflicts, owners) {
        case Some(k) =>
          var waiting' := waiting[k := Get(waiting, k) + [t]];
          assert WaitingOk(waiting', owners);
          TakeFacts(rest, waiting', owners, files, batchSize);
        case None =>
          forall k | HasKey(files + [t], k)
            ensures k !in owners
          {
            assert HasKey(files, k) || k in t.conflicts;
          }
          TakeFacts(rest, waiting, owners, files + [t], batchSize);
      }
    }
  }

  lemma {:induction false} TakeConserves(pending: seq<Test>, waiting: map<Key, seq<Test>>, owners: map<Key, Worker>,
        files: seq<Test>, batchSize: nat, order: seq<Key>, t: Test)
    requires OrderOk(owners, order)
    ensures var r := Take(pending, waiting, owners, files, batchSize);
            Count(r.pending, t) + WaitingCount(order, r.waiting, t) + Count(r.files, t)
            == Count(pending, t) + WaitingCount(order, waiting, t) + Count(files, t)
    decreases |pending|
  {
    if |files| > batchSize || pending == [] {
    } else {
      var x, rest := pending[|pending| - 1], pending[..|pending| - 1];
      assert pending == rest + [x];
      match FirstActive(x.conflicts, owners) {
        case Some(k) =>
          WaitingCountAppend(order, waiting, k, x, t);
          TakeConserves(rest, waiting[k := Get(waiting, k) + [x]], owners, files, batchSize, order, t);
        case None =>
          TakeConserves(rest, waiting, owners, files + [x], batchSize, order, t);
      }
    }
  }

  lemma {:induction false} OwnKeysFacts(keys: seq<Key>, w: Worker, o: Owned)
    requires OrderOk(o.owners, o.order)
    ensures var r := OwnKeys(keys, w, o);
            && OrderOk(r.owners, r.order)
            && o.order <= r.order
            && (forall k :: k in r.owners <==> k in o.owners || k in keys)
            && (forall k :: k in r.owners ==> r.owners[k] == if k in keys then w else o.owners[k])
    decreases |keys|
  {
    if keys != [] {
      assert keys == [keys[0]] + keys[1..];
      OwnKeysFacts(keys[1..], w,
                   Owned(o.owners[keys[0] := w], if keys[0] in o.owners then o.order else o.order + [keys[0]]));
    }
  }

  lemma {:induction false} OwnBatchFacts(files: seq<Test>, w: Worker, o: Owned)
    requires OrderOk(o.owners, o.order)
    ensures var r := OwnBatch(files, w, o);
            && OrderOk(r.owners, r.order)
            && o.order <= r.order
            && (forall k :: k in r.owners <==> k in o.owners || HasKey(files, k))
            && (forall k :: k in r.owners ==> r.owners[k] == if HasKey(files, k) then w else o.owners[k])
    decreases |files|
  {
    if files != [] {
      OwnKeysFacts(files[0].conflicts, w, o);
      OwnBatchFacts(files[1..], w, OwnKeys(files[0].conflicts, w, o));
      assert forall t :: t in files <==> t == files[0] || t in files[1..];
      assert forall k :: HasKey(files, k) <==> k in files[0].conflicts || HasKey(files[1..], k);
    }
  }

  // ----- scheduling -----

  lemma NobodyRunning(n: nat, s: State, w: Worker)
    requires Inv(n, s) && w in s.workers && w !in s.running && |s.workers| == 1
    ensures s.running == map[] && s.owners == map[] && s.waiting == map[] && s.workers == {w}
  {
    assert s.workers == {w} by {
      assert |s.workers - {w}| == 0;
    }
    assert s.running.Keys == {};
  }

  /** What the batch choice sees, after the deferred tests may have been merged in. */
  lemma MergeKeepsInv(n: nat, s: State, w: Worker)
    requires Inv(n, s) && w in s.workers && w !in s.running
    ensures var s' := Merge(s); Inv(n, s')
    ensures var s' := Merge(s); (exists t :: t in s'.pending && NeedsAll(t)) ==> s'.owners == map[] && s'.workers == {w}
    ensures var s' := Merge(s); |s'.workers| == 1 ==> s'.sequential == []
  {
    if |s.workers| == 1 {
      NobodyRunning(n, s, w);
    } else {
      assert |s.workers| > 1 by {
        assert |s.workers - {w}| > 0 || s.workers == {w};
      }
    }
  }

  /** A batch chosen from `s`: it shares no key with a running batch. */
  ghost predicate Chosen(s: State, t: Taken) {
    && WaitingOk(t.waiting, s.owners) && Free(t.files, s.owners)
    && (forall x :: x in t.files || x in t.pending ==> x in s.pending)
    && (t.files == [] ==> t.pending == [])
  }

  lemma ChooseIsChosen(n: nat, cfg: Config, s: State)
    requires Inv(n, s) && s.workers != {}
    requires (exists t :: t in s.pending && NeedsAll(t)) ==> s.owners == map[]
    ensures Chosen(s, Choose(cfg, s))
    ensures |Choose(cfg, s).files| <= BatchSize(cfg, |s.workers|) + 1
  {
    TakeFacts(s.pending, s.waiting, s.owners, [], BatchSize(cfg, |s.workers|));
  }

  lemma DispatchKeepsKeys(n: nat, s: State, w: Worker, t: Taken)
    requires Inv(n, s) && w in s.workers && w !in s.running && Chosen(s, t)
    ensures var s' := Dispatch(s, w, t);
            OrderOk(s'.owners, s'.order) && WaitingOk(s'.waiting, s'.owners) && KeysOwned(s')
  {
    OwnBatchFacts(t.files, w, Owned(s.owners, s.order));
  }

  lemma DispatchKeepsInv(n: nat, s: State, w: Worker, t: Taken)
    requires Inv(n, s) && w in s.workers && w !in s.running && Chosen(s, t) && t.files != []
    requires (exists t :: t in s.pending && NeedsAll(t)) ==> s.owners == map[] && s.workers == {w}
    ensures Inv(n, Dispatch(s, w, t))
  {
    DispatchKeepsKeys(n, s, w, t);
    DispatchKeepsAlone(n, s, w, t);
    DispatchKeepsCounting(n, s, w, t);
  }

  lemma DispatchKeepsCounting(n: nat, s: State, w: Worker, t: Taken)
    requires Counting(n, s) && w in s.workers && w !in s.running && t.files != []
    ensures Counting(n, Dispatch(s, w, t)) && Drained(Dispatch(s, w, t))
  {
    hide OwnBatch;
    RunningGrows(s.running, w, t.files);
    var s' := Dispatch(s, w, t);
    assert s'.running == s.running[w := t.files] && s'.workers == s.workers;
    hide Dispatch;
    forall v | v in s'.running
      ensures s'.running[v] != []
    {
      assert v != w ==> v in s.running && s'.running[v] == s.running[v];
    }
  }

  lemma RunningGrows(running: map<Worker, seq<Test>>, w: Worker, files: seq<Test>)
    requires w !in running
    ensures running[w := files].Keys == running.Keys + {w} && |running[w := files]| == |running| + 1
  {
    assert |running[w := files].Keys| == |running.Keys| + 1;
  }

  lemma DispatchKeepsAlone(n: nat, s: State, w: Worker, t: Taken)
    requires Inv(n, s) && w in s.workers && w !in s.running && Chosen(s, t)
    requires (exists t :: t in s.pending && NeedsAll(t)) ==> s.workers == {w}
    ensures AllRunsAlone(Dispatch(s, w, t))
  {
  }

  lemma RetireKeepsInv(n: nat, s: State, w: Worker, t: Taken)
    requires Inv(n, s) && w in s.workers && w !in s.running && Chosen(s, t) && t.files == []
    requires |s.workers| == 1 ==> s.sequential == []
    ensures Inv(n, Retire(s, w, t))
  {
    if s.workers - {w} == {} {
      assert s.workers == {w};
    }
  }

  lemma ScheduleKeepsInv(n: nat, cfg: Config, s: State, w: Worker)
    requires Inv(n, s) && w in s.workers && w !in s.running
    ensures Inv(n, Schedule(cfg, s, w))
  {
    MergeKeepsInv(n, s, w);
    var m := Merge(s);
    ChooseIsChosen(n, cfg, m);
    var t := Choose(cfg, m);
    if t.files != [] {
      DispatchKeepsInv(n, m, w, t);
    } else {
      RetireKeepsInv(n, m, w, t);
    }
  }

  lemma ScheduleConserves(n: nat, cfg: Config, tests: seq<Test>, s: State, w: Worker, t: Test)
    requires Inv(n, s) && w in s.workers && w !in s.running && ConservedFor(n, tests, s, t)
    ensures ConservedFor(n, tests, Schedule(cfg, s, w), t)
  {
    MergeKeepsInv(n, s, w);
    var m := Merge(s);
    var c := Choose(cfg, m);
    assert ConservedFor(n, tests, m, t);
    TakeConserves(m.pending, m.waiting, m.owners, [], BatchSize(cfg, |m.workers|), m.order, t);
    ChooseIsChosen(n, cfg, m);
    if c.files != [] {
      DispatchConserves(n, tests, m, w, c, t);
    } else {
      RetireConserves(n, tests, m, w, c, t);
    }
  }

  lemma {:induction false} RetireConserves(n: nat, tests: seq<Test>, s: State, w: Worker, c: Taken, t: Test)
    requires ConservedFor(n, tests, s, t) && c.files == []
    requires Count(c.pending, t) + WaitingCount(s.order, c.waiting, t) ==
               Count(s.pending, t) + WaitingCount(s.order, s.waiting, t)
    ensures ConservedFor(n, tests, Retire(s, w, c), t)
  {
  }

  lemma {:induction false} DispatchConserves(n: nat, tests: seq<Test>, s: State, w: Worker, c: Taken, t: Test)
    requires Inv(n, s) && w in s.workers && w !in s.running && Chosen(s, c)
    requires ConservedFor(n, tests, s, t)
    requires Count(c.pending, t) + WaitingCount(s.order, c.waiting, t) + Count(c.files, t)
             == Count(s.pending, t) + WaitingCount(s.order, s.waiting, t)
    ensures ConservedFor(n, tests, Dispatch(s, w, c), t)
  {
    NewKeysAddNothing(n, s, w, c, t);
  }

  /** Newly active keys have nobody waiting yet, so extending the key order counts nothing twice. */
  lemma {:induction false} NewKeysAddNothing(n: nat, s: State, w: Worker, c: Taken, t: Test)
    requires Inv(n, s) && w in s.workers && w !in s.running && Chosen(s, c)
    ensures var s' := Dispatch(s, w, c);
            && WaitingCount(s'.order, s'.waiting, t) == WaitingCount(s.order, c.waiting, t)
            && InFlightCount(n, s'.running, t) == InFlightCount(n, s.running, t) + Count(c.files, t)
  {
    hide OwnBatch, WaitingCount, InFlightCount;
    var o := OwnBatch(c.files, w, Owned(s.owners, s.order));
    OwnBatchFacts(c.files, w, Owned(s.owners, s.order));
    ExtendedOrder(s.owners, s.order, o.order, c.waiting, t);
    InFlightAdd(n, s.running, w, c.files, t);
  }

  lemma {:induction false} ExtendedOrder(owners: map<Key, Worker>, order: seq<Key>, order': seq<Key>,
        waiting: map<Key, seq<Test>>, t: Test)
    requires OrderOk(owners, order) && NoDup(order') && order <= order'
    requires waiting.Keys <= owners.Keys
    ensures WaitingCount(order', waiting, t) == WaitingCount(order, waiting, t)
  {
    hide WaitingCount;
    var added := order'[|order|..];
    assert order' == order + added;
    forall k | k in added
      ensures Get(waiting, k) == []
    {
      var j :| 0 <= j < |added| && added[j] == k;
      assert k == order'[|order| + j];
      assert k !in order;
    }
    WaitingCountConcat(order, added, waiting, t);
    WaitingCountEmpty(added, waiting, t);
  }

  // ----- steps and runs -----

  lemma StepKeepsInv(n: nat, cfg: Config, s: State, w: Worker)
    requires Inv(n, s) && w in s.workers
    ensures Inv(n, Step(cfg, s, w))
  {
    if w in s.running {
      FinishKeepsInv(n, s, w);
      ScheduleKeepsInv(n, cfg, Finish(s, w), w);
    } else {
      ScheduleKeepsInv(n, cfg, s, w);
    }
  }

  lemma StepConserves(n: nat, cfg: Config, tests: seq<Test>, s: State, w: Worker, t: Test)
    requires Inv(n, s) && w in s.workers && ConservedFor(n, tests, s, t)
    ensures ConservedFor(n, tests, Step(cfg, s, w), t)
  {
    if w in s.running {
      FinishKeepsInv(n, s, w);
      FinishConserves(n, tests, s, w, t);
      ScheduleConserves(n, cfg, tests, Finish(s, w), w, t);
    } else {
      ScheduleConserves(n, cfg, tests, s, w, t);
    }
  }

  /** Every message hands out a non-empty batch of at most `batchSize + 1` tests to the
      worker that spoke, or retires that worker. */
  lemma StepMakesProgress(n: nat, cfg: Config, s: State, w: Worker)
    requires Inv(n, s) && w in s.workers
    ensures var s' := Step(cfg, s, w);
            || (s'.workers == s.workers && w in s'.running
                && 1 <= |s'.running[w]| <= BatchSize(cfg, |s.workers|) + 1
                && s'.dispatched == s.dispatched + s'.running[w])
            || (s'.workers == s.workers - {w} && w !in s'.running && s'.dispatched == s.dispatched)
  {
    if w in s.running {
      FinishKeepsInv(n, s, w);
      ScheduleMakesProgress(n, cfg, Finish(s, w), w);
    } else {
      ScheduleMakesProgress(n, cfg, s, w);
    }
  }

  lemma ScheduleMakesProgress(n: nat, cfg: Config, s: State, w: Worker)
    requires Inv(n, s) && w in s.workers && w !in s.running
    ensures var s' := Schedule(cfg, s, w);
            || (s'.workers == s.workers && w in s'.running
                && 1 <= |s'.running[w]| <= BatchSize(cfg, |s.workers|) + 1
                && s'.dispatched == s.dispatched + s'.running[w])
            || (s'.workers == s.workers - {w} && w !in s'.running && s'.dispatched == s.dispatched)
  {
    MergeKeepsInv(n, s, w);
    var m := Merge(s);
    ChooseIsChosen(n, cfg, m);
    hide Inv, Choose, OwnBatch, Chosen;
  }

  lemma {:induction false} InitKeepsInv(shuffle: bool, tests: seq<Test>, requested: int, pending: seq<Test>)
    requires InitialOrder(shuffle, tests, pending)
    ensures Inv(WorkerCount(requested, |Filter(tests, NotNeedsAll)|), Init(tests, requested, pending))
  {
    var parallel := Filter(tests, NotNeedsAll);
    var n := WorkerCount(requested, |parallel|);
    ReverseMultiset(parallel);
    forall t | t in pending
      ensures !NeedsAll(t)
    {
      assert t in multiset(pending);
      FilterMembers(tests, NotNeedsAll, t);
    }
    forall t | t in Filter(tests, NeedsAll)
      ensures NeedsAll(t)
    {
      FilterMembers(tests, NeedsAll, t);
    }
    assert Init(tests, requested, pending).workers != {} by {
      assert 1 in WorkerIds(n);
    }
  }

  lemma {:induction false} PartitionCount(tests: seq<Test>, t: Test)
    ensures Count(Filter(tests, NeedsAll), t) + Count(Filter(tests, NotNeedsAll), t) == Count(tests, t)
  {
    if tests != [] {
      PartitionCount(tests[1..], t);
      assert tests == [tests[0]] + tests[1..];
    }
  }

  lemma {:induction false} InitConserved(shuffle: bool, tests: seq<Test>, requested: int, pending: seq<Test>)
    requires InitialOrder(shuffle, tests, pending)
    ensures Conserved(WorkerCount(requested, |Filter(tests, NotNeedsAll)|), tests, Init(tests, requested, pending))
  {
    var n := WorkerCount(requested, |Filter(tests, NotNeedsAll)|);
    forall t
      ensures ConservedFor(n, tests, Init(tests, requested, pending), t)
    {
      PartitionCount(tests, t);
      ReverseMultiset(Filter(tests, NotNeedsAll));
      InFlightEmpty(n, t);
    }
  }

  lemma {:induction false} RunKeepsInv(n: nat, cfg: Config, s: State, run: seq<Worker>)
    requires Inv(n, s) && ValidRun(cfg, s, run)
    ensures Inv(n, Final(cfg, s, run))
    decreases |run|
  {
    if run != [] {
      StepKeepsInv(n, cfg, s, run[0]);
      RunKeepsInv(n, cfg, Step(cfg, s, run[0]), run[1..]);
    }
  }

  lemma {:induction false} RunConserves(n: nat, cfg: Config, tests: seq<Test>, s: State, run: seq<Worker>, t: Test)
    requires Inv(n, s) && ValidRun(cfg, s, run) && ConservedFor(n, tests, s, t)
    ensures ConservedFor(n, tests, Final(cfg, s, run), t)
    decreases |run|
  {
    if run != [] {
      StepKeepsInv(n, cfg, s, run[0]);
      StepConserves(n, cfg, tests, s, run[0], t);
      RunConserves(n, cfg, tests, Step(cfg, s, run[0]), run[1..], t);
    }
  }

  lemma {:induction false} RunLength(n: nat, cfg: Config, s: State, run: seq<Worker>)
    requires Inv(n, s) && ValidRun(cfg, s, run)
    ensures |run| + |s.dispatched| + |Final(cfg, s, run).workers| <= |Final(cfg, s, run).dispatched| + |s.workers|
    decreases |run|
  {
    if run != [] {
      StepMakesProgress(n, cfg, s, run[0]);
      StepKeepsInv(n, cfg, s, run[0]);
      RunLength(n, cfg, Step(cfg, s, run[0]), run[1..]);
    }
  }

  // ----- the main results -----

  /** The start of a scheduling run and the state it has reached. */
  ghost predicate Reached(cfg: Config, tests: seq<Test>, requested: int, pending: seq<Test>, run: seq<Worker>,
        s: State) {
    && InitialOrder(cfg.shuffle, tests, pending)
    && ValidRun(cfg, Init(tests, requested, pending), run)
    && s == Final(cfg, Init(tests, requested, pending), run)
  }

  ghost function Workers(tests: seq<Test>, requested: int): nat {
    WorkerCount(requested, |Filter(tests, NotNeedsAll)|)
  }

  lemma ReachedInv(cfg: Config, tests: seq<Test>, requested: int, pending: seq<Test>, run: seq<Worker>, s: State)
    requires Reached(cfg, tests, requested, pending, run, s)
    ensures Inv(Workers(tests, requested), s)
    ensures Conserved(Workers(tests, requested), tests, s)
  {
    var n, s0 := Workers(tests, requested), Init(tests, requested, pending);
    InitKeepsInv(cfg.shuffle, tests, requested, pending);
    InitConserved(cfg.shuffle, tests, requested, pending);
    RunKeepsInv(n, cfg, s0, run);
    forall t
      ensures ConservedFor(n, tests, s, t)
    {
      assert ConservedFor(n, tests, s0, t);
      RunConserves(n, cfg, tests, s0, run, t);
    }
  }

  lemma {:induction false} RunAppend(cfg: Config, s: State, run: seq<Worker>, w: Worker)
    requires ValidRun(cfg, s, run) && w in Final(cfg, s, run).workers
    ensures ValidRun(cfg, s, run + [w]) && Final(cfg, s, run + [w]) == Step(cfg, Final(cfg, s, run), w)
    decreases |run|
  {
    if run != [] {
      RunAppend(cfg, Step(cfg, s, run[0]), run[1..], w);
      assert (run + [w])[0] == run[0] && (run + [w])[1..] == run[1..] + [w];
    } else {
      assert (run + [w])[1..] == [];
    }
  }

  lemma ReachedStep(cfg: Config, tests: seq<Test>, requested: int, pending: seq<Test>, run: seq<Worker>, s: State,
        w: Worker)
    requires Reached(cfg, tests, requested, pending, run, s) && w in s.workers
    ensures Reached(cfg, tests, requested, pending, run + [w], Step(cfg, s, w))
  {
    RunAppend(cfg, Init(tests, requested, pending), run, w);
  }

  /** Batches on two workers never share a key, and `activeConflicts` is exactly the
      map from the keys of running batches to their workers. */
  lemma MutualExclusion(cfg: Config, tests: seq<Test>, requested: int, pending: seq<Test>, run: seq<Worker>, s: State)
    requires Reached(cfg, tests, requested, pending, run, s)
    ensures forall v, w, k ::
              v in s.running && w in s.running && HasKey(s.running[v], k) && HasKey(s.running[w], k) ==> v == w
    ensures forall w, k :: w in s.running ==> (HasKey(s.running[w], k) <==> k in s.owners && s.owners[k] == w)
    ensures forall k :: k in s.owners ==> s.owners[k] in s.running
  {
    ReachedInv(cfg, tests, requested, pending, run, s);
    forall v, w, k | v in s.running && w in s.running && HasKey(s.running[v], k) && HasKey(s.running[w], k)
      ensures v == w
    {
      assert s.owners[k] == v && s.owners[k] == w;
    }
  }

  /** While a test that conflicts with `all` runs, no other worker exists. */
  lemma AllRunsWithoutOtherWorkers(cfg: Config, tests: seq<Test>, requested: int, pending: seq<Test>, run: seq<Worker>,
        s: State, w: Worker)
    requires Reached(cfg, tests, requested, pending, run, s)
    requires w in s.running && HasKey(s.running[w], ALL)
    ensures s.workers == {w}
  {
    ReachedInv(cfg, tests, requested, pending, run, s);
    var t :| t in s.running[w] && ALL in t.conflicts;
    assert NeedsAll(t);
  }

  /** Each test is in exactly one place, a test waits only behind a running worker, and
      whenever work is left some worker will still speak. */
  lemma NothingLostOrStranded(cfg: Config, tests: seq<Test>, requested: int, pending: seq<Test>, run: seq<Worker>,
        s: State)
    requires Reached(cfg, tests, requested, pending, run, s)
    ensures Conserved(Workers(tests, requested), tests, s)
    ensures forall k :: k in s.waiting ==> k in s.owners && s.owners[k] in s.running
    ensures s.inProgress == |s.running| >= 0
    ensures Busy(s) ==> s.workers != {}
    ensures s.workers == {} ==> multiset(s.finished) == multiset(tests)
  {
    ReachedInv(cfg, tests, requested, pending, run, s);
    if s.workers == {} {
      IdleMeansFinished(cfg, tests, requested, pending, run, s);
    }
  }

  /** When the coordinator leaves its loop, every test has finished exactly as often as
      it was given, and was sent exactly that often. */
  lemma IdleMeansFinished(cfg: Config, tests: seq<Test>, requested: int, pending: seq<Test>, run: seq<Worker>, s: State)
    requires Reached(cfg, tests, requested, pending, run, s)
    requires !Busy(s)
    ensures s.inProgress == 0
    ensures multiset(s.finished) == multiset(tests) == multiset(s.dispatched)
  {
    var n := Workers(tests, requested);
    ReachedInv(cfg, tests, requested, pending, run, s);
    assert s.running == map[] by {
      assert |s.running.Keys| == 0;
    }
    assert s.waiting == map[];
    forall t
      ensures Count(tests, t) == Count(s.finished, t) == Count(s.dispatched, t)
    {
      assert ConservedFor(n, tests, s, t);
      WaitingCountEmpty(s.order, s.waiting, t);
      InFlightEmpty(n, t);
    }
    assert forall t :: multiset(tests)[t] == Count(tests, t) && multiset(s.finished)[t] == Count(s.finished, t) &&
             multiset(s.dispatched)[t] == Count(s.dispatched, t);
  }

  /** At most one message per test and one per worker is ever handled. */
  lemma Terminates(cfg: Config, tests: seq<Test>, requested: int, pending: seq<Test>, run: seq<Worker>, s: State)
    requires Reached(cfg, tests, requested, pending, run, s)
    ensures |run| <= |tests| + Workers(tests, requested)
  {
    var n, s0 := Workers(tests, requested), Init(tests, requested, pending);
    InitKeepsInv(cfg.shuffle, tests, requested, pending);
    RunLength(n, cfg, s0, run);
    ReachedInv(cfg, tests, requested, pending, run, s);
    forall t
      ensures multiset(s.dispatched)[t] <= multiset(tests)[t]
    {
      assert ConservedFor(n, tests, s, t);
    }
    assert multiset(s.dispatched) <= multiset(tests);
    assert |multiset(tests)| == |multiset(s.dispatched)| + |multiset(tests) - multiset(s.dispatched)|;
  }
}
