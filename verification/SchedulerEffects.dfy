/** What one message does to the coordinator's lists: which tests come back onto the stack,
    which are parked and behind which key, and in which order keys become active. */
module SchedulerEffects {
  import opened Seqs
  import opened SchedulerSpec
  import opened SchedulerSafety
  import opened SchedulerBatches

  // ----- a batch comes back -----

  /** The tests parked behind these keys, key by key, each key's in reverse. */
  ghost function Unparked(keys: seq<Key>, waiting: map<Key, seq<Test>>): seq<Test> {
    if keys == [] then [] else Reverse(Get(waiting, keys[0])) + Unparked(keys[1..], waiting)
  }

  lemma {:induction false} UnparkedAlike(keys: seq<Key>, waiting: map<Key, seq<Test>>, k: Key)
    requires k !in keys
    ensures Unparked(keys, waiting - {k}) == Unparked(keys, waiting)
  {
    if keys != [] {
      UnparkedAlike(keys[1..], waiting, k);
    }
  }

  function OwnedBy(owners: map<Key, Worker>, w: Worker): Key -> bool { k => k in owners && owners[k] == w }

  function NotOwnedBy(owners: map<Key, Worker>, w: Worker): Key -> bool { k => !(k in owners && owners[k] == w) }

  /** Giving up one key, and then those that follow it. */
  lemma {:induction false} GivenUp(order: seq<Key>, w: Worker, owners: map<Key, Worker>, waiting: map<Key, seq<Test>>)
    requires NoDup(order) && order != [] && order[0] in owners && owners[order[0]] == w
    ensures var k, rest := order[0], order[1..];
            var owners', mine := owners - {k}, Filter(order, OwnedBy(owners, w));
            var mine' := Filter(rest, OwnedBy(owners', w));
            && mine == [k] + mine'
            && Filter(order, NotOwnedBy(owners, w)) == Filter(rest, NotOwnedBy(owners', w))
            && Unparked(mine, waiting) == Reverse(Get(waiting, k)) + Unparked(mine', waiting - {k})
            && (set j | j in mine) == {k} + (set j | j in mine')
  {
    hide Reverse, Get;
    var k, rest := order[0], order[1..];
    var owners' := owners - {k};
    FilterAlike(rest, OwnedBy(owners, w), OwnedBy(owners', w));
    FilterAlike(rest, NotOwnedBy(owners, w), NotOwnedBy(owners', w));
    var mine' := Filter(rest, OwnedBy(owners', w));
    FilterMembers(rest, OwnedBy(owners', w), k);
    UnparkedAlike(mine', waiting, k);
    assert ([k] + mine')[1..] == mine';
  }

  /** Giving up the keys of a worker, for a list of keys without repetition: its keys leave
      the list and the maps, and the tests parked behind them come back on top of the stack,
      key by key in the order of the list. */
  lemma {:induction false} ReleaseIs(order: seq<Key>, w: Worker, owners: map<Key, Worker>,
        waiting: map<Key, seq<Test>>, pending: seq<Test>)
    requires NoDup(order)
    ensures var r, mine := Release(order, w, owners, waiting, pending), Filter(order, OwnedBy(owners, w));
            && r.order == Filter(order, NotOwnedBy(owners, w))
            && r.owners == owners - (set k | k in mine) && r.waiting == waiting - (set k | k in mine)
            && r.pending == pending + Unparked(mine, waiting)
    decreases |order|
  {
    hide Reverse, Unparked, Get;
    if order == [] {
      assert pending + Unparked([], waiting) == pending by { NothingParked(waiting); }
    } else {
      var k, rest := order[0], order[1..];
      if k in owners && owners[k] == w {
        GivenUp(order, w, owners, waiting);
        hide Filter;
        var owners', waiting' := owners - {k}, waiting - {k};
        var back := Reverse(Get(waiting, k));
        ReleaseIs(rest, w, owners', waiting', pending + back);
        Regroup(pending, back, Unparked(Filter(rest, OwnedBy(owners', w)), waiting'));
      } else {
        ReleaseIs(rest, w, owners, waiting, pending);
      }
    }
  }

  lemma {:induction false} NothingParked(waiting: map<Key, seq<Test>>)
    ensures Unparked([], waiting) == []
  {
  }

  // ----- a batch is collected -----

  /** Key `k` is the first of the test's keys that is active. */
  ghost predicate FirstBlocking(t: Test, k: Key, owners: map<Key, Worker>) {
    exists j :: 0 <= j < |t.conflicts| && t.conflicts[j] == k && k in owners
                && forall i :: 0 <= i < j ==> t.conflicts[i] !in owners
  }

  lemma {:induction false} FirstActiveIs(keys: seq<Key>, owners: map<Key, Worker>, k: Key)
    ensures FirstActive(keys, owners) == Some(k)
       <==> exists j :: 0 <= j < |keys| && keys[j] == k && k in owners && forall i :: 0 <= i < j ==> keys[i] !in owners
  {
    if keys != [] && keys[0] !in owners {
      var rest := keys[1..];
      FirstActiveIs(rest, owners, k);
      if j :| 0 <= j < |rest| && rest[j] == k && k in owners && forall i :: 0 <= i < j ==> rest[i] !in owners {
        assert keys[j + 1] == k && forall i :: 0 < i < j + 1 ==> keys[i] == rest[i - 1];
      }
      if j :| 0 <= j < |keys| && keys[j] == k && k in owners && forall i :: 0 <= i < j ==> keys[i] !in owners {
        assert rest[j - 1] == k && forall i :: 0 <= i < j - 1 ==> rest[i] == keys[i + 1];
      }
    }
  }

  ghost function BlockedBy(k: Key, owners: map<Key, Worker>): Test -> bool {
    (t: Test) => FirstActive(t.conflicts, owners) == Some(k)
  }

  /** Collecting stops at the end of the stack, or once the batch is full and then right
      below a test it took. */
  lemma {:induction false} TakeStops(pending: seq<Test>, waiting: map<Key, seq<Test>>, owners: map<Key, Worker>,
                                     files: seq<Test>, batchSize: nat)
    ensures var r := Take(pending, waiting, owners, files, batchSize);
            && |r.pending| <= |pending| && r.pending == pending[..|r.pending|]
            && (r.pending != [] ==> |r.files| > batchSize)
            && (|r.pending| == |pending| ==> r.files == files)
            && (|r.pending| < |pending| && |r.files| > batchSize ==> IsFree(pending[|r.pending|], owners))
    decreases |pending|
  {
    hide FirstActive;
    if |files| <= batchSize && pending != [] {
      var x, rest := pending[|pending| - 1], pending[..|pending| - 1];
      var blocker := FirstActive(x.conflicts, owners);
      if blocker.Some? {
        TakeStops(rest, waiting[blocker.value := Get(waiting, blocker.value) + [x]], owners, files, batchSize);
      } else {
        TakeStops(rest, waiting, owners, files + [x], batchSize);
      }
    }
  }

  /** Of the tests popped, those that are not free are parked behind the first of their keys
      that is active, in the order in which they are popped. */
  lemma {:induction false} TakeParks(pending: seq<Test>, waiting: map<Key, seq<Test>>, owners: map<Key, Worker>,
                                     files: seq<Test>, batchSize: nat, k: Key)
    ensures var r := Take(pending, waiting, owners, files, batchSize);
            && |r.pending| <= |pending|
            && Get(r.waiting, k)
               == Get(waiting, k) + Filter(Reverse(pending[|r.pending|..]), BlockedBy(k, owners))
    decreases |pending|
  {
    hide Filter, Reverse, FirstActive;
    if |files| > batchSize || pending == [] {
      assert pending[|pending|..] == [];
      NothingFiltered(owners);
    } else {
      var x, rest := pending[|pending| - 1], pending[..|pending| - 1];
      var blocker := FirstActive(x.conflicts, owners);
      var waiting', files' := waiting, files;
      if blocker.Some? {
        waiting' := waiting[blocker.value := Get(waiting, blocker.value) + [x]];
      } else {
        files' := files + [x];
      }
      TakeParks(rest, waiting', owners, files', batchSize, k);
      var r := Take(rest, waiting', owners, files', batchSize);
      assert Take(pending, waiting, owners, files, batchSize) == r;
      hide Take;
      var popped := pending[|r.pending|..];
      assert popped[..|popped| - 1] == rest[|r.pending|..];
      FilterPop(popped, BlockedBy(k, owners));
      var others := Filter(Reverse(rest[|r.pending|..]), BlockedBy(k, owners));
      if blocker == Some(k) {
        Regroup(Get(waiting, k), [x], others);
      }
    }
  }

  lemma {:induction false} NothingFiltered(owners: map<Key, Worker>)
    ensures forall k :: Filter(Reverse<Test>([]), BlockedBy(k, owners)) == []
  {
  }

  // ----- the keys of a batch become active -----

  function KeysOf(files: seq<Test>): seq<Key> {
    if files == [] then [] else files[0].conflicts + KeysOf(files[1..])
  }

  /** `added` are the keys that were not active yet, in the order of their first use. */
  ghost predicate NewKeys(added: seq<Key>, keys: seq<Key>, owners: map<Key, Worker>) {
    && (forall k :: k in added <==> k in keys && k !in owners)
    && forall i, j :: 0 <= i < j < |added| ==> UsedBefore(keys, added[i], added[j])
  }

  ghost predicate UsedBefore(keys: seq<Key>, k: Key, later: Key) {
    exists p :: 0 <= p < |keys| && keys[p] == k && later !in keys[..p + 1]
  }

  lemma UsedCons(k0: Key, keys: seq<Key>, k: Key, later: Key)
    requires UsedBefore(keys, k, later) && later != k0
    ensures UsedBefore([k0] + keys, k, later)
  {
    var p :| 0 <= p < |keys| && keys[p] == k && later !in keys[..p + 1];
    var all := [k0] + keys;
    assert all[..p + 2] == [k0] + keys[..p + 1];
    assert all[p + 1] == k && later !in all[..p + 2];
  }

  lemma UsedFirst(keys: seq<Key>, later: Key)
    requires keys != [] && later != keys[0]
    ensures UsedBefore(keys, keys[0], later)
  {
    assert keys[..1] == [keys[0]];
  }

  /** One key before the others. */
  lemma {:induction false} NewKeysCons(k0: Key, rest: seq<Key>, owners: map<Key, Worker>, w: Worker, added: seq<Key>)
    requires NewKeys(added, rest, owners[k0 := w])
    ensures NewKeys(if k0 in owners then added else [k0] + added, [k0] + rest, owners)
  {
    hide UsedBefore;
    var all, keys := if k0 in owners then added else [k0] + added, [k0] + rest;
    forall k
      ensures k in all <==> k in keys && k !in owners
    {
      assert k in keys <==> k == k0 || k in rest;
      assert k in [k0] + added <==> k == k0 || k in added;
    }
    forall i, j | 0 <= i < j < |all|
      ensures UsedBefore(keys, all[i], all[j])
    {
      assert all[j] in added;
      if i == 0 && k0 !in owners {
        UsedFirst(keys, all[j]);
      } else {
        UsedCons(k0, rest, all[i], all[j]);
      }
    }
  }

  lemma {:induction false} OwnKeysOrder(keys: seq<Key>, w: Worker, o: Owned)
    ensures var r := OwnKeys(keys, w, o);
            o.order <= r.order && NewKeys(r.order[|o.order|..], keys, o.owners)
    decreases |keys|
  {
    hide NewKeys;
    if keys == [] {
      NothingNew(o.owners);
      assert o.order[|o.order|..] == [];
    } else {
      var k0, rest := keys[0], keys[1..];
      var o' := Owned(o.owners[k0 := w], if k0 in o.owners then o.order else o.order + [k0]);
      OwnKeysOrder(rest, w, o');
      var order := OwnKeys(rest, w, o').order;
      hide OwnKeys;
      assert keys == [k0] + rest;
      NewKeysCons(k0, rest, o.owners, w, order[|o'.order|..]);
      assert order[|o.order|..] == if k0 in o.owners then order[|o'.order|..] else [k0] + order[|o'.order|..];
    }
  }

  lemma {:induction false} OwnKeysOwners(keys: seq<Key>, w: Worker, o: Owned)
    ensures OwnKeys(keys, w, o).owners == o.owners + (map k | k in keys :: w)
    decreases |keys|
  {
    if keys != [] {
      OwnKeysOwners(keys[1..], w,
                    Owned(o.owners[keys[0] := w], if keys[0] in o.owners then o.order else o.order + [keys[0]]));
    }
  }

  lemma NothingNew(owners: map<Key, Worker>)
    ensures NewKeys([], [], owners)
  {
  }

  lemma {:induction false} OwnKeysConcat(a: seq<Key>, b: seq<Key>, w: Worker, o: Owned)
    ensures OwnKeys(a + b, w, o) == OwnKeys(b, w, OwnKeys(a, w, o))
    decreases |a|
  {
    if a == [] {
      assert a + b == b;
    } else {
      OwnKeysConcat(a[1..], b, w, Owned(o.owners[a[0] := w], if a[0] in o.owners then o.order else o.order + [a[0]]));
      assert (a + b)[1..] == a[1..] + b;
    }
  }

  lemma {:induction false} OwnBatchIs(files: seq<Test>, w: Worker, o: Owned)
    ensures OwnBatch(files, w, o) == OwnKeys(KeysOf(files), w, o)
    decreases |files|
  {
    hide OwnKeys;
    if files == [] {
      NoKeys(w, o);
    } else {
      OwnBatchIs(files[1..], w, OwnKeys(files[0].conflicts, w, o));
      OwnKeysConcat(files[0].conflicts, KeysOf(files[1..]), w, o);
    }
  }

  lemma {:induction false} NoKeys(w: Worker, o: Owned)
    ensures OwnKeys([], w, o) == o
  {
  }

  // ----- one message -----

  /** A batch that comes back frees its worker's keys and puts the tests parked behind them
      on top of the stack, key by key in the order in which the keys became active. */
  lemma {:induction false} FinishEffect(n: nat, s: State, w: Worker)
    requires Inv(n, s) && w in s.running
    ensures var s', mine := Finish(s, w), Filter(s.order, (k: Key) => k in s.owners && s.owners[k] == w);
            && s'.order == Filter(s.order, (k: Key) => k in s.owners && s.owners[k] != w)
            && s'.owners == s.owners - (set k | k in mine) && s'.waiting == s.waiting - (set k | k in mine)
            && s'.pending == s.pending + Unparked(mine, s.waiting)
            && s'.running == s.running - {w} && s'.finished == s.finished + s.running[w]
            && s'.inProgress == s.inProgress - 1
  {
    hide Filter, Unparked, Release, Counting, KeysOwned, WaitingOk, AllRunsAlone, Drained;
    ReleaseIs(s.order, w, s.owners, s.waiting, s.pending);
    FilterAlike(s.order, OwnedBy(s.owners, w), (k: Key) => k in s.owners && s.owners[k] == w);
    FilterAlike(s.order, NotOwnedBy(s.owners, w), (k: Key) => k in s.owners && s.owners[k] != w);
  }

  /** Where the tests popped at a message go that are not sent: behind the first of their
      keys that is active; and in which order the keys of the batch become active. */
  lemma {:induction false} MessageEffect(cfg: Config, s: State, w: Worker)
    requires w in s.workers
    ensures var m, s' := Offered(s, w), Step(cfg, s, w);
            && |s'.pending| <= |m.pending| && s'.pending == m.pending[..|s'.pending|]
            && (s'.pending != [] ==>
                  |s'.pending| < |m.pending| && forall k :: k in m.pending[|s'.pending|].conflicts ==> k !in m.owners)
            && (forall k :: Get(s'.waiting, k)
                         == Get(m.waiting, k)
                            + Filter(Reverse(m.pending[|s'.pending|..]), (t: Test) => FirstBlocking(t, k, m.owners)))
    ensures var m, s' := Offered(s, w), Step(cfg, s, w);
            && (s'.workers == s.workers ==>
                  && w in s'.running && s'.owners == m.owners + (map k | k in KeysOf(s'.running[w]) :: w)
                  && m.order <= s'.order
                  && NewKeys(s'.order[|m.order|..], KeysOf(s'.running[w]), m.owners))
            && (s'.workers != s.workers ==>
                  && s'.workers == s.workers - {w} && s'.order == m.order && s'.owners == m.owners
                  && s'.pending == [])
  {
    hide Filter, Reverse, FirstActive, FirstBlocking, Finish, NewKeys, OwnBatch, KeysOf, BatchSize, Take, OwnKeys;
    var m, s' := Offered(s, w), Step(cfg, s, w);
    assert m.workers == s.workers by { SameWorkers(s, w); }
    var size := BatchSize(cfg, |m.workers|);
    var r := Take(m.pending, m.waiting, m.owners, [], size);
    assert s' == if r.files != [] then Dispatch(m, w, r) else Retire(m, w, r);
    TakeStops(m.pending, m.waiting, m.owners, [], size);
    UntilFull(cfg, s, w);
    var popped := Reverse(m.pending[|r.pending|..]);
    forall k
      ensures Get(r.waiting, k)
           == Get(m.waiting, k) + Filter(popped, (t: Test) => FirstBlocking(t, k, m.owners))
    {
      TakeParks(m.pending, m.waiting, m.owners, [], size, k);
      BlockedAlike(popped, k, m.owners);
    }
    if r.files != [] {
      OwnBatchIs(r.files, w, Owned(m.owners, m.order));
      OwnKeysOrder(KeysOf(r.files), w, Owned(m.owners, m.order));
      OwnKeysOwners(KeysOf(r.files), w, Owned(m.owners, m.order));
    }
  }

  /** The stack is emptied unless the batch is filled, and then the last test popped is sent. */
  lemma {:induction false} UntilFull(cfg: Config, s: State, w: Worker)
    requires w in s.workers
    ensures var m, s' := Offered(s, w), Step(cfg, s, w);
            s'.pending != [] ==>
              && |Batch(s'.running, w)| > BatchSize(cfg, |s.workers|)
              && |s'.pending| < |m.pending| && IsFree(m.pending[|s'.pending|], m.owners)
  {
    hide FirstActive, Finish, OwnBatch, BatchSize, Take;
    var m, s' := Offered(s, w), Step(cfg, s, w);
    SameWorkers(s, w);
    var size := BatchSize(cfg, |m.workers|);
    var r := Take(m.pending, m.waiting, m.owners, [], size);
    assert s' == if r.files != [] then Dispatch(m, w, r) else Retire(m, w, r);
    TakeStops(m.pending, m.waiting, m.owners, [], size);
  }

  lemma SameWorkers(s: State, w: Worker)
    ensures Offered(s, w).workers == s.workers
  {
  }

  lemma {:induction false} BlockedAlike(tests: seq<Test>, k: Key, owners: map<Key, Worker>)
    ensures Filter(tests, BlockedBy(k, owners)) == Filter(tests, (t: Test) => FirstBlocking(t, k, owners))
  {
    hide FirstActive;
    forall t: Test
      ensures BlockedBy(k, owners)(t) == FirstBlocking(t, k, owners)
    {
      FirstActiveIs(t.conflicts, owners, k);
    }
    FilterAlike(tests, BlockedBy(k, owners), (t: Test) => FirstBlocking(t, k, owners));
  }

  // ----- how much is sent -----

  /** The least number of files per worker, at least one, that covers all of them. */
  ghost predicate LeastShare(share: nat, workers: nat, files: nat) {
    && share >= 1 && share * workers >= files
    && forall k: nat :: 1 <= k < share ==> k * workers < files
  }

  lemma Product(q: nat, w: nat, x: nat, r: nat)
    requires w > 0 && x == q * w + r && r < w && x >= w - 1
    ensures q * w >= x - (w - 1)
  {
  }

  lemma Smaller(k: nat, q: nat, w: nat)
    requires k < q
    ensures k * w + w <= q * w
  {
    assert q == k + 1 + (q - k - 1);
    var d: nat := q - k - 1;
    assert q * w == k * w + w + d * w && d * w >= 0;
  }

  /** The quotient rounded up is the least share. */
  lemma {:induction false} RoundedUp(workers: nat, files: nat)
    requires workers > 0
    ensures var average := (files + workers - 1) / workers;
            LeastShare(if average >= 1 then average else 1, workers, files)
  {
    var x: nat := files + workers - 1;
    var q, r := x / workers, x % workers;
    assert x == q * workers + r;
    Product(q, workers, x, r);
    forall k: nat | 1 <= k < q
      ensures k * workers < files
    {
      Smaller(k, q, workers);
    }
    if q == 0 {
      assert q * workers == 0;
    }
  }

  /** How many tests a worker is sent at a message: the free tests on the stack, those none
      of whose keys is active, but at most one more than the smaller of two numbers, the
      limit of the mode and the least share of the files per worker. */
  lemma {:induction false} BatchLength(n: nat, cfg: Config, s: State, w: Worker) returns (share: nat)
    requires Inv(n, s) && w in s.workers
    ensures LeastShare(share, |s.workers|, cfg.totalFileCount)
    ensures var m, limit := Offered(s, w), if cfg.valgrind then 1 else if cfg.shuffle then 4 else 32;
            var free := Filter(Reverse(m.pending), (t: Test) => forall k :: k in t.conflicts ==> k !in m.owners);
            var most := 1 + if limit <= share then limit else share;
            var length := if |free| <= most then |free| else most;
            var s' := Step(cfg, s, w);
            && |Batch(s'.running, w)| == length && Batch(s'.running, w) == free[..length]
            && (length < most ==> s'.pending == [])
  {
    hide Inv, Offered, Step, Filter, Reverse, LeastShare, FirstActive;
    var average := (cfg.totalFileCount + |s.workers| - 1) / |s.workers|;
    share := if average >= 1 then average else 1;
    RoundedUp(|s.workers|, cfg.totalFileCount);
    BatchIsFirstFree(n, cfg, s, w);
    UntilFull(cfg, s, w);
    var m := Offered(s, w);
    FilterAlike(Reverse(m.pending), FreeOf(m.owners),
                (t: Test) => forall k :: k in t.conflicts ==> k !in m.owners);
  }

  /** As many workers are started as requested, but no more than there are tests that can
      run beside others, and at least one. */
  lemma {:induction false} WorkersStarted(tests: seq<Test>, requested: int, pending: seq<Test>)
    ensures var most := |Filter(tests, (t: Test) => "all" !in t.conflicts)|;
            |Init(tests, requested, pending).workers|
            == if requested < 1 || most < 1 then 1 else if requested <= most then requested else most
  {
    hide Filter, WorkerIds;
    FilterAlike(tests, NotNeedsAll, (t: Test) => "all" !in t.conflicts);
  }
}
