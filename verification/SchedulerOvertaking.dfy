/** The runs that break the original order: for every pair of tests with a common key that
    is not aligned on it or conflicts with `all`, a test list and a run in which the later
    one is sent first. */
module SchedulerOvertaking {
  import opened Seqs
  import opened SchedulerSpec
  import opened SchedulerSafety
  import opened SchedulerPairs

  function Cfg(valgrind: bool, n: nat): Config { Config(valgrind, false, n) }

  /** As many live workers as tests that can run beside others make the batch size 1, so a
      worker is sent up to two tests at a time. */
  lemma SizeOne(valgrind: bool, n: nat)
    requires n > 0
    ensures BatchSize(Cfg(valgrind, n), n) == 1
  {
    assert (n + n - 1) / n == 1;
  }

  // ----- the other tests of a list -----

  /** A text longer than any in the list. */
  function Longer(texts: seq<string>): (q: string)
    ensures forall x :: x in texts ==> |x| < |q|
    ensures |q| > 3
  {
    if texts == [] then "aaaa" else texts[0] + Longer(texts[1..])
  }

  /** `n` file names, each longer than the ones before it and than those in use. */
  function Names(used: seq<string>, n: nat): (names: seq<string>)
    ensures |names| == n
    ensures forall i, u :: 0 <= i < n && u in used ==> |u| < |names[i]|
    ensures forall i, j :: 0 <= i < j < n ==> |names[i]| < |names[j]|
    decreases n
  {
    if n == 0 then []
    else
      var q := Longer(used);
      var rest := Names([q], n - 1);
      assert q in [q];
      [q] + rest
  }

  /** Neither `b` nor `c` is among the tests `others`, which are distinct files. */
  ghost predicate Others(others: seq<Test>, b: Test, c: Test) {
    DistinctFiles(others) && forall t :: t in others ==> t.file != b.file && t.file != c.file
  }

  /** Other tests with the given keys. */
  lemma Fillers(b: Test, c: Test, keys: seq<seq<Key>>) returns (others: seq<Test>)
    ensures |others| == |keys| && Others(others, b, c)
    ensures forall i :: 0 <= i < |keys| ==> others[i].conflicts == keys[i]
  {
    hide Names;
    var names := Names([b.file, c.file], |keys|);
    assert b.file in [b.file, c.file] && c.file in [b.file, c.file];
    others := seq(|keys|, i requires 0 <= i < |keys| => Test(names[i], keys[i]));
  }

  lemma DistinctInsert(front: seq<Test>, back: seq<Test>, t: Test)
    requires DistinctFiles(front + back) && forall u :: u in front + back ==> u.file != t.file
    ensures DistinctFiles(front + [t] + back)
  {
    var old_, new_ := front + back, front + [t] + back;
    forall i, j | 0 <= i < j < |new_|
      ensures new_[i].file != new_[j].file
    {
      var i' := if i < |front| then i else i - 1;
      var j' := if j < |front| then j else j - 1;
      assert i != |front| ==> new_[i] == old_[i'] && old_[i'] in old_;
      assert j != |front| ==> new_[j] == old_[j'] && old_[j'] in old_;
    }
  }

  /** `b` and `c` among other tests make a list of distinct files. */
  lemma Mixed(front: seq<Test>, mid: seq<Test>, back: seq<Test>, b: Test, c: Test)
    requires b.file != c.file && Others(front + mid + back, b, c)
    ensures DistinctFiles(front + [b] + mid + [c] + back) && Before(front + [b] + mid + [c] + back, b, c)
  {
    hide DistinctFiles;
    assert front + mid + back == front + (mid + back);
    DistinctInsert(front, mid + back, b);
    assert front + [b] + (mid + back) == front + [b] + mid + back;
    DistinctInsert(front + [b] + mid, back, c);
    PickPair(front, mid, back, b, c);
  }

  /** A run on such a list in which `c` is the first of the two to be sent. */
  lemma Overtaken(valgrind: bool, front: seq<Test>, mid: seq<Test>, back: seq<Test>, run: seq<Worker>, s: State,
        b: Test, c: Test, sent: seq<Test>, rest: seq<Test>)
    requires b.file != c.file && Others(front + mid + back, b, c)
    requires Going(valgrind, front + [b] + mid + [c] + back, run, s) && s.dispatched == sent + [c] + rest
    requires forall t :: t in sent ==> t in front + mid + back
    ensures !NeverOvertaken(b, c, valgrind)
  {
    hide Others, DistinctFiles, Before, Reached;
    var tests := front + [b] + mid + [c] + back;
    Mixed(front, mid, back, b, c);
    NoneIsEither(front + mid + back, b, c);
    PickLast(sent, rest, b, c);
    FilterAll(tests, NotNeedsAll);
    hide Filter;
    assert Unshuffled(Cfg(valgrind, |tests|), tests) && !FirstSent(s, b, c);
  }

  lemma NoneIsEither(others: seq<Test>, b: Test, c: Test)
    requires Others(others, b, c)
    ensures forall t :: t in others ==> !IsEither(t, b, c)
  {
  }

  // ----- taking a batch, test by test -----

  lemma {:induction false} Park(rest: seq<Test>, x: Test, waiting: map<Key, seq<Test>>, owners: map<Key, Worker>,
        files: seq<Test>, size: nat, z: Key)
    requires |files| <= size && FirstActive(x.conflicts, owners) == Some(z)
    ensures Take(rest + [x], waiting, owners, files, size) ==
              Take(rest, waiting[z := Get(waiting, z) + [x]], owners, files, size)
  {
    hide FirstActive;
    assert (rest + [x])[..|rest|] == rest;
  }

  lemma {:induction false} Collect(rest: seq<Test>, x: Test, waiting: map<Key, seq<Test>>, owners: map<Key, Worker>,
        files: seq<Test>, size: nat)
    requires |files| <= size && FirstActive(x.conflicts, owners) == None
    ensures Take(rest + [x], waiting, owners, files, size) == Take(rest, waiting, owners, files + [x], size)
  {
    hide FirstActive;
    assert (rest + [x])[..|rest|] == rest;
  }

  lemma {:induction false} Full(pending: seq<Test>, waiting: map<Key, seq<Test>>, owners: map<Key, Worker>,
        files: seq<Test>, size: nat)
    requires |files| > size || pending == []
    ensures Take(pending, waiting, owners, files, size) == Taken(pending, waiting, files)
  {
  }

  /** Two free tests on top of the stack make up a batch if it is full or they are all. */
  lemma {:induction false} CollectTwo(rest: seq<Test>, y: Test, x: Test, waiting: map<Key, seq<Test>>,
        owners: map<Key, Worker>, size: nat)
    requires size == 1 || (size > 1 && rest == [])
    requires FirstActive(x.conflicts, owners) == None && FirstActive(y.conflicts, owners) == None
    ensures Take(rest + [y, x], waiting, owners, [], size) == Taken(rest, waiting, [x, y])
  {
    hide FirstActive, Take;
    assert rest + [y, x] == (rest + [y]) + [x] && [] + [x] == [x];
    Collect(rest + [y], x, waiting, owners, [], size);
    Collect(rest, y, waiting, owners, [x], size);
    assert [x] + [y] == [x, y];
    Full(rest, waiting, owners, [x, y], size);
  }

  // ----- steps -----

  lemma ScheduleIs(cfg: Config, s: State, w: Worker, t: Taken)
    requires w in s.workers && s.sequential == [] && Choose(cfg, s) == t
    ensures Schedule(cfg, s, w) == if t.files != [] then Dispatch(s, w, t) else Retire(s, w, t)
  {
    hide Take, OwnBatch;
  }

  /** The keys of a batch of two, the second without keys. */
  lemma {:induction false} OwnOne(x: Test, y: Test, k: Key, w: Worker, owners: map<Key, Worker>, order: seq<Key>)
    requires x.conflicts == [k] && y.conflicts == [] && k !in owners
    ensures OwnBatch([x, y], w, Owned(owners, order)) == Owned(owners[k := w], order + [k])
  {
    var o := Owned(owners, order);
    assert [k][1..] == [] && [x, y][1..] == [y] && [y][1..] == [];
    assert OwnKeys([k], w, o) == OwnKeys([], w, Owned(owners[k := w], order + [k]));
    assert OwnBatch([x, y], w, o) == OwnBatch([y], w, OwnKeys([k], w, o)) ==
             OwnBatch([], w, OwnKeys([], w, OwnKeys([k], w, o)));
  }

  /** A run so far: an unshuffled list without tests for `all`, and a worker for each test. */
  ghost predicate Going(valgrind: bool, tests: seq<Test>, run: seq<Worker>, s: State) {
    && |tests| >= 2
    && Reached(Cfg(valgrind, |tests|), tests, |tests|, Reverse(tests), run, s) && s.sequential == []
    && forall t :: t in tests ==> NotNeedsAll(t)
  }

  lemma Begin(valgrind: bool, tests: seq<Test>) returns (s: State)
    requires |tests| >= 2 && forall t :: t in tests ==> NotNeedsAll(t)
    ensures Going(valgrind, tests, [], s)
    ensures s.pending == Reverse(tests) && s.waiting == map[] && s.owners == map[] && s.order == []
    ensures s.running == map[] && s.dispatched == []
    ensures |s.workers| == |tests| && forall w :: w in s.workers <==> 1 <= w <= |tests|
  {
    hide Reverse;
    FilterAll(tests, NotNeedsAll);
    FilterNone(tests, NeedsAll);
    hide Filter;
    s := Init(tests, |tests|, Reverse(tests));
  }

  /** What the worker is offered next. */
  ghost predicate Takes(valgrind: bool, tests: seq<Test>, s: State, t: Taken) {
    s.workers != {} && Choose(Cfg(valgrind, |tests|), s) == t
  }

  /** An idle worker is sent a batch. */
  lemma Sent(valgrind: bool, tests: seq<Test>, run: seq<Worker>, s: State, w: Worker, t: Taken) returns (s': State)
    requires Going(valgrind, tests, run, s) && w in s.workers && w !in s.running
    requires Takes(valgrind, tests, s, t) && t.files != []
    ensures Going(valgrind, tests, run + [w], s') && s' == Dispatch(s, w, t)
  {
    hide Reached, Schedule, OwnBatch, Choose, Init;
    var cfg := Cfg(valgrind, |tests|);
    ScheduleIs(cfg, s, w, t);
    s' := Step(cfg, s, w);
    ReachedStep(cfg, tests, |tests|, Reverse(tests), run, s, w);
  }

  /** An idle worker finds nothing to do. */
  lemma Retired(valgrind: bool, tests: seq<Test>, run: seq<Worker>, s: State, w: Worker, t: Taken)
    returns (s': State)
    requires Going(valgrind, tests, run, s) && w in s.workers && w !in s.running
    requires Takes(valgrind, tests, s, t) && t.files == []
    ensures Going(valgrind, tests, run + [w], s') && s' == Retire(s, w, t)
  {
    hide Reached, Schedule, Choose, Init;
    var cfg := Cfg(valgrind, |tests|);
    ScheduleIs(cfg, s, w, t);
    s' := Step(cfg, s, w);
    ReachedStep(cfg, tests, |tests|, Reverse(tests), run, s, w);
  }

  /** A busy worker reports back and is sent another batch. */
  lemma BackAndSent(valgrind: bool, tests: seq<Test>, run: seq<Worker>, s: State, w: Worker, t: Taken)
    returns (s': State)
    requires Going(valgrind, tests, run, s) && w in s.workers && w in s.running
    requires Takes(valgrind, tests, Finish(s, w), t) && t.files != []
    ensures Going(valgrind, tests, run + [w], s') && s' == Dispatch(Finish(s, w), w, t)
  {
    hide Reached, Schedule, OwnBatch, Choose, Release, Init;
    var cfg := Cfg(valgrind, |tests|);
    ScheduleIs(cfg, Finish(s, w), w, t);
    s' := Step(cfg, s, w);
    ReachedStep(cfg, tests, |tests|, Reverse(tests), run, s, w);
  }

  /** A busy worker reports back and there is nothing to do for it. */
  lemma BackAndRetired(valgrind: bool, tests: seq<Test>, run: seq<Worker>, s: State, w: Worker, t: Taken)
    returns (s': State)
    requires Going(valgrind, tests, run, s) && w in s.workers && w in s.running
    requires Takes(valgrind, tests, Finish(s, w), t) && t.files == []
    ensures Going(valgrind, tests, run + [w], s') && s' == Retire(Finish(s, w), w, t)
  {
    hide Reached, Schedule, Choose, Release, Init;
    var cfg := Cfg(valgrind, |tests|);
    ScheduleIs(cfg, Finish(s, w), w, t);
    s' := Step(cfg, s, w);
    ReachedStep(cfg, tests, |tests|, Reverse(tests), run, s, w);
  }

  /** The two tests of interest among others. */
  lemma {:induction false} PickPair(front: seq<Test>, mid: seq<Test>, back: seq<Test>, b: Test, c: Test)
    requires forall t :: t in front || t in mid || t in back ==> !IsEither(t, b, c)
    ensures Filter(front + [b] + mid + [c] + back, Either(b, c)) == [b, c]
  {
    var p := Either(b, c);
    FilterNone(front, p);
    FilterNone(mid, p);
    FilterNone(back, p);
    FilterSnoc(front, b, p);
    FilterConcat(front + [b], mid, p);
    FilterSnoc(front + [b] + mid, c, p);
    FilterConcat(front + [b] + mid + [c], back, p);
  }

  lemma {:induction false} PickLast(front: seq<Test>, back: seq<Test>, b: Test, c: Test)
    requires forall t :: t in front ==> !IsEither(t, b, c)
    ensures Filter(front + [c] + back, Either(b, c)) != [] && Filter(front + [c] + back, Either(b, c))[0] == c
  {
    FilterNone(front, Either(b, c));
    FilterSnoc(front, c, Either(b, c));
    FilterConcat(front + [c], back, Either(b, c));
  }

  lemma {:induction false} BlockedBy(t: Test, owners: map<Key, Worker>, z: Key)
    requires z in t.conflicts && z in owners && forall x :: x in t.conflicts && x in owners ==> x == z
    ensures FirstActive(t.conflicts, owners) == Some(z)
  {
    hide FirstActive;
  }

  lemma {:induction false} Unblocked(t: Test, owners: map<Key, Worker>)
    requires forall x :: x in t.conflicts ==> x !in owners
    ensures FirstActive(t.conflicts, owners) == None
  {
    hide FirstActive;
  }

  /** The first message of a run: worker 1 is sent `p`, which has one key, and a test
      without keys. */
  lemma FirstBatch(valgrind: bool, tests: seq<Test>, rest: seq<Test>, p: Test, x: Test, a: Key) returns (s: State)
    requires p.conflicts == [a] && x.conflicts == []
    requires Reverse(tests) == rest + [x, p] && forall t :: t in tests ==> NotNeedsAll(t)
    ensures Going(valgrind, tests, [] + [1], s)
    ensures s.pending == rest && s.waiting == map[] && s.owners == map[a := 1] && s.order == [a]
    ensures s.running == map[1 := [p, x]] && s.dispatched == [p, x]
    ensures |s.workers| == |tests| && forall w :: w in s.workers <==> 1 <= w <= |tests|
  {
    hide Take, Going, OwnBatch, FirstActive, Reverse, BatchSize;
    assert |tests| == |rest| + 2;
    s := Begin(valgrind, tests);
    SizeOne(valgrind, |tests|);
    Unblocked(p, map[]);
    Unblocked(x, map[]);
    CollectTwo(rest, x, p, map[], map[], 1);
    OwnOne(p, x, a, 1, map[], []);
    assert [] + [a] == [a] && [] + [p, x] == [p, x];
    s := Sent(valgrind, tests, [], s, 1, Taken(rest, map[], [p, x]));
  }

  // ----- `b` has a key that `c` lacks -----

  /** `b` waits behind that key while `c` is free to go. */
  lemma ExtraKeyOvertakes(b: Test, c: Test, k: Key, a: Key, valgrind: bool)
    requires k in b.conflicts && k in c.conflicts && a in b.conflicts && a !in c.conflicts
    requires NotNeedsAll(b) && NotNeedsAll(c) && b.file != c.file
    ensures !NeverOvertaken(b, c, valgrind)
  {
    hide Going, NeverOvertaken, Others;
    var o := Fillers(b, c, [[a], []]);
    var s := ExtraKeyRun(valgrind, b, c, a, o[0], o[1]);
    assert o + [] + [] == o == [o[0], o[1]];
    assert [o[0], o[1], b, c] == o + [b] + [] + [c] + [] && [o[0], o[1], c] == o + [c] + [];
    Overtaken(valgrind, o, [], [], [] + [1] + [2], s, b, c, o, []);
  }

  lemma ExtraKeyRun(valgrind: bool, b: Test, c: Test, a: Key, p: Test, x: Test) returns (s: State)
    requires a in b.conflicts && a !in c.conflicts && p.conflicts == [a] && x.conflicts == []
    requires NotNeedsAll(b) && NotNeedsAll(c)
    ensures Going(valgrind, [p, x, b, c], [] + [1] + [2], s) && s.dispatched == [p, x, c]
  {
    hide Take, Going, OwnBatch, BatchSize;
    var tests := [p, x, b, c];
    ReverseFour(p, x, b, c);
    assert [c, b] + [x, p] == [c, b, x, p];
    s := FirstBatch(valgrind, tests, [c, b], p, x, a);
    SizeOne(valgrind, 4);
    BlockedBy(b, s.owners, a);
    Unblocked(c, s.owners);
    ParkThenCollect(b, c, s.owners, a);
    s := Sent(valgrind, tests, [] + [1], s, 2, Taken([], map[a := [b]], [c]));
    assert [p, x] + [c] == [p, x, c];
  }

  lemma ReverseFour(p: Test, x: Test, b: Test, c: Test)
    ensures Reverse([p, x, b, c]) == [c, b, x, p]
  {
    hide Reverse;
  }

  lemma {:induction false} ParkThenCollect(b: Test, c: Test, owners: map<Key, Worker>, a: Key)
    requires FirstActive(b.conflicts, owners) == Some(a) && FirstActive(c.conflicts, owners) == None
    ensures Take([c, b], map[], owners, [], 1) == Taken([], map[a := [b]], [c])
  {
    hide Take, FirstActive;
    assert [c, b] == [c] + [b] && [c] == [] + [c] && [] + [b] == [b];
    Park([c], b, map[], owners, [], 1, a);
    assert map[][a := Get(map[], a) + [b]] == map[a := [b]];
    Collect([], c, map[a := [b]], owners, [], 1);
    Full([], map[a := [b]], owners, [c], 1);
  }

  // ----- the two share a second key -----

  /** `b` waits behind `u` and `c` behind `v`; `u` is given up first, so `b` comes to wait
      behind `v` after `c`. */
  lemma SecondKeyOvertakes(b: Test, c: Test, u: Key, v: Key, valgrind: bool)
    requires b.file != c.file && u != v && u in b.conflicts && v in b.conflicts && u in c.conflicts
    requires FirstActive(c.conflicts, map[u := 1, v := 2]) == Some(v)
    requires NotNeedsAll(b) && NotNeedsAll(c)
    ensures !NeverOvertaken(b, c, valgrind)
  {
    hide Going, NeverOvertaken, FirstActive, Others;
    var o := Fillers(b, c, [[u], [], [v], []]);
    var s := SecondKeyRun(valgrind, b, c, u, v, o[0], o[1], o[2], o[3]);
    assert o[..2] + o[2..] + [] == o == [o[0], o[1], o[2], o[3]];
    assert [o[0], o[1], b, o[2], o[3], c] == o[..2] + [b] + o[2..] + [c] + [];
    Overtaken(valgrind, o[..2], o[2..], [], [] + [1] + [2] + [3] + [1] + [2], s, b, c, o, [b]);
  }

  lemma SecondKeyRun(valgrind: bool, b: Test, c: Test, u: Key, v: Key, p: Test, x: Test, r: Test, x': Test)
    returns (s: State)
    requires u != v && u in b.conflicts && v in b.conflicts
    requires FirstActive(c.conflicts, map[u := 1, v := 2]) == Some(v)
    requires NotNeedsAll(b) && NotNeedsAll(c)
    requires p.conflicts == [u] && r.conflicts == [v] && x.conflicts == [] && x'.conflicts == []
    ensures Going(valgrind, [p, x, b, r, x', c], [] + [1] + [2] + [3] + [1] + [2], s)
    ensures s.dispatched == [p, x, r, x'] + [c] + [b]
  {
    hide Take, Going, OwnBatch, FirstActive, Release, BatchSize;
    var tests := [p, x, b, r, x', c];
    s := ParkedApart(valgrind, b, c, u, v, p, x, r, x');
    var run := [] + [1] + [2] + [3];
    ReleaseFirst(u, v, 1, 2, b, c);
    BlockedBy(b, map[v := 2], v);
    ParkLast(b, map[v := [c]], map[v := 2], BatchSize(Cfg(valgrind, 6), 5), v);
    assert Get(map[v := [c]], v) + [b] == [c, b] && map[v := [c]][v := [c, b]] == map[v := [c, b]];
    s := BackAndRetired(valgrind, tests, run, s, 1, Taken([], map[v := [c, b]], []));
    assert s.owners == map[v := 2] && s.order == [v] && s.waiting == map[v := [c, b]] && s.pending == []
        && 2 in s.running && |s.workers| == 4;
    ReleaseOnly(v, 2, c, b);
    Unblocked(c, map[]);
    Unblocked(b, map[]);
    CollectTwo([], b, c, map[], map[], BatchSize(Cfg(valgrind, 6), 4));
    assert [] + [b, c] == [b, c];
    s := BackAndSent(valgrind, tests, run + [1], s, 2, Taken([], map[], [c, b]));
    assert [p, x, r, x'] + [c, b] == [p, x, r, x'] + [c] + [b];
  }

  /** The first three messages: `b` comes to wait behind `u` and `c` behind `v`. */
  lemma ParkedApart(valgrind: bool, b: Test, c: Test, u: Key, v: Key, p: Test, x: Test, r: Test, x': Test)
    returns (s: State)
    requires u != v && u in b.conflicts && v in b.conflicts
    requires FirstActive(c.conflicts, map[u := 1, v := 2]) == Some(v)
    requires NotNeedsAll(b) && NotNeedsAll(c)
    requires p.conflicts == [u] && r.conflicts == [v] && x.conflicts == [] && x'.conflicts == []
    ensures Going(valgrind, [p, x, b, r, x', c], [] + [1] + [2] + [3], s)
    ensures s.owners == map[u := 1, v := 2] && s.order == [u, v]
    ensures s.waiting == map[u := [b], v := [c]] && s.pending == []
    ensures s.running == map[1 := [p, x], 2 := [r, x']] && 1 in s.workers && 2 in s.workers && |s.workers| == 5
    ensures s.dispatched == [p, x, r, x']
  {
    hide Take, Going, OwnBatch, FirstActive, BatchSize;
    var tests := [p, x, b, r, x', c];
    ReverseSix(p, x, b, r, x', c);
    s := FirstBatch(valgrind, tests, [c, x', r, b], p, x, u);
    SizeOne(valgrind, 6);
    BlockedBy(b, s.owners, u);
    Unblocked(r, s.owners);
    Unblocked(x', s.owners);
    ParkThenTwo(c, x', r, b, s.owners, u);
    OwnOne(r, x', v, 2, s.owners, [u]);
    s := Sent(valgrind, tests, [] + [1], s, 2, Taken([c], map[u := [b]], [r, x']));
    assert s.owners == map[u := 1, v := 2] && s.order == [u, v] && s.running == map[1 := [p, x], 2 := [r, x']];
    ParkLast(c, map[u := [b]], s.owners, 1, v);
    FirstBehind(map[u := [b]], v, c);
    assert map[u := [b]][v := [c]] == map[u := [b], v := [c]];
    s := Retired(valgrind, tests, [] + [1] + [2], s, 3, Taken([], map[u := [b], v := [c]], []));
  }

  lemma ReverseSix(a: Test, b: Test, c: Test, d: Test, e: Test, f: Test)
    ensures Reverse([a, b, c, d, e, f]) == [f, e, d, c] + [b, a]
  {
    hide Reverse;
  }

  lemma {:induction false} ParkThenTwo(c: Test, x: Test, r: Test, b: Test, owners: map<Key, Worker>, u: Key)
    requires FirstActive(b.conflicts, owners) == Some(u) && FirstActive(r.conflicts, owners) == None &&
               FirstActive(x.conflicts, owners) == None
    ensures Take([c, x, r, b], map[], owners, [], 1) == Taken([c], map[u := [b]], [r, x])
  {
    hide Take, FirstActive;
    assert [c, x, r, b] == [c, x, r] + [b] && [c, x, r] == [c] + [x, r];
    Park([c, x, r], b, map[], owners, [], 1, u);
    FirstBehind(map[], u, b);
    CollectTwo([c], x, r, map[u := [b]], owners, 1);
  }

  lemma FirstBehind(waiting: map<Key, seq<Test>>, z: Key, t: Test)
    requires z !in waiting
    ensures waiting[z := Get(waiting, z) + [t]] == waiting[z := [t]]
  {
    assert [] + [t] == [t];
  }

  /** The only test on the stack is parked. */
  lemma {:induction false} ParkLast(t: Test, waiting: map<Key, seq<Test>>, owners: map<Key, Worker>, size: nat,
        z: Key)
    requires FirstActive(t.conflicts, owners) == Some(z)
    ensures Take([t], waiting, owners, [], size) == Taken([], waiting[z := Get(waiting, z) + [t]], [])
  {
    hide Take, FirstActive;
    assert [t] == [] + [t];
    Park([], t, waiting, owners, [], size, z);
    Full([], waiting[z := Get(waiting, z) + [t]], owners, [], size);
  }

  lemma {:induction false} ReleaseFirst(u: Key, v: Key, i: Worker, j: Worker, b: Test, c: Test)
    requires u != v && i != j
    ensures Release([u, v], i, map[u := i, v := j], map[u := [b], v := [c]], [])
         == Released([v], map[v := j], map[v := [c]], [b])
  {
    assert [u, v][1..] == [v] && [v][1..] == [];
    assert map[u := i, v := j] - {u} == map[v := j] && map[u := [b], v := [c]] - {u} == map[v := [c]];
    assert Reverse([b]) == [b] && [] + [b] == [b];
    assert Release([v], i, map[v := j], map[v := [c]], [b]) == Released([v], map[v := j], map[v := [c]], [b]);
  }

  lemma {:induction false} ReleaseOnly(v: Key, j: Worker, c: Test, b: Test)
    ensures Release([v], j, map[v := j], map[v := [c, b]], []) == Released([], map[], map[], [b, c])
  {
    assert [v][1..] == [] && Reverse([c, b]) == [b, c] && [] + [b, c] == [b, c];
    assert map[v := j] - {v} == map[] && map[v := [c, b]] - {v} == map[];
  }

  // ----- `c` lists another key before the shared one -----

  /** `b` waits behind `k` and `c` behind `z`; when `k` is given up the worker takes two
      other tests, and before anyone reaches `b` the key `z` is given up too. */
  lemma LeadingKeyOvertakes(b: Test, c: Test, k: Key, z: Key, q: Key, valgrind: bool)
    requires b.conflicts != [] && OnlyHas(b, k) && k in c.conflicts && c.conflicts[0] == z != k
    requires q !in c.conflicts && q != ALL
    requires NotNeedsAll(b) && NotNeedsAll(c) && b.file != c.file
    ensures !NeverOvertaken(b, c, valgrind)
  {
    hide Going, NeverOvertaken, Others;
    var o := Fillers(b, c, [[k, q], [], [z], [], [q], [q], []]);
    var s := LeadingKeyRun(valgrind, b, c, k, z, q, o[0], o[1], o[2], o[3], o[4], o[5], o[6]);
    var front, back := o[..6], o[6..];
    assert front + [] + back == o && back == [o[6]];
    assert front == [o[0], o[1], o[2], o[3], o[4], o[5]];
    assert [o[0], o[1], o[2], o[3], o[4], o[5], b, c, o[6]] == front + [b] + [] + [c] + back;
    var sent := [o[0], o[1], o[2], o[3], o[6], o[4], o[5]];
    Overtaken(valgrind, front, [], back, [] + [1] + [2] + [3] + [1] + [2], s, b, c, sent, [b]);
  }

  lemma LeadingKeyRun(valgrind: bool, b: Test, c: Test, k: Key, z: Key, q: Key, y: Test, x: Test, p: Test, x': Test,
        t: Test, t': Test, x'': Test)
    returns (s: State)
    requires b.conflicts != [] && OnlyHas(b, k) && k in c.conflicts && c.conflicts[0] == z != k
    requires q !in c.conflicts && q != ALL
    requires NotNeedsAll(b) && NotNeedsAll(c)
    requires y.conflicts == [k, q] && p.conflicts == [z] && t.conflicts == [q] == t'.conflicts
    requires x.conflicts == x'.conflicts == x''.conflicts == []
    ensures Going(valgrind, [y, x, p, x', t, t', b, c, x''], [] + [1] + [2] + [3] + [1] + [2], s)
    ensures s.dispatched == [y, x, p, x', x'', t, t'] + [c] + [b]
  {
    hide Take, Going, OwnBatch, FirstActive, Release, BatchSize;
    var tests := [y, x, p, x', t, t', b, c, x''];
    s := BothParked(valgrind, b, c, k, z, q, y, x, p, x', t, t', x'');
    SizeOne(valgrind, 9);
    var run := [] + [1] + [2] + [3];
    ReleaseTwo(k, q, z, b, c, t, t');
    Unblocked(t, map[z := 2]);
    Unblocked(t', map[z := 2]);
    CollectTwo([b], t', t, map[z := [c]], map[z := 2], 1);
    assert [b] + [t', t] == [b, t', t];
    OwnSame(t, t', q, z);
    s := BackAndSent(valgrind, tests, run, s, 1, Taken([b], map[z := [c]], [t, t']));
    assert s.owners == map[z := 2, q := 1] && s.order == [z, q] && s.waiting == map[z := [c]] && s.pending == [b]
        && 2 in s.running;
    ReleaseLead(z, q, b, c);
    Unblocked(c, map[q := 1]);
    assert b.conflicts[0] in b.conflicts;
    Unblocked(b, map[q := 1]);
    CollectTwo([], b, c, map[], map[q := 1], 1);
    assert [] + [b, c] == [b, c];
    s := BackAndSent(valgrind, tests, run + [1], s, 2, Taken([], map[], [c, b]));
    assert [y, x, p, x', x''] + [t, t'] + [c, b] == [y, x, p, x', x'', t, t'] + [c] + [b];
  }

  /** The first three messages: `b` comes to wait behind `k` and `c` behind `z`. */
  lemma BothParked(valgrind: bool, b: Test, c: Test, k: Key, z: Key, q: Key, y: Test, x: Test, p: Test, x': Test,
        t: Test, t': Test, x'': Test)
    returns (s: State)
    requires b.conflicts != [] && OnlyHas(b, k) && k in c.conflicts && c.conflicts[0] == z != k
    requires q !in c.conflicts && q != ALL
    requires NotNeedsAll(b) && NotNeedsAll(c)
    requires y.conflicts == [k, q] && p.conflicts == [z] && t.conflicts == [q] == t'.conflicts
    requires x.conflicts == x'.conflicts == x''.conflicts == []
    ensures Going(valgrind, [y, x, p, x', t, t', b, c, x''], [] + [1] + [2] + [3], s)
    ensures s.owners == map[k := 1, q := 1, z := 2] && s.order == [k, q, z]
    ensures s.waiting == map[q := [t, t'], k := [b], z := [c]] && s.pending == []
    ensures 1 in s.running && 2 in s.running && 1 in s.workers && 2 in s.workers && |s.workers| == 9
    ensures s.dispatched == [y, x, p, x', x'']
  {
    hide Take, Going, OwnBatch, FirstActive, BatchSize;
    var tests := [y, x, p, x', t, t', b, c, x''];
    s := TwoBatches(valgrind, tests, [x'', c, b, t', t], k, z, q, y, x, p, x');
    SizeOne(valgrind, 9);
    assert b.conflicts[0] in b.conflicts;
    BlockedBy(t, s.owners, q);
    BlockedBy(t', s.owners, q);
    BlockedBy(b, s.owners, k);
    LeadBlocks(c, s.owners);
    Unblocked(x'', s.owners);
    ParkFour(x'', c, b, t, t', s.owners, k, z, q);
    OwnNone(x'', 3, Owned(s.owners, s.order));
    s := Sent(valgrind, tests, [] + [1] + [2], s, 3, Taken([], map[q := [t, t'], k := [b], z := [c]], [x'']));
    assert [y, x, p, x'] + [x''] == [y, x, p, x', x''];
  }

  /** The first two messages of that run. */
  lemma TwoBatches(valgrind: bool, tests: seq<Test>, rest: seq<Test>, k: Key, z: Key, q: Key,
        y: Test, x: Test, p: Test, x': Test)
    returns (s: State)
    requires tests == [y, x, p, x'] + Reverse(rest) && |rest| == 5 && k != q && k != z && q != z
    requires forall t :: t in tests ==> NotNeedsAll(t)
    requires y.conflicts == [k, q] && p.conflicts == [z] && x.conflicts == x'.conflicts == []
    ensures Going(valgrind, tests, [] + [1] + [2], s)
    ensures s.owners == map[k := 1, q := 1, z := 2] && s.order == [k, q, z] && s.waiting == map[] && s.pending == rest
    ensures s.running == map[1 := [y, x], 2 := [p, x']] && |s.workers| == 9
    ensures (forall w :: w in s.workers <==> 1 <= w <= 9) && s.dispatched == [y, x, p, x']
  {
    hide Take, Going, OwnBatch, FirstActive, BatchSize, Reverse;
    s := Begin(valgrind, tests);
    SizeOne(valgrind, 9);
    ReverseFront(y, x, p, x', rest);
    Unblocked(y, map[]);
    Unblocked(x, map[]);
    CollectTwo(rest + [x', p], x, y, map[], map[], 1);
    OwnPair(y, x, k, q, 1);
    s := Sent(valgrind, tests, [], s, 1, Taken(rest + [x', p], map[], [y, x]));
    Unblocked(p, s.owners);
    Unblocked(x', s.owners);
    CollectTwo(rest, x', p, map[], s.owners, 1);
    OwnOne(p, x', z, 2, s.owners, [k, q]);
    s := Sent(valgrind, tests, [] + [1], s, 2, Taken(rest, map[], [p, x']));
    assert [k, q] + [z] == [k, q, z] && [] + [y, x] == [y, x] && [y, x] + [p, x'] == [y, x, p, x'];
  }

  lemma {:induction false} ReverseFront(y: Test, x: Test, p: Test, x': Test, rest: seq<Test>)
    ensures Reverse([y, x, p, x'] + Reverse(rest)) == rest + [x', p] + [x, y]
  {
    hide Reverse;
    assert forall i :: 0 <= i < |rest| ==> Reverse(Reverse(rest))[i] == rest[i];
  }

  lemma {:induction false} OwnNone(x: Test, w: Worker, o: Owned)
    requires x.conflicts == []
    ensures OwnBatch([x], w, o) == o
  {
    assert [x][1..] == [];
    assert OwnBatch([], w, o) == o;
  }

  /** A test whose first key is active is blocked by it. */
  lemma {:induction false} LeadBlocks(c: Test, owners: map<Key, Worker>)
    requires c.conflicts != [] && c.conflicts[0] in owners
    ensures FirstActive(c.conflicts, owners) == Some(c.conflicts[0])
  {
  }

  lemma {:induction false} OwnPair(y: Test, x: Test, k: Key, q: Key, w: Worker)
    requires y.conflicts == [k, q] && x.conflicts == [] && k != q
    ensures OwnBatch([y, x], w, Owned(map[], [])) == Owned(map[k := w, q := w], [k, q])
  {
    var o := Owned(map[], []);
    assert [k, q][1..] == [q] && [q][1..] == [] && [y, x][1..] == [x] && [x][1..] == [];
    assert [] + [k] == [k] && [k] + [q] == [k, q];
    assert OwnKeys([q], w, Owned(map[k := w], [k])) == OwnKeys([], w, Owned(map[k := w, q := w], [k, q]));
    assert OwnKeys([k, q], w, o) == OwnKeys([q], w, Owned(map[k := w], [k]));
    assert OwnBatch([y, x], w, o) == OwnBatch([x], w, OwnKeys([k, q], w, o)) ==
             OwnBatch([], w, OwnKeys([], w, OwnKeys([k, q], w, o)));
  }

  lemma OwnSame(t: Test, t': Test, q: Key, z: Key)
    requires t.conflicts == [q] == t'.conflicts && q != z
    ensures OwnBatch([t, t'], 1, Owned(map[z := 2], [z])) == Owned(map[z := 2, q := 1], [z, q])
  {
    var o, o' := Owned(map[z := 2], [z]), Owned(map[z := 2, q := 1], [z, q]);
    assert [q][1..] == [] && [t, t'][1..] == [t'] && [t'][1..] == [] && [z] + [q] == [z, q];
    assert OwnKeys([q], 1, o) == OwnKeys([], 1, o') == o';
    assert o'.owners[q := 1] == o'.owners;
    assert OwnKeys([q], 1, o') == OwnKeys([], 1, o') == o';
    assert OwnBatch([t, t'], 1, o) == OwnBatch([t'], 1, o') == OwnBatch([], 1, o');
  }

  lemma {:induction false} ParkFour(x: Test, c: Test, b: Test, t: Test, t': Test, owners: map<Key, Worker>, k: Key,
        z: Key, q: Key)
    requires k != z && k != q && z != q
    requires FirstActive(t.conflicts, owners) == Some(q) && FirstActive(t'.conflicts, owners) == Some(q)
    requires FirstActive(b.conflicts, owners) == Some(k) && FirstActive(c.conflicts, owners) == Some(z)
    requires FirstActive(x.conflicts, owners) == None
    ensures Take([x, c, b, t', t], map[], owners, [], 1) == Taken([], map[q := [t, t'], k := [b], z := [c]], [x])
  {
    hide Take, FirstActive;
    assert [x, c, b, t', t] == [x, c, b, t'] + [t] && [x, c, b, t'] == [x, c, b] + [t'];
    assert [x, c, b] == [x, c] + [b] && [x, c] == [x] + [c] && [x] == [] + [x];
    Park([x, c, b, t'], t, map[], owners, [], 1, q);
    FirstBehind(map[], q, t);
    Park([x, c, b], t', map[q := [t]], owners, [], 1, q);
    assert Get(map[q := [t]], q) + [t'] == [t, t'];
    assert map[q := [t]][q := [t, t']] == map[q := [t, t']];
    Park([x, c], b, map[q := [t, t']], owners, [], 1, k);
    FirstBehind(map[q := [t, t']], k, b);
    assert map[q := [t, t']][k := [b]] == map[q := [t, t'], k := [b]];
    Park([x], c, map[q := [t, t'], k := [b]], owners, [], 1, z);
    FirstBehind(map[q := [t, t'], k := [b]], z, c);
    assert map[q := [t, t'], k := [b]][z := [c]] == map[q := [t, t'], k := [b], z := [c]];
    Collect([], x, map[q := [t, t'], k := [b], z := [c]], owners, [], 1);
    Full([], map[q := [t, t'], k := [b], z := [c]], owners, [x], 1);
  }

  lemma {:induction false} GiveUp(k: Key, order: seq<Key>, w: Worker, owners: map<Key, Worker>,
        waiting: map<Key, seq<Test>>, pending: seq<Test>)
    requires k in owners && owners[k] == w
    ensures Release([k] + order, w, owners, waiting, pending)
         == Release(order, w, owners - {k}, waiting - {k}, pending + Reverse(Get(waiting, k)))
  {
    hide Reverse, Get;
    assert ([k] + order)[1..] == order;
  }

  lemma {:induction false} KeepLast(k: Key, w: Worker, owners: map<Key, Worker>, waiting: map<Key, seq<Test>>,
        pending: seq<Test>)
    requires k in owners && owners[k] != w
    ensures Release([k], w, owners, waiting, pending) == Released([k], owners, waiting, pending)
  {
    assert [k][1..] == [];
    assert Release([], w, owners, waiting, pending) == Released([], owners, waiting, pending);
  }

  lemma ReleaseTwo(k: Key, q: Key, z: Key, b: Test, c: Test, t: Test, t': Test)
    requires k != z && k != q && z != q
    ensures Release([k, q, z], 1, map[k := 1, q := 1, z := 2], map[q := [t, t'], k := [b], z := [c]], [])
         == Released([z], map[z := 2], map[z := [c]], [b, t', t])
  {
    hide Release, Reverse;
    var o, w := map[k := 1, q := 1, z := 2], map[q := [t, t'], k := [b], z := [c]];
    assert [k, q, z] == [k] + [q, z];
    GiveUp(k, [q, z], 1, o, w, []);
    assert o - {k} == map[q := 1, z := 2] && w - {k} == map[q := [t, t'], z := [c]];
    ReverseShort([b]);
    assert [] + [b] == [b];
    ReleaseNext(q, z, b, c, t, t');
  }

  lemma ReleaseNext(q: Key, z: Key, b: Test, c: Test, t: Test, t': Test)
    requires z != q
    ensures Release([q, z], 1, map[q := 1, z := 2], map[q := [t, t'], z := [c]], [b])
         == Released([z], map[z := 2], map[z := [c]], [b, t', t])
  {
    hide Release;
    assert [q, z] == [q] + [z];
    GiveUp(q, [z], 1, map[q := 1, z := 2], map[q := [t, t'], z := [c]], [b]);
    assert map[q := 1, z := 2] - {q} == map[z := 2] && map[q := [t, t'], z := [c]] - {q} == map[z := [c]];
    assert [b] + Reverse([t, t']) == [b, t', t];
    KeepLast(z, 1, map[z := 2], map[z := [c]], [b, t', t]);
  }

  lemma ReleaseLead(z: Key, q: Key, b: Test, c: Test)
    requires z != q
    ensures Release([z, q], 2, map[z := 2, q := 1], map[z := [c]], [b]) == Released([q], map[q := 1], map[], [b, c])
  {
    hide Release;
    assert [z, q] == [z] + [q];
    GiveUp(z, [q], 2, map[z := 2, q := 1], map[z := [c]], [b]);
    assert map[z := 2, q := 1] - {z} == map[q := 1] && map[z := [c]] - {z} == map[] && [b] + Reverse([c]) == [b, c];
    KeepLast(q, 2, map[q := 1], map[], [b, c]);
  }

  // ----- a test that runs alone -----

  /** One idle worker takes two tests without active keys from the merged stack. */
  lemma FirstMessage(cfg: Config, s: State, y: Test, x: Test)
    requires 1 in s.workers && 1 !in s.running && s.owners == map[] && s.waiting == map[]
    requires Merge(s).pending == [y, x]
    ensures Step(cfg, s, 1).dispatched == s.dispatched + [x, y]
  {
    hide OwnBatch, Take, FirstActive, BatchSize;
    Unblocked(x, map[]);
    Unblocked(y, map[]);
    CollectTwo([], y, x, map[], map[], BatchSize(cfg, |s.workers|));
    assert [] + [y, x] == [y, x];
  }

  /** A list whose first message sends `c`, alone or before `b`. */
  lemma OvertakenAtOnce(cfg: Config, tests: seq<Test>, pending: seq<Test>, s: State, b: Test, c: Test, y: Test)
    requires Unshuffled(cfg, tests) && Before(tests, b, c) && b != c
    requires Reached(cfg, tests, 2, pending, [], s) && 1 in s.workers && 1 !in s.running
    requires s.owners == map[] && s.waiting == map[] && s.dispatched == [] && Merge(s).pending == [y, c]
    ensures !NeverOvertaken(b, c, cfg.valgrind)
  {
    hide Reached, Unshuffled, Before, Step, Merge;
    FirstMessage(cfg, s, y, c);
    ReachedStep(cfg, tests, 2, pending, [], s, 1);
    var s' := Step(cfg, s, 1);
    assert s'.dispatched == [] + [c] + [y];
    PickLast([], [y], b, c);
    hide Filter;
    assert !FirstSent(s', b, c);
  }

  lemma {:induction false} FilterPair(t: Test, rest: seq<Test>, p: Test -> bool)
    ensures Filter([t] + rest, p) == if p(t) then [t] + Filter(rest, p) else Filter(rest, p)
  {
    assert ([t] + rest)[1..] == rest;
  }

  lemma {:induction false} FilterTwo(b: Test, c: Test, p: Test -> bool)
    ensures Filter([b, c], p) == (if p(b) then [b] else []) + (if p(c) then [c] else [])
  {
    FilterPair(b, [c], p);
    FilterPair(c, [], p);
    assert [b] + [c] == [b, c] && [c] + [] == [c];
  }

  /** Two tests of which the second is deferred. */
  lemma SecondDeferred(b: Test, c: Test, cfg: Config, pending: seq<Test>)
    requires b.file != c.file && NeedsAll(c)
    requires pending == (if NeedsAll(b) then [] else [b]) && cfg.totalFileCount == |pending| && !cfg.shuffle
    ensures Filter([b, c], NeedsAll) == if NeedsAll(b) then [b, c] else [c]
    ensures Filter([b, c], NotNeedsAll) == pending && InitialOrder(false, [b, c], pending)
    ensures Unshuffled(cfg, [b, c]) && Before([b, c], b, c)
  {
    hide Filter, Reverse;
    PairBefore(b, c);
    FilterTwo(b, c, NeedsAll);
    FilterTwo(b, c, NotNeedsAll);
    ReverseShort(pending);
  }

  lemma PairBefore(b: Test, c: Test)
    ensures Before([b, c], b, c)
  {
    hide Filter;
    FilterTwo(b, c, Either(b, c));
  }

  lemma {:induction false} ReverseShort(s: seq<Test>)
    requires |s| <= 1
    ensures Reverse(s) == s
  {
  }

  /** With `c` deferred at most one test is left, so there is one worker: the stack becomes
      `b` below `c` at its first message, whether or not `b` is deferred too. */
  lemma DeferredOvertakes(b: Test, c: Test, valgrind: bool)
    requires b.file != c.file && NeedsAll(c)
    ensures !NeverOvertaken(b, c, valgrind)
  {
    hide Step, Filter, Reached, NeverOvertaken, Unshuffled, Before, InitialOrder;
    var tests, pending := [b, c], if NeedsAll(b) then [] else [b];
    var cfg := Cfg(valgrind, |pending|);
    SecondDeferred(b, c, cfg, pending);
    var s := Init(tests, 2, pending);
    assert s.workers == {1} && [b] + [c] == [b, c] && [] + [b, c] == [b, c];
    ReachedInit(cfg, tests, 2, pending);
    OvertakenAtOnce(cfg, tests, pending, s, b, c, b);
  }

  lemma ReachedInit(cfg: Config, tests: seq<Test>, requested: int, pending: seq<Test>)
    requires InitialOrder(cfg.shuffle, tests, pending)
    ensures Reached(cfg, tests, requested, pending, [], Init(tests, requested, pending))
  {
  }

  /** Three tests of which the first is deferred. */
  lemma FirstDeferred(b: Test, c: Test, x: Test, cfg: Config)
    requires b.file != c.file && b.file != x.file && c.file != x.file && NeedsAll(b) && NotNeedsAll(c) && NotNeedsAll(x)
    requires cfg.totalFileCount == 2 && !cfg.shuffle
    ensures Filter([b, c, x], NeedsAll) == [b]
    ensures Filter([b, c, x], NotNeedsAll) == [c, x] && InitialOrder(false, [b, c, x], [x, c])
    ensures Unshuffled(cfg, [b, c, x]) && Before([b, c, x], b, c)
  {
    hide Filter, Before;
    FilterThree(b, c, x, NeedsAll);
    FilterThree(b, c, x, NotNeedsAll);
    TripleBefore(b, c, x);
    assert Reverse([c, x]) == [x, c];
  }

  lemma {:induction false} FilterThree(b: Test, c: Test, x: Test, p: Test -> bool)
    ensures Filter([b, c, x], p)
         == (if p(b) then [b] else []) + (if p(c) then [c] else []) + (if p(x) then [x] else [])
  {
    hide Filter;
    assert [b, c, x] == [b] + [c, x];
    FilterPair(b, [c, x], p);
    FilterTwo(c, x, p);
  }

  lemma TripleBefore(b: Test, c: Test, x: Test)
    requires !IsEither(x, b, c)
    ensures Before([b, c, x], b, c)
  {
    hide Filter;
    FilterThree(b, c, x, Either(b, c));
  }

  /** With two workers and only `b` deferred, `c` is sent at the first message. */
  lemma DeferredOvertaken(b: Test, c: Test, valgrind: bool)
    requires b.file != c.file && NeedsAll(b) && !NeedsAll(c)
    ensures !NeverOvertaken(b, c, valgrind)
  {
    hide Step, Names, Filter, Reached, NeverOvertaken, Unshuffled, Before, InitialOrder;
    var used := [b.file, c.file];
    var x := Test(Names(used, 1)[0], []);
    assert b.file in used && c.file in used;
    var cfg, tests := Cfg(valgrind, 2), [b, c, x];
    FirstDeferred(b, c, x, cfg);
    var s := Init(tests, 2, [x, c]);
    assert |s.workers| == 2 && Merge(s) == s;
    ReachedInit(cfg, tests, 2, [x, c]);
    OvertakenAtOnce(cfg, tests, [x, c], s, b, c, x);
  }

  // ----- the exact condition -----

  lemma NotAlignedIsOvertaken(b: Test, c: Test, k: Key, valgrind: bool)
    requires b.file != c.file && k in b.conflicts && k in c.conflicts && !Aligned(b, c, k)
    requires NotNeedsAll(b) && NotNeedsAll(c)
    ensures !NeverOvertaken(b, c, valgrind)
  {
    hide NeverOvertaken, FirstActive;
    if OnlyHas(b, k) {
      var q := Longer(c.conflicts);
      LeadingKeyOvertakes(b, c, k, c.conflicts[0], q, valgrind);
    } else {
      var a :| a in b.conflicts && a != k;
      if a !in c.conflicts {
        ExtraKeyOvertakes(b, c, k, a, valgrind);
      } else {
        var v := FirstActive(c.conflicts, map[a := 1, k := 2]).value;
        if v == k {
          SecondKeyOvertakes(b, c, a, k, valgrind);
        } else {
          FirstActiveSameKeys(c.conflicts, map[a := 1, k := 2], map[k := 1, a := 2]);
          SecondKeyOvertakes(b, c, k, a, valgrind);
        }
      }
    }
  }

  lemma {:induction false} FirstActiveSameKeys(keys: seq<Key>, o1: map<Key, Worker>, o2: map<Key, Worker>)
    requires o1.Keys == o2.Keys
    ensures FirstActive(keys, o1) == FirstActive(keys, o2)
  {
    if keys != [] {
      assert keys[0] in o1 <==> keys[0] in o2;
      FirstActiveSameKeys(keys[1..], o1, o2);
    }
  }

  /** For any two test files that share a key, under valgrind and without it: their order is
      kept in every test list, for every number of workers and over every run, exactly when
      neither runs alone, the earlier one has no other key and the later one lists it first. */
  lemma OrderKeptIffAligned(b: Test, c: Test, k: Key, valgrind: bool)
    requires b.file != c.file && k in b.conflicts && k in c.conflicts
    ensures NeverOvertaken(b, c, valgrind) <==> !NeedsAll(b) && !NeedsAll(c) && Aligned(b, c, k)
  {
    hide NeverOvertaken;
    if NeedsAll(c) {
      DeferredOvertakes(b, c, valgrind);
    } else if NeedsAll(b) {
      DeferredOvertaken(b, c, valgrind);
    } else if Aligned(b, c, k) {
      AlignedIsKept(b, c, k, valgrind);
    } else {
      NotAlignedIsOvertaken(b, c, k, valgrind);
    }
  }
}
