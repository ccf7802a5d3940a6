/** The parallel test scheduler as a state machine: one step per scheduling message.
    The coordinator state is paired with what each worker is doing, so that a run is
    any order in which workers get to speak. */
module SchedulerSpec {
  import opened Seqs

  type Key = string
  type Worker = nat

  const ALL: Key := "all"

  datatype Test = Test(file: string, conflicts: seq<Key>)

  datatype Config = Config(valgrind: bool, shuffle: bool, totalFileCount: nat)

  datatype State = State(
    pending: seq<Test>,              // tests still to hand out; the last one goes first
    sequential: seq<Test>,           // tests that must run alone
    waiting: map<Key, seq<Test>>,    // tests parked behind an active key
    owners: map<Key, Worker>,        // active keys
    order: seq<Key>,                 // the active keys in insertion order
    workers: set<Worker>,            // live workers
    inProgress: int,                 // batches handed out and not reported back
    running: map<Worker, seq<Test>>, // the batch each busy worker was sent
    dispatched: seq<Test>,           // every test ever sent, in sending order
    finished: seq<Test>)             // every test reported back

  predicate NeedsAll(t: Test) { ALL in t.conflicts }

  predicate NotNeedsAll(t: Test) { !NeedsAll(t) }

  function Get(m: map<Key, seq<Test>>, k: Key): seq<Test> {
    if k in m then m[k] else []
  }

  function Batch(running: map<Worker, seq<Test>>, w: Worker): seq<Test> {
    if w in running then running[w] else []
  }

  // ----- the initial state -----

  /** Workers are numbered from 1; never more of them than parallel tests, never none. */
  function WorkerCount(requested: int, parallel: nat): (n: nat)
    ensures n >= 1
  {
    var m := if requested <= parallel then requested else parallel;
    if m >= 1 then m else 1
  }

  function WorkerIds(n: nat): (ws: set<Worker>)
    ensures |ws| == n
    ensures forall w :: w in ws <==> 1 <= w <= n
  {
    if n == 0 then {} else WorkerIds(n - 1) + {n}
  }

  function Init(tests: seq<Test>, requested: int, pending: seq<Test>): State {
    State(pending, Filter(tests, NeedsAll), map[], map[], [],
          WorkerIds(WorkerCount(requested, |Filter(tests, NotNeedsAll)|)),
          0, map[], [], [])
  }

  /** What the coordinator starts from: the parallel tests reversed, or shuffled. */
  ghost predicate InitialOrder(shuffle: bool, tests: seq<Test>, pending: seq<Test>) {
    var reversed := Reverse(Filter(tests, NotNeedsAll));
    if shuffle then multiset(pending) == multiset(reversed) else pending == reversed
  }

  // ----- a batch comes back -----

  datatype Released = Released(order: seq<Key>, owners: map<Key, Worker>, waiting: map<Key, seq<Test>>,
        pending: seq<Test>)

  /** Walks the active keys in insertion order; a key owned by `w` is given up and the
      tests parked behind it go back on top of the stack. */
  function Release(order: seq<Key>, w: Worker, owners: map<Key, Worker>, waiting: map<Key, seq<Test>>,
        pending: seq<Test>): Released {
    if order == [] then Released([], owners, waiting, pending)
    else
      var k := order[0];
      if k in owners && owners[k] == w then
        Release(order[1..], w, owners - {k}, waiting - {k}, pending + Reverse(Get(waiting, k)))
      else
        var r := Release(order[1..], w, owners, waiting, pending);
        r.(order := [k] + r.order)
  }

  function Finish(s: State, w: Worker): State {
    var r := Release(s.order, w, s.owners, s.waiting, s.pending);
    s.(pending := r.pending, waiting := r.waiting, owners := r.owners, order := r.order,
       inProgress := s.inProgress - 1,
       running := s.running - {w},
       finished := s.finished + Batch(s.running, w))
  }

  // ----- a worker is given something to do -----

  function Min(x: nat, y: nat): nat { if x <= y then x else y }

  function BatchSize(cfg: Config, liveWorkers: nat): (n: nat)
    requires liveWorkers > 0
    ensures n >= 1
  {
    var maxBatchSize := if cfg.valgrind then 1 else if cfg.shuffle then 4 else 32;
    var average := (cfg.totalFileCount + liveWorkers - 1) / liveWorkers;
    Min(maxBatchSize, if average >= 1 then average else 1)
  }

  /** The first key of the test that is active, if any. */
  function FirstActive(keys: seq<Key>, owners: map<Key, Worker>): (r: Option<Key>)
    ensures r.Some? ==> r.value in keys && r.value in owners
    ensures r.None? ==> forall k :: k in keys ==> k !in owners
  {
    if keys == [] then None
    else if keys[0] in owners then Some(keys[0])
    else FirstActive(keys[1..], owners)
  }

  datatype Taken = Taken(pending: seq<Test>, waiting: map<Key, seq<Test>>, files: seq<Test>)

  /** Pops tests until more than `batchSize` are collected, parking the blocked ones. */
  function Take(pending: seq<Test>, waiting: map<Key, seq<Test>>, owners: map<Key, Worker>, files: seq<Test>,
        batchSize: nat): Taken
    decreases |pending|
  {
    if |files| > batchSize || pending == [] then Taken(pending, waiting, files)
    else
      var t, rest := pending[|pending| - 1], pending[..|pending| - 1];
      match FirstActive(t.conflicts, owners)
      case Some(k) => Take(rest, waiting[k := Get(waiting, k) + [t]], owners, files, batchSize)
      case None => Take(rest, waiting, owners, files + [t], batchSize)
  }

  datatype Owned = Owned(owners: map<Key, Worker>, order: seq<Key>)

  function OwnKeys(keys: seq<Key>, w: Worker, o: Owned): Owned {
    if keys == [] then o
    else OwnKeys(keys[1..], w,
      Owned(o.owners[keys[0] := w], if keys[0] in o.owners then o.order else o.order + [keys[0]]))
  }

  function OwnBatch(files: seq<Test>, w: Worker, o: Owned): Owned {
    if files == [] then o else OwnBatch(files[1..], w, OwnKeys(files[0].conflicts, w, o))
  }

  function Merge(s: State): State {
    if |s.workers| == 1 && s.sequential != [] then
      s.(pending := s.pending + s.sequential, sequential := [])
    else s
  }

  /** The batch goes to `w`, which now owns every key in it. */
  function Dispatch(s: State, w: Worker, t: Taken): State {
    var o := OwnBatch(t.files, w, Owned(s.owners, s.order));
    s.(pending := t.pending, waiting := t.waiting, owners := o.owners, order := o.order,
       inProgress := s.inProgress + 1, running := s.running[w := t.files], dispatched := s.dispatched + t.files)
  }

  /** There is nothing for `w` to do: it is terminated. */
  function Retire(s: State, w: Worker, t: Taken): State {
    s.(pending := t.pending, waiting := t.waiting, workers := s.workers - {w})
  }

  function Choose(cfg: Config, s: State): Taken
    requires s.workers != {}
  {
    Take(s.pending, s.waiting, s.owners, [], BatchSize(cfg, |s.workers|))
  }

  function Schedule(cfg: Config, s: State, w: Worker): State
    requires w in s.workers
  {
    var m := Merge(s);
    var t := Choose(cfg, m);
    if t.files != [] then Dispatch(m, w, t) else Retire(m, w, t)
  }

  /** A busy worker reports its batch finished; an idle one reports ready. Both then
      fall through to scheduling. */
  function Step(cfg: Config, s: State, w: Worker): State
    requires w in s.workers
  {
    if w in s.running then Schedule(cfg, Finish(s, w), w) else Schedule(cfg, s, w)
  }

  // ----- runs -----

  /** `run` lists which live worker speaks at each step. */
  ghost predicate ValidRun(cfg: Config, s: State, run: seq<Worker>)
    decreases |run|
  {
    run == [] || (run[0] in s.workers && ValidRun(cfg, Step(cfg, s, run[0]), run[1..]))
  }

  ghost function Final(cfg: Config, s: State, run: seq<Worker>): State
    requires ValidRun(cfg, s, run)
    decreases |run|
  {
    if run == [] then s else Final(cfg, Step(cfg, s, run[0]), run[1..])
  }

  /** The coordinator's loop condition. */
  predicate Busy(s: State) {
    s.pending != [] || s.sequential != [] || s.inProgress > 0
  }
}
