# Verified models of the profiler extension and its test runner

This project models three parts of the repository and proves properties of them with Dafny 4.11.
`dafny verify dfyconfig.toml` checks everything.

**The diff engine** (`scripts/test/run-tests.php`). `Lcs` defines longest common subsequences by
recurrence and proves the recurrence right. `Differ` has the source's algorithm as methods: common prefix
and suffix stripping, Hirschberg's divide and conquer over a one-row dynamic program, and the greedy walk
that numbers the script. `DiffOutput` prints it in context windows and is proved against a declarative
reference. The equality used is plain equality on an opaque line type.

**The parallel test scheduler** (same file). `SchedulerSpec` is a state machine with one step per
`ready` or `tests_finished` message and an arbitrary choice of who speaks next. `SchedulerSafety` holds the
joint invariant and what follows for every reachable state; `SchedulerOrder`, `SchedulerPairs` and
`SchedulerOvertaking` say in which order tests are sent, `SchedulerBatches` in which batches, and
`SchedulerAtEnd` for which tests those that run alone come last; `SchedulerEffects` says what one message does to
every list and how many tests it sends. `Scheduler` is the coordinator as a class whose handlers update its lists
and maps; each handler is proved to take the step of the state machine.

**The call collector, span expansion and JSON writers** (`src/`). `CollectorSpec` is the collector as a
state machine over start, stop, enter, exit and recording events; `Collector` is the source's heap form, call
nodes threaded on two intrusive lists, each operation proved to take the corresponding step; `CollectorEffects`
says when operations are recorded, and where, in terms of the events before. `Replay` and `Rebuild` relate call
forests to the flat list; `Spans` treats the contraction of the call tree to significant calls; `Walks` has the loops
over the heap list and `Traversal` what the exported recursive traversal visits.
`Json` is a printer and a full parser for RFC 8259; `JsonRoundTrip`, `JsonScan`, `JsonFragments` and `JsonSplice`
are its theory. `EscapeWriters`, `Buffer`, `ObjectWriter`, `ZvalSerializer`, `Aggregate`, `Tags`, `CallStack` and
`SpanMessage` are the writers in imperative form, the last one of the whole span; the `Zval...` modules say what
they write and when it is JSON. What a receiver gets back is said in terms of what was recorded: `Numerals` reads
numbers off their digits, `ZvalMeaning` says what decoded output tells of a value, `Received` which calls come back,
and `CallMembers` and `SpanLookup` look the members of calls and spans up by name.

Bytes are modelled as the characters of a `string`; times are whole microseconds and a double is what `%.6f`
shows of it, a sign and a number of millionths. The clock and the id generator are parameters of events; where
ids are written unescaped they are 16 hexadecimal digits, as the generator makes them (`src/opa.c:99-116`). A
missing collector is an inactive one without calls.

## Where the code and its promises differ

- The comment in `scripts/test/run-tests.php:1382-1384` promises that tests with a common conflict key keep
  their order. `SchedulerOvertaking.OrderKeptIffAligned` gives the exact condition for any two test files that
  share a key, under valgrind and without it: neither conflicts with `all`, the earlier one has the shared key
  and no other, and the later one lists that key first. For every other pair some list of distinct files, some
  number of workers and some run send the later one first, in either mode.
- Tests that conflict with `all` are sent in the reverse of their original order
  (`SchedulerOrder.AllOrderReversed`), because the deferred list is appended to a stack popped from its end.
- The comment at `scripts/test/run-tests.php:1372-1373` promises to run those tests separately at the end. In a
  run they come after all others exactly when the stack is empty at the message that puts them on it
  (`SchedulerBatches.AllAtEndIff`). They do in every run if there are at least two workers and no two other tests
  share a key (`SchedulerAtEnd.ApartKeepsPromise`); any two that share one have a list and a run in which they do
  not (`SchedulerAtEnd.AtEndIffNoSharedKey`). With a single worker, that is at most one other test, they come
  first (`SchedulerBatches.OneWorkerSendsThemFirst`).
- The batch loop tests `<=`: a batch exceeds the batch size, by one, exactly when more free tests than that
  are on the stack (`SchedulerBatches.BatchIsFirstFree`). Under valgrind, where
  `scripts/test/run-tests.php:1543-1544` promises one test at a time, one of two workers is sent two together
  (`SchedulerBatches.TwoUnderValgrind`).
- The placeholder for an array of more than 1000 elements never fits its 64-byte buffer and is cut inside a
  string; a finite double whose sign and whole part take exactly 62 characters is cut right after its point;
  arrays with mixed keys write members without names; `inf` and `nan` are written as such. In all these cases
  the output is not JSON, and `ZvalWellFormed.OutputWellFormedIff` says that there are no others.
- A finite double whose sign and whole part take 63 characters or more prints as another number, the last digits of
  its whole part cut off; from 57 characters on it loses decimals (`Numerals.DoubleValue`).
- A call with more than 1000 operations of one kind breaks the call stack in the span's text
  (`Received.ManyOperationsBreak`), since each call's operations are written as one array.
- The call stack a shutdown writes loses nothing: every call once, finished or not
  (`Received.NothingLostAtShutdown`). The recursive traversal of `src/serialize.c:591`, which is exported but
  called from nowhere in the repository, is different: it misses a completed call below one that has not completed,
  and its fallback list repeats a completed call whose parent has completed (`Traversal.WrittenHowOften`, with
  `Traversal.NeverWritten` and `Traversal.WrittenTwice` as runs of both).
- `src/span.c:881` asks for custom tags that are a JSON object and merges them by cutting off a brace at either
  end. `Tags.SpliceIff` says for which object texts that is right: those that begin and end with their braces,
  without white space around them, and have a member unless they are just `{}`. The two callers pass no text
  (`src/opa.c:5411`) or the tag printer's (`src/span.c:1412`), on which the splice is always right
  (`Tags.SpliceIsObject`); `{ }` in `Tags.BlankObjectBreaks` is an input of the interface, not of a caller.
- `call_depth` is never decremented; it counts the calls since the last start (`CollectorSpec.RunKeepsInv`).

## Model

| member | source | states |
|---|---|---|
| Lcs.LenIsUpperBound | scripts/test/run-tests.php:4086-4105 | no common subsequence is longer than the value of the dynamic program's recurrence |
| Lcs.LenIsAttained | scripts/test/run-tests.php:4086-4105 | some common subsequence has exactly that length |
| Lcs.LenSuperadditive | scripts/test/run-tests.php:4060-4083 | no split of the two inputs can gain length over the whole |
| Lcs.LenSplits | scripts/test/run-tests.php:4060-4083 | for every cut of the first input some cut of the second loses nothing, which is why divide and conquer finds an optimum |
| Lcs.LenReverse | scripts/test/run-tests.php:4064-4064 | reversing both inputs leaves the length unchanged, so the reversed call measures suffixes |
| Differ.CommonSubsequenceLength | scripts/test/run-tests.php:4086-4105 | the single rolling row ends up holding the longest length for every prefix of the second input |
| Differ.CalculateCommonSubsequence | scripts/test/run-tests.php:4041-4084 | the result is a common subsequence of the two inputs of maximum length, and of all those the one that halving the first input and cutting the second as late as possible leads to |
| Differ.BestSplit | scripts/test/run-tests.php:4065-4078 | the split index found attains the optimum of the whole, and no later one does |
| Differ.ChosenIsOne | scripts/test/run-tests.php:4041-4084 | these choices leave exactly one subsequence |
| Differ.GetArrayDiffParted | scripts/test/run-tests.php:4001-4039 | the inputs are the stripped prefix, what remains and the stripped suffix, and the remains share no first or last line |
| Differ.StrippingLosesNothing | scripts/test/run-tests.php:4001-4039 | stripping a common prefix and suffix takes exactly their lengths off the longest common subsequence |
| Differ.DiffToArray | scripts/test/run-tests.php:3950-3999 | the script spells both inputs losslessly, is numbered, keeps as many lines as a longest common subsequence and changes the remaining ones; it keeps the stripped prefix, the chosen subsequence and the stripped suffix, no added line is directly followed by a removed one, and a kept line with a change after it is kept as early as possible |
| Differ.Walk | scripts/test/run-tests.php:3966-3992 | the greedy walk never runs out of an input before the next common token and keeps exactly the common lines, each as early as possible; in every run of changes the removed lines come before the added ones |
| Differ.NoShorterScript | scripts/test/run-tests.php:3950-3999 | no edit script between the same inputs keeps more lines or has fewer changes |
| Differ.KeptIsCommon | scripts/test/run-tests.php:3950-3999 | what any edit script keeps is a common subsequence of its inputs |
| Differ.NumbersPointAtLines | scripts/test/run-tests.php:3969-3992 | the number of a removed or added line is its 1-based position in its own input |
| DiffOutput.GetDiff | scripts/test/run-tests.php:4110-4174 | for every context size, zero included, the loop ends and prints the declarative reference; its lines stand for exactly the entries that need one |
| DiffOutput.EveryChangePrintedOnce | scripts/test/run-tests.php:4110-4174 | every changed entry is printed exactly once and in order |
| DiffOutput.OutputIsTheWindows | scripts/test/run-tests.php:4110-4174 | apart from separators the output is exactly the entries within the context distance of a change, once each and in order |
| DiffOutput.SeparatorsNeverTouch | scripts/test/run-tests.php:4110-4174 | a hidden stretch yields one separator: two never follow each other |
| DiffOutput.OutputLineByLine | scripts/test/run-tests.php:4110-4174 | each line stands for one entry, in order: every entry within the context distance of a change is printed as it is, and one separator stands for each run of others, wherever it begins |
| SchedulerSafety.StepKeepsInv | scripts/test/run-tests.php:1520-1578 | every message keeps the joint invariant on keys, waiting lists, in-progress count, workers and deferred tests |
| SchedulerSafety.MutualExclusion | scripts/test/run-tests.php:1348-1350 | in every reachable state two running batches share no key, and the active keys are exactly the keys of running batches, each owned by its worker |
| SchedulerSafety.AllRunsWithoutOtherWorkers | scripts/test/run-tests.php:1372-1377 | while a batch with a test conflicting with `all` runs, no other worker exists |
| SchedulerSafety.StepConserves | scripts/test/run-tests.php:1520-1578 | every message keeps each test in exactly one of pending, waiting, deferred, in flight and finished |
| SchedulerSafety.NothingLostOrStranded | scripts/test/run-tests.php:1487-1578 | in every reachable state no test is lost or duplicated, whoever waits does so behind a running worker, and a worker is left while work is |
| SchedulerSafety.IdleMeansFinished | scripts/test/run-tests.php:1487-1487 | when the loop condition fails every test has been sent and has finished exactly once, and nothing is in progress |
| SchedulerSafety.StepMakesProgress | scripts/test/run-tests.php:1536-1578 | every message sends a non-empty batch of at most one test more than the batch size, or retires a worker |
| SchedulerSafety.Terminates | scripts/test/run-tests.php:1487-1578 | at most one message per test and one per worker is ever handled |
| SchedulerOrder.SoleKeyOrderKept | scripts/test/run-tests.php:1382-1385 | without shuffling the tests whose only key is K are sent in their original order over every interleaving |
| SchedulerOrder.AllOrderReversed | scripts/test/run-tests.php:1537-1541 | the tests that conflict with `all` are sent in reverse order |
| SchedulerOrder.SoleKeyOrderIff | scripts/test/run-tests.php:1382-1385 | for tests with one and the same single key the promised order holds exactly when the key is not `all` or there are fewer than two of them |
| SchedulerPairs.AlignedIsKept | scripts/test/run-tests.php:1551-1559 | of two tests that do not conflict with `all`, one whose only key is K is never overtaken by a later one that lists K first |
| SchedulerOvertaking.ExtraKeyOvertakes | scripts/test/run-tests.php:1551-1559 | of two such tests, one with a key that the later one lacks is overtaken by it in some run of some list of distinct files |
| SchedulerOvertaking.SecondKeyOvertakes | scripts/test/run-tests.php:1523-1533 | of two such tests sharing two keys the later one is sent first in some run of some list of distinct files |
| SchedulerOvertaking.LeadingKeyOvertakes | scripts/test/run-tests.php:1523-1559 | of two such tests, one with a single key is overtaken by a later one that lists another key before the shared one, in some run of some list of distinct files |
| SchedulerOvertaking.DeferredOvertakes | scripts/test/run-tests.php:1537-1541 | a later test that conflicts with `all` is sent before any earlier test in some run: asked for two workers, the runner starts one for at most one other test |
| SchedulerOvertaking.DeferredOvertaken | scripts/test/run-tests.php:1374-1377 | an earlier test that conflicts with `all` is overtaken in some run by any later one that does not |
| SchedulerOvertaking.OrderKeptIffAligned | scripts/test/run-tests.php:1382-1385 | for any two files with a common key, under valgrind and without it, the exact condition for their order to be kept in every list of distinct files, with any number of workers the parallel scheduler can be asked for, over every run |
| SchedulerBatches.BatchIsFirstFree | scripts/test/run-tests.php:1549-1560 | in every state that keeps the invariant, the batch sent is the first tests on the stack with no active key, one more than the batch size if there are as many; so it exceeds the batch size exactly when more tests than that are free |
| SchedulerEffects.BatchLength | scripts/test/run-tests.php:1548-1560 | a message sends the first free tests on the stack, at most one more than the smaller of the limit, 1 under valgrind, else 4 shuffled, else 32, and the least number of files per live worker that covers all; if there are fewer, the stack is emptied |
| SchedulerEffects.WorkersStarted | scripts/test/run-tests.php:1392-1393 | the number of workers is that requested, but at most that of the tests not conflicting with `all`, and at least one |
| SchedulerEffects.FinishEffect | scripts/test/run-tests.php:1520-1535 | a returning batch frees exactly its worker's keys, and the tests parked behind them go on top of the stack, key by key in the order in which the keys became active |
| SchedulerEffects.MessageEffect | scripts/test/run-tests.php:1551-1577 | the tests popped but not sent are parked behind the first of their keys that is active, in the order of popping; popping stops right after a test that is sent; the batch's keys become active in the order of their first use |
| SchedulerBatches.TwoUnderValgrind | scripts/test/run-tests.php:1543-1551 | under valgrind, with batch size 1 and two workers, any two tests without keys are sent to one worker together in a reachable state |
| SchedulerBatches.AllAtEndIff | scripts/test/run-tests.php:1372-1373 | in every complete run the tests conflicting with `all` come after all others exactly when the stack is empty at the message that merges them in; what is on it then is sent after them |
| SchedulerBatches.OneWorkerSendsThemFirst | scripts/test/run-tests.php:1537-1541 | with a single worker, which more than one requested means for at most one other test, every complete run sends the tests conflicting with `all` first |
| SchedulerAtEnd.ApartKeepsPromise | scripts/test/run-tests.php:1372-1377 | if no two of the other tests share a key and there are at least two workers, the tests conflicting with `all` come last in every run of the list, shuffled or not |
| SchedulerAtEnd.AtEndIffNoSharedKey | scripts/test/run-tests.php:1372-1377 | for any two other tests, under valgrind and without it: those conflicting with `all` come last in every run of every list in which only these two have keys, exactly when the two share none |
| Scheduler.Coordinator.GiveUpKeys | scripts/test/run-tests.php:1523-1533 | the keys of the reporting worker are given up in insertion order and the tests parked behind them return to the stack in their waiting order |
| Scheduler.Coordinator.CollectBatch | scripts/test/run-tests.php:1551-1559 | popping and parking loops take exactly the batch of the state machine |
| Scheduler.Coordinator.Ready | scripts/test/run-tests.php:1536-1578 | the handler takes the scheduling step of the state machine, whose batches `BatchLength` and `MessageEffect` describe |
| Scheduler.Coordinator.HandleMessage | scripts/test/run-tests.php:1519-1578 | each message takes one step of the state machine |
| Scheduler.Coordinator.RunAll | scripts/test/run-tests.php:1487-1649 | the whole loop ends, with every test sent and finished exactly once, nothing in progress, and both order results |
| CollectorSpec.ApplyKeepsInv | src/opa.c:2006-2208 | every event keeps ids distinct, the stack a subsequence of the list, the depth its length and parents strictly later in the list |
| CollectorSpec.RunKeepsInv | src/opa.c:2006-2208 | so does every sequence of events, in any exit order |
| CollectorSpec.UnknownExitChangesNothing | src/opa.c:2177-2208 | an exit with an unknown or stale id changes nothing |
| CollectorSpec.StoppedRunChangesNothing | src/opa.c:2035-2043 | from a stop or a disable until the next start no run of events changes the calls, the stack or any counter |
| CollectorSpec.StartForgets | src/opa.c:2006-2031 | over any run after a start or an enable, from any state whatever, the invariant holds and the calls hold exactly the operations recorded since |
| CollectorSpec.OpsConserved | src/call_node.c:213-458 | over any run the calls hold exactly the operations of each kind recorded while active since the last start, as often as recorded |
| CollectorEffects.RecordingIff | src/call_node.c:213-220 | after any run operations are recorded exactly when the module is enabled, the last enable came after the last disable, and the last start or enable after the last stop or disable |
| CollectorEffects.RecordEffect | src/call_node.c:213-273 | while that holds an operation goes to the end of the list of its kind of the call on top of the stack, and nothing else changes; without an open call a request or query goes to a root call made for it, and other operations are lost; otherwise nothing happens |
| CollectorEffects.ExitEffect | src/opa.c:2177-2208 | an exit with a listed id ends that call, wherever it is, takes it off the stack only if it is on top, and changes nothing else |
| Collector.Profiler.Start | src/opa.c:2006-2031 | a start empties both lists and resets the counters |
| Collector.Profiler.Enable | src/opa_api.c:614-630 | enabling sets the flag and restarts the collector |
| Collector.Profiler.Disable | src/opa_api.c:634-645 | disabling clears the flag and stops the collector but keeps its calls |
| Collector.Profiler.Enter | src/opa.c:2105-2175 | the new node heads both intrusive lists, names the top of the stack as its parent and leaves all else alone |
| Collector.Profiler.Exit | src/opa.c:2177-2208 | the call with this id is ended and popped only if it is on top; otherwise nothing changes |
| Collector.Profiler.AttachToTop | src/call_node.c:230-272 | the operation is appended to the call on top of the stack and to no other |
| Collector.Profiler.RecordHttpRequest | src/call_node.c:213-273 | a request is recorded exactly when all three flags are set, under a synthetic root call if the stack is empty |
| Collector.Profiler.RecordSqlQuery | src/call_node.c:5-120 | the same for a query, on its call |
| Collector.Profiler.RecordCacheOperation | src/call_node.c:353-403 | a cache operation is recorded exactly when the flags are set and a call is open |
| Collector.Profiler.RecordRedisOperation | src/call_node.c:406-458 | the same for a Redis operation |
| Replay.ReplayForest | src/opa.c:2105-2208 | replaying a call forest as nested events from any active state puts exactly its calls on top of the list and leaves the stack as it was |
| Rebuild.ParentPosition | src/opa.c:5245-5247 | a call's parent is found strictly later in the list |
| Rebuild.RebuildSegment | src/serialize.c:678-704 | the scans for children rebuild each part of the list to the mirror image of the forest it came from |
| Rebuild.ReplayThenRebuild | src/serialize.c:618-704 | replaying a forest and rebuilding it by parent ids gives back the forest with siblings reversed; each call is visited once and the stack ends as it began |
| Rebuild.MirrorTwice | src/serialize.c:618-704 | reversing siblings twice gives back the forest, so nothing is lost by it |
| Traversal.VisitedOnceIffFinished | src/serialize.c:618-704 | for every ordered list a traversal by parent ids visits a call exactly once if it and all its ancestors have completed, and otherwise never |
| Traversal.FlatVisits | src/serialize.c:640-671 | in the fallback list a completed call appears once for itself and once more if its parent has completed, an open one never |
| Traversal.ForestEmptyIff | src/serialize.c:618-640 | the traversal, which nothing calls, falls back to its flat list exactly when no call without a parent has completed |
| Traversal.WrittenHowOften | src/serialize.c:618-704 | how often this traversal writes a call, in both cases, for every reachable list: with a completed root call, once or never as its ancestry has completed; without one, never, once or twice as it and its parent have |
| Traversal.WrittenTwice | src/serialize.c:640-671 | a run, with its root call still open, after which this traversal writes a call twice |
| Traversal.NeverWritten | src/serialize.c:618-704 | a run, with a second root call still open, after which this traversal does not write a completed call |
| Traversal.ReachableIsOrdered | src/opa.c:1985-2208 | the lists of all runs satisfy what the results on traversal and spans require |
| Spans.ParentIsNearest | src/opa.c:5238-5274 | the recursive search ends and finds the nearest significant ancestor, or the root span exactly when no ancestor is significant |
| Spans.ParentIsEmitted | src/opa.c:5461-5503 | an emitted span hangs off another emitted span, that of its nearest significant ancestor, or off the root span |
| Spans.SpansDistinct | src/opa.c:5461-5503 | no two emitted spans have the same id |
| Spans.WhichSpans | src/opa.c:5461-5503 | a call is among the spans exactly when its start is positive and it has an operation of any kind or has ended more than ten milliseconds after its start; the spans come in list order, each below the span of its nearest such ancestor or the root span |
| Spans.ParentIsNearestSpan | src/opa.c:5238-5274 | the parent found is the nearest ancestor that has an operation of any kind or has ended more than ten milliseconds after its start, or the root span if there is none |
| Spans.AncestorsFollow | src/opa.c:5240-5250 | the ancestors of a call are found by following parent ids until a call has none |
| Spans.ContractionPreservesAncestry | src/opa.c:5461-5503 | one emitted span lies above another exactly when its call is an ancestor of the other's call |
| Walks.FindParentSpanId | src/opa.c:5238-5274 | the cursor loop with recursion computes the parent of the contraction, the nearest ancestor that has operations or took more than ten milliseconds, or the root span |
| Walks.EmitChildSpans | src/opa.c:5461-5503 | the emission loop yields the spans of the contraction in list order: exactly the calls with a positive start that have operations or took more than ten milliseconds |
| Walks.VisitCall | src/serialize.c:678-704 | the recursive visit ends and yields the ids of the rebuilt subtree in preorder |
| Walks.VisitFromRoots | src/serialize.c:618-671 | the visit from all roots yields the rebuilt forest in preorder, or the flat list when no root call has completed |
| JsonRoundTrip.ParseEscaped | src/serialize.c:4-28 | decoding a quoted escaped string followed by any text returns the string and that text |
| JsonRoundTrip.EscapeInjective | src/serialize.c:4-28 | no two strings have the same escape |
| JsonRoundTrip.DecodePrint | src/serialize.c:150-168 | decoding is a left inverse of printing for every JSON value |
| ZvalSerializer.Serializer.JsonEscapeString | src/serialize.c:4-28 | the smart-string escaper writes the escape |
| Buffer.JsonBuffer.AppendEscaped | src/span.c:62-86 | the malloc-side escaper writes the same escape |
| EscapeWriters.JsonEscapedLength | src/opa.c:346-365 | the length estimate is exact |
| EscapeWriters.JsonEscapeAndWrite | src/opa.c:368-432 | for any buffer of at least one byte the bounded writer stays in range and terminates the escape of the characters it keeps |
| EscapeWriters.KeptFacts | src/opa.c:368-432 | those characters are a subsequence of the input whose escape fits, and all of it exactly when its whole escape fits |
| EscapeWriters.KeptNext | src/opa.c:368-432 | a further character is kept exactly when its escape still fits after what was kept so far, so one that does not fit is dropped without ending the text |
| EscapeWriters.EscapeSizes | src/opa.c:346-365 | seven characters escape to two bytes, the other control characters to six, all others to one, and each is read back as it was |
| Buffer.JsonBuffer.Grow | src/span.c:22-34 | growth keeps the contents, at least doubles, stays within max(256, 2 len), and copies no more than the old capacity |
| Buffer.JsonBuffer.Append | src/span.c:22-40 | the buffer holds its old contents followed by the new bytes, terminated within capacity, with total copying at most the capacity |
| Buffer.AppendAll | src/span.c:22-40 | over any sequence of appends it holds exactly their concatenation and the bounds on capacity and copying stand |
| ZvalSerializer.Serializer.SerializeZvalJson | src/serialize.c:150-168 | on any value graph, cyclic or not, the serializer ends and writes the text of the intended document |
| ZvalSerializer.Serializer.SerializeRecursive | src/serialize.c:175-384 | the same at any depth and path; the visited set is restored on return |
| ZvalSerializer.Serializer.SerializeArray | src/serialize.c:225-320 | an array is written as the size placeholder, the circular marker or its entries, in this order of precedence, and is on the path exactly while its entries are written |
| ZvalCycles.ViewAt | src/serialize.c:175-384 | each printed node is the value at the same address, written with exactly the tables above it as visited |
| ZvalCycles.CircularIffOnPath | src/serialize.c:237-248 | the circular-reference marker stands exactly where a container is already on the path, unless the depth or size cap applies first |
| ZvalCycles.SharingIsNotCircular | src/serialize.c:237-248 | on acyclic graphs the marker never appears and shared tables are written out in full |
| ZvalJson.RenderIsPrint | src/serialize.c:175-384 | the text of an acceptable document is the printed form of the JSON value it stands for |
| ZvalNumbers.LongTextIsValid | src/serialize.c:204-209 | every 64-bit integer prints as a JSON number |
| ZvalNumbers.DoubleTextIsValidIff | src/serialize.c:211-216 | a double prints as a JSON number exactly when it is finite and its sign and whole part are not 62 characters long |
| ZvalNumbers.HugeDoubleBreaks | src/serialize.c:211-216 | two to the 203rd, a double with a 62-digit whole part, prints as a text that is not a JSON number |
| Numerals.DecValue | src/serialize.c:204-209 | the digits printed for a whole number have that number as their value, ten times the front plus the last digit |
| Numerals.PaddedValue | src/serialize.c:211-216 | zero-padded digits have the number modulo the power of ten as their value |
| Numerals.LongValue | src/serialize.c:204-209 | the text of a 64-bit integer denotes the integer |
| Numerals.DoubleValue | src/serialize.c:211-216 | the text of a finite double denotes its millionths exactly while sign and whole part take at most 56 characters, then with the last decimals missing, and from 63 characters on a number without the last digits of the whole part |
| Numerals.MilliValue | src/span.c:455-468 | the text of a time in milliseconds denotes its microseconds exactly while the whole part takes at most 59 characters, with the same cuts beyond that |
| ZvalDefects.BadFails | src/serialize.c:175-384 | a document with a broken number or a member without a name does not parse, whatever text follows |
| ZvalScan.TooLargeScan | src/serialize.c:229-235 | the oversized-array placeholder always ends inside a string |
| ZvalScan.DocScan | src/serialize.c:175-384 | a document with such a placeholder anywhere ends inside a string, every other one outside |
| JsonScan.WellFormedScan | src/serialize.c:175-384 | a well-formed text ends outside every string |
| ZvalWellFormed.RenderWellFormedIff | src/serialize.c:175-384 | a document's text is well-formed exactly when the document is acceptable, and then decodes to its value |
| ZvalWellFormed.OutputWellFormedIff | src/serialize.c:150-384 | for every value over any table graph the output is JSON exactly when every table it reaches has at most 1000 entries, every entry shown of an associative one has a string key, and every double it reaches is finite with a sign and whole part of other than 62 characters; it then decodes to the value of the intended document |
| ZvalWellFormed.CleanOutputWellFormed | src/serialize.c:150-384 | with small arrays, keys of one kind and ordinary doubles the output is always well-formed, despite every cap and marker |
| ZvalMeaning.OutputMeaning | src/serialize.c:150-384 | for every value over any table graph, acceptable output decodes to a value that tells each part: constants, numbers by the value of their digits, strings, the first 100 elements of each table in order with their keys and the number of the others, and the limit or cycle met where there is one |
| ZvalMeaning.PlaceholderText | src/serialize.c:229-235 | the placeholder for an oversized array names its number of elements in digits of that value, and its text is cut after 63 characters |
| ZvalMeaning.BrokenDouble | src/serialize.c:211-216 | a double that does not print as a number is written `inf`, `-inf` or `nan`, or as its sign, the digits of its whole part and a bare point |
| Aggregate.AggregateFromCalls | src/span.c:194-329 | the aggregate appends the array of all operations of the kind, call by call, and returns how many there are |
| Aggregate.AggregateSqlQueries | src/span.c:119-187 | the queries of all calls and then those recorded outside the call stack are appended as one array, with their number |
| Aggregate.AggregateWellFormedIff | src/span.c:194-329 | it is well-formed exactly when every operation meets that condition, and then decodes to an array of their values in order |
| Aggregate.FlatOpDecodes | src/span.c:261-275 | the element written for a recorded array of plain values decodes to one object with a member per entry, in order, under the entry's key and with a number of the entry's value or its text |
| Aggregate.OpMeaning | src/span.c:261-275 | the element written for any acceptable recorded array, whatever is nested in it, decodes to a value that tells the array |
| Aggregate.HttpRequestDecodes | src/call_node.c:246-272 | a recorded request decodes to an object that tells exactly what was recorded, looked up by name: the URL, method, status, byte counts, times, error and type, each under its condition, with the numbers read off their digits; unless a time prints with a 62-character whole part |
| Aggregate.AggregateConserves | src/span.c:194-329 | over any run the operations of a kind on the calls are those recorded since the last start; if what was recorded is acceptable, the text of the aggregate decodes to an array whose items, as a multiset, are the values of what was recorded |
| JsonFragments.ParseValueExtend | src/span.c:876-955 | a text that parses parses to the same value when more text follows |
| JsonFragments.DecodeParts | src/span.c:876-955 | well-formed fragments joined under names decode to one object with exactly those members in order |
| Tags.SpanContext.AddTag | src/span.c:608-633 | adding a tag updates the map; an existing tag is replaced in its place and a new one goes in front |
| Tags.ReplaceIsUpdate | src/span.c:613-625 | replacing a value in place is a map update and keeps keys distinct |
| Tags.SerializeTagsJson | src/span.c:636-666 | the loop writes the text of the tag list, and nothing for an empty list |
| Tags.TagsTextIsObject | src/span.c:636-666 | that text is one object with exactly the tags as string members |
| Tags.AppendSpanTags | src/span.c:876-955 | the splice writes the stripped custom text and the system tags present, with commas exactly between them |
| ObjectWriter.BodyJoins | src/span.c:876-955 | the stripped custom members followed by system members are one member list |
| Tags.SpliceIsObject | src/span.c:876-955 | for every tag list and any well-formed fragments the result is one object: the custom members, then the system members |
| SpanLookup.SpliceTells | src/span.c:876-955 | in that object the custom tags come first, one string member each in list order, and the system's follow, looked up by name, each under its condition for being present |
| Tags.SpliceIff | src/span.c:881-955 | for every object text and any further well-formed members the splice is JSON exactly when the text begins and ends with its braces and has a member unless it is just `{}`; the result is then the object with the members of both |
| Tags.BlankObjectBreaks | src/span.c:881-902 | on the object text `{ }` the splice is never JSON, whatever follows |
| CallStack.SerializeCallNode | src/span.c:400-566 | writes the object of one call: its function, measures, parent, depth and operations, with the fallbacks for missing names |
| CallStack.SerializeCallStack | src/span.c:336-399 | the loop writes the calls with a start time, newest first, as one array |
| CallStack.CallOkIff | src/span.c:400-566 | the document of a call is acceptable exactly when its two times print as numbers and each of its arrays of operations meets the condition of the serializer |
| CallMembers.CallTells | src/span.c:400-566 | the object of each acceptable call tells, by name, its id, function, class, file, line, duration, CPU time, memory and network changes, parent, depth and type, and has an array of operations of a kind exactly when the call has such operations: the first 100 in order, plain ones with their own values, and how many more there are |
| Received.StackWellFormedIff | src/span.c:378-399 | for every call list the array is JSON exactly when every call written is acceptable, and then an array of the values of the calls |
| CallMembers.StackTells | src/span.c:378-397 | if every call written is acceptable, the text decodes to an array with an object for each call with a start time, in order, that tells it |
| Received.ManyOperationsBreak | src/span.c:511-521 | a call with more than 1000 operations of one kind makes the whole array malformed |
| Received.StackReadBack | src/span.c:378-397 | the decoded array names exactly the calls of the list, each once and in order, with their parents |
| Received.NothingLostAtShutdown | src/span.c:378-397 | after any run the text decodes to every call of the collector, each once, finished or not, and the forest its parent ids give has each exactly once |
| Received.ForestIsReceived | src/span.c:378-397 | replaying any forest, writing the stack, decoding it and rebuilding by parent ids gives the ids of the forest back, siblings reversed |
| SpanMessage.AggregateNetworkBytes | src/span.c:93-115 | the totals are the sums of the positive changes of the calls with a start time |
| SpanMessage.ProduceSpanJson | src/span.c:754-1016 | the whole text of a span is one member list in braces and a newline |
| SpanMessage.SpanDecodes | src/span.c:754-1016 | if everything handed in is well-formed and everything recorded acceptable, that text decodes to one object: the members of the span itself, custom and system tags, network totals, the operations by kind, the dumps and the calls |
| SpanLookup.SpanTells | src/span.c:754-1016 | in that object, looked up by name, are the ids, service, name, start, end and their difference, CPU time, status, language, framework and URL members, each under its condition for being present and with its default; the custom and system tags; the sums of the positive network changes; the operations of each kind call by call; the dumps; and the calls |
| SpanMessage.SpanOfRun | src/span.c:754-1016 | the span of any run decodes, its operations of each kind are those recorded since the last start, and its stack names every call once |

## Left out

- Regex comparison of lines: its match is not an equivalence, so the diff is modelled for plain equality.
- The text of printed diff lines: line numbers are carried as numbers, not padded with zeros.
- PHP's falsy strings: a test path `"0"` or an empty one would end the pop loops early; paths are taken to be truthy.
- Redirected test arrays, worker sockets, message encoding, worker death, JUnit merging and the `test_result` message.
- Engine hooks, observers, transport, error tracking, debug logging and the `$_SERVER` serializers.
- Id generation: fresh ids and a positive clock are preconditions of events.
- How queries get into the global list, and how the details of a call are measured: both are parameters of the writers.
- The text that the recursive traversal writes for a call; only which calls it visits, and in which order, is modelled.
- Child span messages of `src/span.c:1020`; only which spans are sent, and below which, is modelled.
- The plain-text (dump) serializer of `src/serialize.c` and the MAX_SERIALIZE_SIZE limit, which the code does not apply.
- Allocation failure, wrap-around of buffer sizes, locks and magic numbers of freed structures.
- Rounding of doubles: a double is a whole number of millionths, so the product by 1000 in a recorded duration is exact.
- Surrogate pairs: `\u` escapes are decoded one code unit at a time, and bytes above 127 are not checked to be UTF-8.
- ZvalSerializer.Serializer.SerializeZvalJson: keeps a visited set for scalars too, where the source passes none.
- Tags.SpanContext.AddTag: keys and values are never null; freeing and copying strings is not modelled.
