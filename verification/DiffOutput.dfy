/** Printing an edit script in windows of context around its changes. */
module DiffOutput {
  import opened Differ

  /** One printed line. The zero-padded number is not formatted: `entry` carries it. */
  datatype Line<T> = Separator | Context(token: T) | Change(entry: Entry<T>)

  function LineOf<T>(e: Entry<T>): Line<T> {
    if e.Old? then Context(e.token) else Change(e)
  }

  /** Entry `k` lies within `context` entries of a change, before or after it. */
  ghost predicate Shown<T>(d: seq<Entry<T>>, context: nat, k: int) {
    exists n :: 0 <= n < |d| && !d[n].Old? && k - context <= n <= k + context
  }

  /** The reference: every shown entry on its own line and in order, and every maximal
      run of hidden entries replaced by a single separator. */
  ghost function Expected<T>(d: seq<Entry<T>>, context: nat, k: nat): seq<Line<T>>
    decreases |d| - k
  {
    if k >= |d| then []
    else if Shown(d, context, k) then [LineOf(d[k])] + Expected(d, context, k + 1)
    else (if k == 0 || Shown(d, context, k - 1) then [Separator] else []) + Expected(d, context, k + 1)
  }

  method GetDiff<T>(diffs: seq<Entry<T>>, context: nat) returns (out: seq<Line<T>>)
    ensures out == Expected(diffs, context, 0)
    ensures exists at :: Exactly(diffs, context, 0, out, at)
  {
    hide Exactly, Expected, Printed, Shown;
    ghost var at := OutputLineByLine(diffs, context, 0);
    PrintedNothing(diffs, context);
    var i := 0;
    out := [];
    while i < |diffs|
      invariant i <= |diffs|
      invariant AfterWindow(diffs, context, i)
      invariant Printed(diffs, context, out, i)
      decreases |diffs| - i
    {
      var next := FindNextDifference(diffs, i);
      // Found no more differences.
      if next == |diffs| {
        SkipHidden(diffs, context, out, i, next);
        out := out + [Separator];
        PrintedAll(diffs, context, out);
        return;
      }
      // Print a separator if necessary.
      if i < next - context {
        SkipHidden(diffs, context, out, i, next - context);
        out := out + [Separator];
        i := next - context;
      }
      out := PrintLeadingContext(diffs, context, out, i, next);
      out, i := PrintDifferences(diffs, context, out, next);
      out, i := PrintTrailingContext(diffs, context, out, i);
    }
    PrintedAll(diffs, context, out);
  }

  method FindNextDifference<T>(diffs: seq<Entry<T>>, i: nat) returns (next: nat)
    requires i <= |diffs|
    ensures i <= next <= |diffs|
    ensures forall n :: i <= n < next ==> diffs[n].Old?
    ensures next < |diffs| ==> !diffs[next].Old?
  {
    next := i;
    while next < |diffs| && diffs[next].Old?
      invariant i <= next <= |diffs|
      invariant forall n :: i <= n < next ==> diffs[n].Old?
    {
      next := next + 1;
    }
  }

  method PrintLeadingContext<T>(diffs: seq<Entry<T>>, context: nat, before: seq<Line<T>>, start: nat, next: nat)
    returns (out: seq<Line<T>>)
    requires next - context <= start <= next < |diffs| && !diffs[next].Old?
    requires forall n :: start <= n < next ==> diffs[n].Old?
    requires Printed(diffs, context, before, start)
    ensures Printed(diffs, context, out, next)
  {
    out := before;
    for i := start to next
      invariant Printed(diffs, context, out, i)
    {
      PrintShown(diffs, context, out, i, next);
      out := out + [Context(diffs[i].token)];
    }
  }

  method PrintDifferences<T>(diffs: seq<Entry<T>>, context: nat, before: seq<Line<T>>, next: nat)
    returns (out: seq<Line<T>>, i: nat)
    requires next < |diffs| && !diffs[next].Old?
    requires Printed(diffs, context, before, next)
    ensures next < i <= |diffs| && !diffs[i - 1].Old? && (i < |diffs| ==> diffs[i].Old?)
    ensures Printed(diffs, context, out, i)
  {
    out, i := before, next;
    while i < |diffs| && !diffs[i].Old?
      invariant next <= i <= |diffs|
      invariant i > next ==> !diffs[i - 1].Old?
      invariant Printed(diffs, context, out, i)
    {
      PrintShown(diffs, context, out, i, i);
      out := out + [Change(diffs[i])];
      i := i + 1;
    }
  }

  method PrintTrailingContext<T>(diffs: seq<Entry<T>>, context: nat, before: seq<Line<T>>, start: nat)
    returns (out: seq<Line<T>>, i: nat)
    requires 0 < start <= |diffs| && !diffs[start - 1].Old?
    requires Printed(diffs, context, before, start)
    ensures start <= i <= |diffs|
    ensures AfterWindow(diffs, context, i)
    ensures Printed(diffs, context, out, i)
  {
    hide Printed, Expected;
    out, i := before, start;
    var afterContext := if i + context < |diffs| then i + context else |diffs|;
    while i < afterContext && diffs[i].Old?
      invariant start <= i <= afterContext
      invariant forall n :: start <= n < i ==> diffs[n].Old?
      invariant Printed(diffs, context, out, i)
    {
      PrintShown(diffs, context, out, i, start - 1);
      out := out + [Context(diffs[i].token)];
      i := i + 1;
    }
    ShownBy(diffs, context, i - 1, start - 1);
  }

  /** `out` is what the reference prints for the entries before `i`. */
  ghost predicate Printed<T>(d: seq<Entry<T>>, context: nat, out: seq<Line<T>>, i: nat) {
    out + Expected(d, context, i) == Expected(d, context, 0)
  }

  /** `i` is the start, or follows a shown entry; if unchanged, all earlier changes are out of reach. */
  ghost predicate AfterWindow<T>(d: seq<Entry<T>>, context: nat, i: nat) {
    && (i > 0 ==> Shown(d, context, i - 1))
    && (i < |d| && d[i].Old? ==> forall n :: 0 <= n < i && n < |d| && !d[n].Old? ==> n + context < i)
  }

  lemma ShownBy<T>(d: seq<Entry<T>>, context: nat, k: int, n: nat)
    requires n < |d| && !d[n].Old? && k - context <= n <= k + context
    ensures Shown(d, context, k)
  {
  }

  lemma {:induction false} PrintedAll<T>(d: seq<Entry<T>>, context: nat, out: seq<Line<T>>)
    requires Printed(d, context, out, |d|)
    ensures out == Expected(d, context, 0)
  {
  }

  lemma PrintedNothing<T>(d: seq<Entry<T>>, context: nat)
    ensures Printed(d, context, [], 0)
  {
    hide Expected;
    assert [] + Expected(d, context, 0) == Expected(d, context, 0);
  }

  /** Printing entry `i`, which the change at `n` brings into view. */
  lemma PrintShown<T>(d: seq<Entry<T>>, context: nat, out: seq<Line<T>>, i: nat, n: nat)
    requires i < |d| && n < |d| && !d[n].Old? && i - context <= n <= i + context
    requires Printed(d, context, out, i)
    ensures Printed(d, context, out + [LineOf(d[i])], i + 1)
  {
    ShownBy(d, context, i, n);
    var rest := Expected(d, context, i + 1);
    assert out + ([LineOf(d[i])] + rest) == (out + [LineOf(d[i])]) + rest;
  }

  /** A separator stands for the hidden entries from `lo` to `hi`. */
  lemma SkipHidden<T>(d: seq<Entry<T>>, context: nat, out: seq<Line<T>>, lo: nat, hi: nat)
    requires lo < hi <= |d| && AfterWindow(d, context, lo)
    requires forall n :: lo <= n < hi + context && n < |d| ==> d[n].Old?
    requires Printed(d, context, out, lo)
    ensures Printed(d, context, out + [Separator], hi)
  {
    hide Expected;
    HiddenRun(d, context, lo, hi);
    var rest := Expected(d, context, hi);
    assert out + ([Separator] + rest) == (out + [Separator]) + rest;
  }

  lemma {:induction false} HiddenRun<T>(d: seq<Entry<T>>, context: nat, lo: nat, hi: nat)
    requires lo <= hi <= |d|
    requires forall k :: lo <= k < hi ==> !Shown(d, context, k)
    ensures Expected(d, context, lo)
         == (if lo < hi && (lo == 0 || Shown(d, context, lo - 1)) then [Separator] else []) + Expected(d, context, hi)
    decreases hi - lo
  {
    if lo < hi {
      HiddenRun(d, context, lo + 1, hi);
      assert !Shown(d, context, lo);
    }
  }

  // ----- what the reference guarantees -----

  function ChangedEntries<T>(d: seq<Entry<T>>): seq<Entry<T>> {
    if d == [] then [] else (if d[0].Old? then [] else [d[0]]) + ChangedEntries(d[1..])
  }

  function PrintedChanges<T>(out: seq<Line<T>>): seq<Entry<T>> {
    if out == [] then [] else (if out[0].Change? then [out[0].entry] else []) + PrintedChanges(out[1..])
  }

  lemma ExpectedShown<T>(d: seq<Entry<T>>, context: nat, k: nat)
    requires k < |d| && Shown(d, context, k)
    ensures Expected(d, context, k) == [LineOf(d[k])] + Expected(d, context, k + 1)
  {
    hide Shown;
  }

  lemma ExpectedHidden<T>(d: seq<Entry<T>>, context: nat, k: nat)
    requires k < |d| && !Shown(d, context, k)
    ensures Expected(d, context, k)
         == if k == 0 || Shown(d, context, k - 1) then [Separator] + Expected(d, context, k + 1)
            else Expected(d, context, k + 1)
  {
    hide Shown;
    assert [] + Expected(d, context, k + 1) == Expected(d, context, k + 1);
  }

  lemma {:induction false} ExpectedEnds<T>(d: seq<Entry<T>>, context: nat, k: nat)
    requires k >= |d|
    ensures Expected(d, context, k) == []
  {
  }

  lemma NothingPrinted<T>()
    ensures PrintedChanges<T>([]) == [] && DropSeparators<T>([]) == [] && SeparatorsApart<T>([])
  {
  }

  lemma {:induction false} PrintedChangesCons<T>(head: Line<T>, out: seq<Line<T>>)
    ensures PrintedChanges([head] + out) == (if head.Change? then [head.entry] else []) + PrintedChanges(out)
  {
    assert ([head] + out)[1..] == out;
  }

  /** Whatever the context size, every change is printed exactly once and in order. */
  lemma {:induction false} EveryChangePrintedOnce<T>(d: seq<Entry<T>>, context: nat, k: nat)
    requires k <= |d|
    ensures PrintedChanges(Expected(d, context, k)) == ChangedEntries(d[k..])
    decreases |d| - k
  {
    hide Expected, PrintedChanges;
    if k < |d| {
      EveryChangePrintedOnce(d, context, k + 1);
      assert d[k..][0] == d[k] && d[k..][1..] == d[k + 1..];
      var rest := Expected(d, context, k + 1);
      if Shown(d, context, k) {
        ExpectedShown(d, context, k);
        PrintedChangesCons(LineOf(d[k]), rest);
      } else {
        assert d[k].Old?;
        ExpectedHidden(d, context, k);
        PrintedChangesCons(Separator, rest);
        assert [] + ChangedEntries(d[k + 1..]) == ChangedEntries(d[k + 1..]);
        assert [] + PrintedChanges(rest) == PrintedChanges(rest);
      }
    } else {
      ExpectedEnds(d, context, k);
      NothingPrinted<T>();
    }
  }

  /** The shown entries, in order and each once. */
  ghost function ShownLines<T>(d: seq<Entry<T>>, context: nat, k: nat): seq<Line<T>>
    decreases |d| - k
  {
    if k >= |d| then []
    else (if Shown(d, context, k) then [LineOf(d[k])] else []) + ShownLines(d, context, k + 1)
  }

  function DropSeparators<T>(out: seq<Line<T>>): seq<Line<T>> {
    if out == [] then [] else (if out[0].Separator? then [] else [out[0]]) + DropSeparators(out[1..])
  }

  lemma {:induction false} DropSeparatorsCons<T>(head: Line<T>, out: seq<Line<T>>)
    ensures DropSeparators([head] + out) ==
              if head.Separator? then DropSeparators(out) else [head] + DropSeparators(out)
  {
    assert ([head] + out)[1..] == out;
  }

  /** Apart from separators, the output is exactly the entries within the context
      distance of a change. */
  lemma {:induction false} OutputIsTheWindows<T>(d: seq<Entry<T>>, context: nat, k: nat)
    ensures DropSeparators(Expected(d, context, k)) == ShownLines(d, context, k)
    decreases |d| - k
  {
    hide Shown, DropSeparators, Expected;
    if k < |d| {
      OutputIsTheWindows(d, context, k + 1);
      var rest := Expected(d, context, k + 1);
      if Shown(d, context, k) {
        ExpectedShown(d, context, k);
        DropSeparatorsCons(LineOf(d[k]), rest);
      } else {
        ExpectedHidden(d, context, k);
        DropSeparatorsCons(Separator, rest);
        assert [] + ShownLines(d, context, k + 1) == ShownLines(d, context, k + 1);
      }
    } else {
      ExpectedEnds(d, context, k);
      NothingPrinted<T>();
    }
  }

  ghost predicate SeparatorsApart<T>(out: seq<Line<T>>) {
    forall n :: 0 <= n < |out| - 1 && out[n].Separator? ==> !out[n + 1].Separator?
  }

  lemma ConsApart<T>(head: Line<T>, out: seq<Line<T>>)
    requires SeparatorsApart(out) && (head.Separator? && out != [] ==> !out[0].Separator?)
    ensures SeparatorsApart([head] + out)
  {
  }

  /** Two separators never touch. */
  lemma {:induction false} SeparatorsNeverTouch<T>(d: seq<Entry<T>>, context: nat, k: nat)
    ensures SeparatorsApart(Expected(d, context, k))
    ensures k > 0 && k < |d| && !Shown(d, context, k - 1) && Expected(d, context, k) != []
            ==> !Expected(d, context, k)[0].Separator?
    decreases |d| - k
  {
    hide Shown, SeparatorsApart, Expected;
    if k < |d| {
      SeparatorsNeverTouch(d, context, k + 1);
      if Shown(d, context, k) {
        ExpectedShown(d, context, k);
        ConsApart(LineOf(d[k]), Expected(d, context, k + 1));
      } else {
        ExpectedHidden(d, context, k);
        if k == 0 || Shown(d, context, k - 1) {
          if k + 1 >= |d| {
            ExpectedEnds(d, context, k + 1);
          }
          ConsApart(Separator, Expected(d, context, k + 1));
        } else if k + 1 >= |d| {
          ExpectedEnds(d, context, k + 1);
        }
      }
    } else {
      ExpectedEnds(d, context, k);
      NothingPrinted<T>();
    }
  }

  // ----- the output line by line -----

  /** Some change is no further than `context` entries from entry `k`. */
  ghost predicate Near<T>(d: seq<Entry<T>>, context: nat, k: nat) {
    exists n: nat :: n < |d| && !d[n].Old? && n <= k + context && k <= n + context
  }

  /** A run of entries with no change near them begins at entry `k`. */
  ghost predicate RunBegins<T>(d: seq<Entry<T>>, context: nat, k: nat) {
    !Near(d, context, k) && (k == 0 || Near(d, context, k - 1))
  }

  /** Each line of the output stands for one entry: a separator for the first entry of a
      hidden run, any other line for a shown entry, which it prints. */
  ghost predicate StandsFor<T>(d: seq<Entry<T>>, context: nat, line: Line<T>, k: nat) {
    && k < |d|
    && (line.Separator? ==> RunBegins(d, context, k))
    && (!line.Separator? ==> Near(d, context, k))
    && (line.Context? ==> d[k].Old? && line.token == d[k].token)
    && (line.Change? ==> !d[k].Old? && line.entry == d[k])
  }

  /** The lines stand for exactly the entries from `from` on that need one, in order. */
  ghost predicate Exactly<T>(d: seq<Entry<T>>, context: nat, from: nat, out: seq<Line<T>>, at: seq<nat>) {
    && |at| == |out|
    && (forall p :: 0 <= p < |out| ==> from <= at[p] && StandsFor(d, context, out[p], at[p]))
    && (forall p, q :: 0 <= p < q < |at| ==> at[p] < at[q])
    && (forall k :: from <= k < |d| && (Near(d, context, k) || RunBegins(d, context, k)) ==> k in at)
  }

  lemma ShownIsNear<T>(d: seq<Entry<T>>, context: nat, k: nat)
    ensures Shown(d, context, k) <==> Near(d, context, k)
  {
    if Shown(d, context, k) {
      var n :| 0 <= n < |d| && !d[n].Old? && k - context <= n <= k + context;
      assert n < |d| && !d[n].Old? && n <= k + context && k <= n + context;
    }
    if Near(d, context, k) {
      var n: nat :| n < |d| && !d[n].Old? && n <= k + context && k <= n + context;
      ShownBy(d, context, k, n);
    }
  }

  lemma ExactlyCons<T>(d: seq<Entry<T>>, context: nat, k: nat, line: Line<T>, out: seq<Line<T>>, at: seq<nat>)
    requires StandsFor(d, context, line, k) && Exactly(d, context, k + 1, out, at)
    ensures Exactly(d, context, k, [line] + out, [k] + at)
  {
    hide StandsFor, Near, RunBegins;
    var all := [k] + at;
    forall j | k <= j < |d| && (Near(d, context, j) || RunBegins(d, context, j))
      ensures j in all
    {
      assert all[0] == k && forall p :: 0 <= p < |at| ==> all[p + 1] == at[p];
    }
  }

  lemma ExactlySkip<T>(d: seq<Entry<T>>, context: nat, k: nat, out: seq<Line<T>>, at: seq<nat>)
    requires !Near(d, context, k) && !RunBegins(d, context, k) && Exactly(d, context, k + 1, out, at)
    ensures Exactly(d, context, k, out, at)
  {
    hide StandsFor, Near, RunBegins;
  }

  /** Line by line: the entries near a change are printed, each as it is, and one separator
      stands where each run of other entries begins. */
  lemma {:induction false} OutputLineByLine<T>(d: seq<Entry<T>>, context: nat, k: nat) returns (at: seq<nat>)
    requires k <= |d|
    ensures Exactly(d, context, k, Expected(d, context, k), at)
    decreases |d| - k
  {
    hide Shown, Expected, Near, Exactly;
    if k == |d| {
      at := [];
      ExpectedEnds(d, context, k);
      NothingLeft(d, context);
    } else {
      at := OutputLineByLine(d, context, k + 1);
      ShownIsNear(d, context, k);
      var out := Expected(d, context, k + 1);
      if k > 0 {
        ShownIsNear(d, context, k - 1);
      }
      if Shown(d, context, k) {
        ExpectedShown(d, context, k);
        ExactlyCons(d, context, k, LineOf(d[k]), out, at);
        at := [k] + at;
      } else {
        ExpectedHidden(d, context, k);
        if RunBegins(d, context, k) {
          ExactlyCons(d, context, k, Separator, out, at);
          at := [k] + at;
        } else {
          ExactlySkip(d, context, k, out, at);
        }
      }
    }
  }

  lemma NothingLeft<T>(d: seq<Entry<T>>, context: nat)
    ensures Exactly(d, context, |d|, [], [])
  {
  }
}
