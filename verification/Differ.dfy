/** The line diff of the test runner: prefix and suffix stripping, Hirschberg's
    linear-space common subsequence, and the greedy walk into an edit script. */
module Differ {
  import opened Lcs
  import opened Seqs

  /** One entry of an edit script; `line` is 1-based in the entry's own input. */
  datatype Entry<T> =
    | Old(token: T)
    | Added(token: T, line: nat)
    | Removed(token: T, line: nat)

  /** What the script keeps of the first input: its unchanged and removed lines. */
  function FromLines<T>(d: seq<Entry<T>>): seq<T> {
    if d == [] then [] else FromLines(d[..|d| - 1]) + (if Last(d).Added? then [] else [Last(d).token])
  }

  /** What the script keeps of the second input: its unchanged and added lines. */
  function ToLines<T>(d: seq<Entry<T>>): seq<T> {
    if d == [] then [] else ToLines(d[..|d| - 1]) + (if Last(d).Removed? then [] else [Last(d).token])
  }

  function KeptLines<T>(d: seq<Entry<T>>): seq<T> {
    if d == [] then [] else KeptLines(d[..|d| - 1]) + (if Last(d).Old? then [Last(d).token] else [])
  }

  function Changes<T>(d: seq<Entry<T>>): nat {
    if d == [] then 0 else Changes(d[..|d| - 1]) + (if Last(d).Old? then 0 else 1)
  }

  function Last<T>(s: seq<T>): T
    requires s != []
  {
    s[|s| - 1]
  }

  /** Every changed entry carries its own position in its own input. */
  ghost predicate Numbered<T>(d: seq<Entry<T>>) {
    forall k :: 0 <= k < |d| ==> NumberedAt(d, k)
  }

  ghost predicate NumberedAt<T>(d: seq<Entry<T>>, k: nat)
    requires k < |d|
  {
    match d[k]
    case Old(_) => true
    case Removed(_, line) => line == |FromLines(d[..k])| + 1
    case Added(_, line) => line == |ToLines(d[..k])| + 1
  }

  /** `d` turns `from` into `to`. */
  ghost predicate Script<T>(d: seq<Entry<T>>, from: seq<T>, to: seq<T>) {
    FromLines(d) == from && ToLines(d) == to
  }

  /** In each run of changes the removed lines come before the added ones. */
  ghost predicate RemovalsFirst<T>(d: seq<Entry<T>>) {
    forall k :: 0 <= k < |d| - 1 && d[k].Added? ==> !d[k + 1].Removed?
  }

  /** No changed line of the run right before a kept line has its text: it is kept as early
      as possible. */
  ghost predicate KeptEarly<T>(d: seq<Entry<T>>, k: nat)
    requires k < |d|
  {
    d[k].Old? ==> forall m :: 0 <= m < k && AllChanged(d[m..k]) ==> d[m].token != d[k].token
  }

  ghost predicate AllChanged<T>(d: seq<Entry<T>>) { forall k :: 0 <= k < |d| ==> !d[k].Old? }

  // ----- the one-row dynamic program -----

  method CommonSubsequenceLength<T(==)>(from: seq<T>, to: seq<T>) returns (row: seq<nat>)
    ensures |row| == |to| + 1
    ensures forall j :: 0 <= j <= |to| ==> row[j] == Len(from, to[..j])
  {
    var current := new nat[|to| + 1](_ => 0);
    for i := 0 to |from|
      invariant forall j :: 0 <= j <= |to| ==> current[j] == Len(from[..i], to[..j])
    {
      var prev := current[..];
      assert from[..i + 1][..i] == from[..i];
      for j := 0 to |to|
        invariant forall k :: 0 <= k <= j ==> current[k] == Len(from[..i + 1], to[..k])
        invariant forall k :: j < k <= |to| ==> current[k] == prev[k]
      {
        assert to[..j + 1][..j] == to[..j];
        if from[i] == to[j] {
          current[j + 1] := prev[j] + 1;
        } else {
          current[j + 1] := Max(current[j], prev[j + 1]);
        }
      }
    }
    assert from[..|from|] == from;
    row := current[..];
  }

  // ----- divide and conquer -----

  /** What cutting the second input at `j` leaves of the optimum. */
  ghost function CutLen<T>(a: seq<T>, b: seq<T>, to: seq<T>, j: nat): nat
    requires j <= |to|
  {
    Len(a, to[..j]) + Len(b, to[j..])
  }

  /** The cut at `j` loses nothing, and every later one does. */
  ghost predicate LastBest<T>(a: seq<T>, b: seq<T>, to: seq<T>, j: nat) {
    && j <= |to| && CutLen(a, b, to, j) == Len(a + b, to)
    && forall k :: j < k <= |to| ==> CutLen(a, b, to, k) < Len(a + b, to)
  }

  /** Of all longest common subsequences, the one that halving the first input and cutting
      the second as late as possible leads to. */
  ghost predicate Chosen<T>(common: seq<T>, from: seq<T>, to: seq<T>)
    decreases |from|
  {
    if |from| == 0 then common == []
    else if |from| == 1 then common == if from[0] in to then from else []
    else exists j: nat, n: nat :: ChosenAt(common, from, to, j, n)
  }

  /** The first `n` lines are chosen from the halves before the cuts, the others from those
      after. */
  ghost predicate ChosenAt<T>(common: seq<T>, from: seq<T>, to: seq<T>, j: nat, n: nat)
    requires |from| > 1
    decreases |from|, 0
  {
    var a, b := from[..|from| / 2], from[|from| / 2..];
    && n <= |common| && j <= |to| && LastBest(a, b, to, j)
    && Chosen(common[..n], a, to[..j]) && Chosen(common[n..], b, to[j..])
  }

  /** The choice leaves no freedom. */
  lemma {:induction false} ChosenIsOne<T>(c: seq<T>, d: seq<T>, from: seq<T>, to: seq<T>)
    requires Chosen(c, from, to) && Chosen(d, from, to)
    ensures c == d
    decreases |from|
  {
    hide LastBest;
    if |from| > 1 {
      var j: nat, n: nat :| ChosenAt(c, from, to, j, n);
      var k: nat, m: nat :| ChosenAt(d, from, to, k, m);
      var a, b := from[..|from| / 2], from[|from| / 2..];
      OneCut(a, b, to, j, k);
      ChosenIsOne(c[..n], d[..m], a, to[..j]);
      ChosenIsOne(c[n..], d[m..], b, to[j..]);
      assert c == c[..n] + c[n..] && d == d[..m] + d[m..];
    }
  }

  lemma OneCut<T>(a: seq<T>, b: seq<T>, to: seq<T>, j: nat, k: nat)
    requires LastBest(a, b, to, j) && LastBest(a, b, to, k)
    ensures j == k
  {
    hide CutLen, Len;
  }

  method CalculateCommonSubsequence<T(==)>(from: seq<T>, to: seq<T>) returns (common: seq<T>)
    ensures Common(common, from, to)
    ensures |common| == Len(from, to)
    ensures Chosen(common, from, to)
    decreases |from|
  {
    hide Chosen, LastBest, Len, Subseq;
    ShortChoice(from, to);
    if |from| == 0 {
      return [];
    }
    if |from| == 1 {
      LenOfOne(from[0], to);
      assert from == [from[0]];
      for n := 0 to |to|
        invariant from[0] !in to[..n]
      {
        if from[0] == to[n] {
          SubseqOfOne(from[0], to);
          SubseqOfOne(from[0], from);
          assert [to[n]] == from == [from[0]];
          return [to[n]];
        }
      }
      return [];
    }
    var i := |from| / 2;
    var fromStart, fromEnd := from[..i], from[i..];
    var llB := CommonSubsequenceLength(fromStart, to);
    var llE := CommonSubsequenceLength(Reverse(fromEnd), Reverse(to));
    var jMax, max := BestSplit(fromStart, fromEnd, to, llB, llE);
    var left := CalculateCommonSubsequence(fromStart, to[..jMax]);
    var right := CalculateCommonSubsequence(fromEnd, to[jMax..]);
    common := left + right;
    Joined(from, to, jMax, left, right);
  }

  /** What the choice is for at most one line. */
  lemma {:induction false} ShortChoice<T>(from: seq<T>, to: seq<T>)
    ensures from == [] ==> Chosen([], from, to) && Common([], from, to) && Len(from, to) == 0
    ensures |from| == 1 ==> Chosen(if from[0] in to then from else [], from, to)
    ensures |from| == 1 ==> Common([], from, to)
  {
    if from == [] {
      assert Subseq([], to);
    }
  }

  /** Both halves together. */
  lemma {:induction false} Joined<T>(from: seq<T>, to: seq<T>, j: nat, left: seq<T>, right: seq<T>)
    requires |from| > 1 && j <= |to|
    requires var a, b := from[..|from| / 2], from[|from| / 2..];
             && LastBest(a, b, to, j)
             && Common(left, a, to[..j]) && Common(right, b, to[j..])
             && Chosen(left, a, to[..j]) && Chosen(right, b, to[j..])
             && |left| == Len(a, to[..j]) && |right| == Len(b, to[j..])
    ensures Common(left + right, from, to) && |left + right| == Len(from, to)
    ensures Chosen(left + right, from, to)
  {
    hide Subseq, Len;
    var a, b, common := from[..|from| / 2], from[|from| / 2..], left + right;
    SubseqConcat(left, a, right, b);
    SubseqConcat(left, to[..j], right, to[j..]);
    assert a + b == from && to[..j] + to[j..] == to;
    assert common[..|left|] == left && common[|left|..] == right;
    assert ChosenAt(common, from, to, j, |left|);
  }

  /** The split loop: the best `j` attains the optimum of the whole problem. */
  method BestSplit<T(==)>(fromStart: seq<T>, fromEnd: seq<T>, to: seq<T>, llB: seq<nat>, llE: seq<nat>)
    returns (jMax: nat, max: nat)
    requires |llB| == |llE| == |to| + 1
    requires forall j :: 0 <= j <= |to| ==> llB[j] == Len(fromStart, to[..j])
    requires forall j :: 0 <= j <= |to| ==> llE[j] == Len(Reverse(fromEnd), Reverse(to)[..j])
    ensures jMax <= |to|
    ensures max == Len(fromStart, to[..jMax]) + Len(fromEnd, to[jMax..])
    ensures max == Len(fromStart + fromEnd, to)
    ensures LastBest(fromStart, fromEnd, to, jMax)
  {
    hide Len, Reverse;
    jMax, max := 0, 0;
    ghost var best := LenSplits(fromStart, fromEnd, to);
    for j := 0 to |to| + 1
      invariant jMax <= |to| && (j == 0 ==> max == 0)
      invariant j > 0 ==> max == Len(fromStart, to[..jMax]) + Len(fromEnd, to[jMax..])
      invariant max <= Len(fromStart + fromEnd, to)
      invariant best < j ==> max == Len(fromStart + fromEnd, to)
      invariant forall k :: jMax < k < j ==> CutLen(fromStart, fromEnd, to, k) < max
    {
      var m := llB[j] + llE[|to| - j];
      SuffixRow(fromEnd, to, j);
      LenSuperadditive(fromStart, fromEnd, to, j);
      if m >= max {
        max := m;
        jMax := j;
      }
    }
  }

  /** Row entry `|to| - j` of the reversed problem is the length for the suffix `to[j..]`. */
  lemma {:induction false} SuffixRow<T>(a: seq<T>, to: seq<T>, j: nat)
    requires j <= |to|
    ensures Len(Reverse(a), Reverse(to)[..|to| - j]) == Len(a, to[j..])
  {
    assert to == to[..j] + to[j..];
    ReverseConcat(to[..j], to[j..]);
    assert Reverse(to)[..|to| - j] == Reverse(to[j..]);
    LenReverse(a, to[j..]);
  }

  // ----- stripping -----

  method GetArrayDiffParted<T(==)>(from: seq<T>, to: seq<T>)
    returns (f: seq<T>, t: seq<T>, start: seq<T>, end: seq<T>)
    ensures from == start + f + end && to == start + t + end
    ensures f != [] && t != [] ==> f[0] != t[0] && Last(f) != Last(t)
  {
    f, t, start, end := from, to, [], [];
    while f != [] && t != [] && f[0] == t[0]
      invariant from == start + f && to == start + t
    {
      MoveFirst(start, f);
      MoveFirst(start, t);
      start := start + [f[0]];
      f, t := f[1..], t[1..];
    }
    while f != [] && t != [] && Last(f) == Last(t)
      invariant from == start + f + end && to == start + t + end
      invariant f != [] && t != [] ==> f[0] != t[0]
    {
      MoveLast(start, f, end);
      MoveLast(start, t, end);
      end := [Last(f)] + end;
      f, t := f[..|f| - 1], t[..|t| - 1];
    }
  }

  lemma MoveFirst<T>(start: seq<T>, f: seq<T>)
    requires f != []
    ensures start + f == start + [f[0]] + f[1..]
  {
  }

  lemma MoveLast<T>(start: seq<T>, f: seq<T>, end: seq<T>)
    requires f != []
    ensures start + f + end == start + f[..|f| - 1] + ([Last(f)] + end)
  {
  }

  // ----- the edit script -----

  /** What the script keeps: the stripped prefix, the common subsequence chosen between
      what is left, and the stripped suffix. */
  ghost predicate KeepsChosen<T>(d: seq<Entry<T>>, from: seq<T>, to: seq<T>, start: seq<T>, f: seq<T>, t: seq<T>,
                                 end: seq<T>, common: seq<T>) {
    && from == start + f + end && to == start + t + end
    && (f != [] && t != [] ==> f[0] != t[0] && Last(f) != Last(t))
    && Chosen(common, f, t) && KeptLines(d) == start + common + end
  }

  /** The diff is lossless, correctly numbered, and keeps a longest common subsequence. In
      every run of changes the removals come first, and a line with a change after it is
      kept as early as possible. */
  method DiffToArray<T(==)>(from: seq<T>, to: seq<T>) returns (diff: seq<Entry<T>>)
    ensures Script(diff, from, to)
    ensures Numbered(diff)
    ensures |KeptLines(diff)| == Len(from, to)
    ensures Changes(diff) == |from| + |to| - 2 * Len(from, to)
    ensures RemovalsFirst(diff)
    ensures forall k, n :: 0 <= k < n < |diff| && !diff[n].Old? ==> KeptEarly(diff, k)
    ensures exists start, f, t, end, common :: KeepsChosen(diff, from, to, start, f, t, end, common)
  {
    hide KeptEarly, RemovalsFirst, Orderly, Chosen;
    var f, t, start, end := GetArrayDiffParted(from, to);
    var common := CalculateCommonSubsequence(f, t);
    diff := KeepAll([], [], [], [], start);
    assert [] + start == start;
    AllKeptOrderly(diff);
    diff := Walk(diff, start, start, start, f, t, |start| + 1, |start| + 1, common);
    ghost var walked := diff;
    diff := KeepAll(diff, start + f, start + t, start + common, end);
    KeptAfter(walked, diff);
    StrippingLosesNothing(start, f, t, end);
    ChangesCount(diff);
    assert KeepsChosen(diff, from, to, start, f, t, end, common);
  }

  lemma {:induction false} AllKeptOrderly<T>(d: seq<Entry<T>>)
    requires forall k :: 0 <= k < |d| ==> d[k].Old?
    ensures Orderly(d)
  {
    forall k | 0 <= k < |d|
      ensures KeptEarly(d, k)
    {
      forall m | 0 <= m < k
        ensures !AllChanged(d[m..k])
      {
        assert d[m..k][0] == d[m];
      }
    }
  }

  /** Kept lines at the end change nothing. */
  lemma {:induction false} KeptAfter<T>(d: seq<Entry<T>>, r: seq<Entry<T>>)
    requires d <= r && forall k :: |d| <= k < |r| ==> r[k].Old?
    requires RemovalsFirst(d) && forall k :: 0 <= k < |d| ==> KeptEarly(d, k)
    ensures RemovalsFirst(r)
    ensures forall k, n :: 0 <= k < n < |r| && !r[n].Old? ==> KeptEarly(r, k)
  {
    hide KeptEarly;
    forall k, n | 0 <= k < n < |r| && !r[n].Old?
      ensures KeptEarly(r, k)
    {
      EarlyPrefix(d, r, k);
    }
  }

  /** How far a script under construction has come: what it spells so far. */
  ghost predicate Partial<T>(d: seq<Entry<T>>, from: seq<T>, to: seq<T>, kept: seq<T>) {
    Script(d, from, to) && KeptLines(d) == kept && Numbered(d)
  }

  /** Appending one entry with the current counter as its number. */
  lemma Append<T>(d: seq<Entry<T>>, from: seq<T>, to: seq<T>, kept: seq<T>, e: Entry<T>)
    requires Partial(d, from, to, kept)
    requires e.Removed? ==> e.line == |from| + 1
    requires e.Added? ==> e.line == |to| + 1
    ensures Partial(d + [e],
                    from + (if e.Added? then [] else [e.token]),
                    to + (if e.Removed? then [] else [e.token]),
                    kept + (if e.Old? then [e.token] else []))
  {
    var r := d + [e];
    assert r[..|r| - 1] == d;
    forall k | 0 <= k < |r|
      ensures NumberedAt(r, k)
    {
      assert r[..k] == d[..k];
      if k < |d| {
        assert NumberedAt(d, k);
      } else {
        assert d[..k] == d;
      }
    }
  }

  /** Unchanged tokens, as in the loops over the stripped prefix and suffix. */
  method KeepAll<T(==)>(d: seq<Entry<T>>, ghost from: seq<T>, ghost to: seq<T>, ghost kept: seq<T>, tokens: seq<T>)
    returns (diff: seq<Entry<T>>)
    requires Partial(d, from, to, kept)
    ensures Partial(diff, from + tokens, to + tokens, kept + tokens)
    ensures d <= diff && forall k :: |d| <= k < |diff| ==> diff[k].Old?
  {
    diff := d;
    assert tokens[..0] == [];
    assert from + [] == from && to + [] == to && kept + [] == kept;
    for n := 0 to |tokens|
      invariant Partial(diff, from + tokens[..n], to + tokens[..n], kept + tokens[..n])
      invariant d <= diff && forall k :: |d| <= k < |diff| ==> diff[k].Old?
    {
      Append(diff, from + tokens[..n], to + tokens[..n], kept + tokens[..n], Old(tokens[n]));
      diff := diff + [Old(tokens[n])];
      assert tokens[..n + 1] == tokens[..n] + [tokens[n]];
      assert forall s: seq<T> :: s + tokens[..n + 1] == s + tokens[..n] + [tokens[n]];
    }
    assert tokens[..|tokens|] == tokens;
  }

  /** The walk over the common subsequence; the counters start after the prefix. */
  method Walk<T(==)>(d: seq<Entry<T>>, ghost from: seq<T>, ghost to: seq<T>, ghost kept: seq<T>,
                     f0: seq<T>, t0: seq<T>, fromLine0: nat, toLine0: nat, common: seq<T>)
    returns (diff: seq<Entry<T>>)
    requires Partial(d, from, to, kept)
    requires fromLine0 == |from| + 1 && toLine0 == |to| + 1
    requires Common(common, f0, t0) && Orderly(d)
    ensures Partial(diff, from + f0, to + t0, kept + common)
    ensures RemovalsFirst(diff) && forall k :: 0 <= k < |diff| ==> KeptEarly(diff, k)
  {
    hide Orderly, RemovalsFirst, KeptEarly, Run, Partial, Subseq, Len, Last;
    diff := d;
    var f, t, fromLine, toLine := f0, t0, fromLine0, toLine0;
    ghost var fromDone, toDone := from, to;
    assert common[0..] == common && kept + common[..0] == kept;
    for n := 0 to |common|
      invariant Partial(diff, fromDone, toDone, kept + common[..n])
      invariant fromDone + f == from + f0 && toDone + t == to + t0
      invariant fromLine == |fromDone| + 1 && toLine == |toDone| + 1
      invariant Common(common[n..], f, t) && Orderly(diff)
    {
      var token := common[n];
      ghost var d0 := diff;
      diff, f, fromLine, fromDone := RemoveUntil(diff, f, fromLine, common[n..], fromDone, toDone, kept + common[..n]);
      ghost var d1 := diff;
      diff, t, toLine, toDone := AddUntil(diff, t, toLine, common[n..], fromDone, toDone, kept + common[..n]);
      AddRun(d0, d1[|d0|..], diff[|d1|..], common[n..]);
      assert d0 + d1[|d0|..] + diff[|d1|..] == diff;
      Append(diff, fromDone, toDone, kept + common[..n], Old(token));
      diff := diff + [Old(token)];
      fromDone, toDone := fromDone + [token], toDone + [token];
      fromLine, toLine := fromLine + 1, toLine + 1;
      f, t := f[1..], t[1..];
      assert common[n..][1..] == common[n + 1..];
      assert kept + common[..n] + [token] == kept + common[..n + 1];
    }
    assert common[..|common|] == common;
    ghost var d0 := diff;
    diff, f, fromLine, fromDone := RemoveUntil(diff, f, fromLine, [], fromDone, toDone, kept + common);
    ghost var d1 := diff;
    diff, t, toLine, toDone := AddUntil(diff, t, toLine, [], fromDone, toDone, kept + common);
    AddRun(d0, d1[|d0|..], diff[|d1|..], []);
    assert d0 + d1[|d0|..] + diff[|d1|..] == diff;
    assert fromDone == from + f0 && toDone == to + t0;
  }

  /** Changes of one kind, up to the next kept line. */
  ghost predicate Run<T>(r: seq<Entry<T>>, rest: seq<T>, added: bool) {
    forall k :: 0 <= k < |r| ==>
      && (if added then r[k].Added? else r[k].Removed?)
      && (rest != [] ==> r[k].token != rest[0])
  }

  /** A script built so far in runs that are removals first, each kept line as early as it can be. */
  ghost predicate Orderly<T>(d: seq<Entry<T>>) {
    && RemovalsFirst(d) && (d != [] ==> Last(d).Old?)
    && forall k :: 0 <= k < |d| ==> KeptEarly(d, k)
  }

  /** One more run after an orderly script. */
  lemma {:induction false} AddRun<T>(d: seq<Entry<T>>, removed: seq<Entry<T>>, added: seq<Entry<T>>, rest: seq<T>)
    requires Orderly(d) && Run(removed, rest, false) && Run(added, rest, true)
    ensures RemovalsFirst(d + removed + added)
    ensures forall k :: 0 <= k < |d + removed + added| ==> KeptEarly(d + removed + added, k)
    ensures rest != [] ==> Orderly(d + removed + added + [Old(rest[0])])
  {
    var r := d + removed + added;
    forall k | 0 <= k < |r|
      ensures KeptEarly(r, k)
    {
      if k < |d| {
        EarlyPrefix(d, r, k);
      }
    }
    if rest != [] {
      var all := r + [Old(rest[0])];
      forall k | 0 <= k < |all|
        ensures KeptEarly(all, k)
      {
        if k < |r| {
          EarlyPrefix(r, all, k);
        } else {
          EarlyLast(d, removed + added, rest[0]);
          assert d + (removed + added) == r;
        }
      }
    }
  }

  lemma {:induction false} EarlyPrefix<T>(d: seq<Entry<T>>, r: seq<Entry<T>>, k: nat)
    requires d <= r && k < |d| && KeptEarly(d, k)
    ensures KeptEarly(r, k)
  {
    hide AllChanged;
    assert forall m :: 0 <= m < k ==> r[m..k] == d[m..k];
  }

  lemma {:induction false} EarlyLast<T>(d: seq<Entry<T>>, run: seq<Entry<T>>, token: T)
    requires d != [] ==> Last(d).Old?
    requires forall k :: 0 <= k < |run| ==> !run[k].Old? && run[k].token != token
    ensures KeptEarly(d + run + [Old(token)], |d + run|)
  {
    var all, n := d + run + [Old(token)], |d + run|;
    forall m | 0 <= m < |d|
      ensures !AllChanged(all[m..n])
    {
      assert all[m..n][|d| - 1 - m] == Last(d);
    }
    forall m | |d| <= m < n
      ensures all[m].token != token
    {
      assert all[m] == run[m - |d|];
    }
  }

  /** Removes lines of the first input until the next common token, or until it is
      exhausted when no common token is left; never past a token still to come. */
  method RemoveUntil<T(==)>(d: seq<Entry<T>>, f0: seq<T>, line0: nat, rest: seq<T>,
                            ghost from: seq<T>, ghost to: seq<T>, ghost kept: seq<T>)
    returns (diff: seq<Entry<T>>, f: seq<T>, line: nat, ghost done: seq<T>)
    requires Partial(d, from, to, kept) && line0 == |from| + 1
    requires Subseq(rest, f0)
    ensures Partial(diff, done, to, kept) && line == |done| + 1
    ensures done + f == from + f0
    ensures d <= diff && Run(diff[|d|..], rest, false)
    ensures if rest == [] then f == [] else f != [] && f[0] == rest[0] && Subseq(rest[1..], f[1..])
  {
    diff, f, line, done := d, f0, line0, from;
    while f != [] && (rest == [] || f[0] != rest[0])
      invariant Partial(diff, done, to, kept) && line == |done| + 1
      invariant done + f == from + f0
      invariant Subseq(rest, f)
      invariant d <= diff && Run(diff[|d|..], rest, false)
    {
      if rest != [] {
        SubseqGreedy(rest, f);
      }
      Append(diff, done, to, kept, Removed(f[0], line));
      diff, done := diff + [Removed(f[0], line)], done + [f[0]];
      f, line := f[1..], line + 1;
      assert to + [] == to && kept + [] == kept;
    }
    if rest != [] {
      SubseqGreedy(rest, f);
    }
  }

  /** The same walk over the second input. */
  method AddUntil<T(==)>(d: seq<Entry<T>>, t0: seq<T>, line0: nat, rest: seq<T>,
                         ghost from: seq<T>, ghost to: seq<T>, ghost kept: seq<T>)
    returns (diff: seq<Entry<T>>, t: seq<T>, line: nat, ghost done: seq<T>)
    requires Partial(d, from, to, kept) && line0 == |to| + 1
    requires Subseq(rest, t0)
    ensures Partial(diff, from, done, kept) && line == |done| + 1
    ensures done + t == to + t0
    ensures d <= diff && Run(diff[|d|..], rest, true)
    ensures if rest == [] then t == [] else t != [] && t[0] == rest[0] && Subseq(rest[1..], t[1..])
  {
    diff, t, line, done := d, t0, line0, to;
    while t != [] && (rest == [] || t[0] != rest[0])
      invariant Partial(diff, from, done, kept) && line == |done| + 1
      invariant done + t == to + t0
      invariant Subseq(rest, t)
      invariant d <= diff && Run(diff[|d|..], rest, true)
    {
      if rest != [] {
        SubseqGreedy(rest, t);
      }
      Append(diff, from, done, kept, Added(t[0], line));
      diff, done := diff + [Added(t[0], line)], done + [t[0]];
      t, line := t[1..], line + 1;
      assert from + [] == from && kept + [] == kept;
    }
    if rest != [] {
      SubseqGreedy(rest, t);
    }
  }

  lemma {:induction false} StrippingLosesNothing<T>(start: seq<T>, f: seq<T>, t: seq<T>, end: seq<T>)
    ensures Len(start + f + end, start + t + end) == |start| + Len(f, t) + |end|
  {
    LenCommonSuffix(start + f, start + t, end);
    LenCommonPrefix(start, f, t);
  }

  // ----- what any edit script satisfies -----

  lemma {:induction false} ChangesCount<T>(d: seq<Entry<T>>)
    ensures Changes(d) == |FromLines(d)| + |ToLines(d)| - 2 * |KeptLines(d)|
  {
    if d != [] {
      ChangesCount(d[..|d| - 1]);
    }
  }

  /** The lines any script keeps form a common subsequence of its two inputs. */
  lemma {:induction false} KeptIsCommon<T>(d: seq<Entry<T>>)
    ensures Common(KeptLines(d), FromLines(d), ToLines(d))
  {
    if d != [] {
      var d' := d[..|d| - 1];
      KeptIsCommon(d');
      var k := if Last(d).Old? then [Last(d).token] else [];
      var f := if Last(d).Added? then [] else [Last(d).token];
      var t := if Last(d).Removed? then [] else [Last(d).token];
      SubseqConcat(KeptLines(d'), FromLines(d'), k, f);
      SubseqConcat(KeptLines(d'), ToLines(d'), k, t);
    }
  }

  /** No edit script between the same inputs has fewer changes than one that keeps
      `Len(from, to)` lines, as `DiffToArray` does. */
  lemma {:induction false} NoShorterScript<T>(other: seq<Entry<T>>, from: seq<T>, to: seq<T>)
    requires Script(other, from, to)
    ensures |KeptLines(other)| <= Len(from, to)
    ensures Changes(other) >= |from| + |to| - 2 * Len(from, to)
  {
    KeptIsCommon(other);
    LenIsUpperBound(KeptLines(other), from, to);
    ChangesCount(other);
  }

  /** In a numbered script a removed line is found at its number in the first input,
      an added one at its number in the second. */
  lemma {:induction false} NumbersPointAtLines<T>(d: seq<Entry<T>>, k: nat)
    requires k < |d| && Numbered(d)
    ensures d[k].Removed? ==> 1 <= d[k].line <= |FromLines(d)| && FromLines(d)[d[k].line - 1] == d[k].token
    ensures d[k].Added? ==> 1 <= d[k].line <= |ToLines(d)| && ToLines(d)[d[k].line - 1] == d[k].token
  {
    var d' := d[..|d| - 1];
    if k < |d'| {
      assert forall n :: 0 <= n < |d'| ==> d'[..n] == d[..n] && NumberedAt(d, n);
      assert Numbered(d');
      NumbersPointAtLines(d', k);
    } else {
      assert NumberedAt(d, k);
    }
  }
}
