/** Subsequences and the length of a longest common subsequence, the reference
    that the diff engine is measured against. */
module Lcs {
  import opened Seqs

  /** `c` can be obtained from `a` by dropping elements. */
  predicate Subseq<T(==)>(c: seq<T>, a: seq<T>)
    decreases |a|
  {
    || c == []
    || (a != [] && ((c[0] == a[0] && Subseq(c[1..], a[1..])) || Subseq(c, a[1..])))
  }

  predicate Common<T(==)>(c: seq<T>, a: seq<T>, b: seq<T>) {
    Subseq(c, a) && Subseq(c, b)
  }

  /** The textbook recurrence, peeling the last elements. */
  function Len<T(==)>(a: seq<T>, b: seq<T>): (n: nat)
    decreases |a| + |b|
  {
    if a == [] || b == [] then 0
    else if a[|a| - 1] == b[|b| - 1] then Len(a[..|a| - 1], b[..|b| - 1]) + 1
    else Max(Len(a[..|a| - 1], b), Len(a, b[..|b| - 1]))
  }

  // ----- how subsequences behave under concatenation -----

  lemma {:induction false} SubseqSkip<T>(c: seq<T>, p: seq<T>, a: seq<T>)
    requires Subseq(c, a)
    ensures Subseq(c, p + a)
    decreases |p|
  {
    if p == [] {
      assert p + a == a;
    } else {
      SubseqSkip(c, p[1..], a);
      assert (p + a)[1..] == p[1..] + a;
    }
  }

  lemma {:induction false} SubseqConcat<T>(c: seq<T>, a: seq<T>, d: seq<T>, b: seq<T>)
    requires Subseq(c, a) && Subseq(d, b)
    ensures Subseq(c + d, a + b)
    decreases |a|
  {
    if c == [] {
      assert c + d == d;
      SubseqSkip(d, a, b);
    } else {
      assert (a + b)[1..] == a[1..] + b;
      if c[0] == a[0] && Subseq(c[1..], a[1..]) {
        SubseqConcat(c[1..], a[1..], d, b);
        assert (c + d)[1..] == c[1..] + d;
      } else {
        SubseqConcat(c, a[1..], d, b);
      }
    }
  }

  lemma {:induction false} SubseqRefl<T>(a: seq<T>)
    ensures Subseq(a, a)
  {
    if a != [] {
      SubseqRefl(a[1..]);
    }
  }

  lemma {:induction false} SubseqTail<T>(c: seq<T>, a: seq<T>)
    requires Subseq(c, a) && c != []
    ensures Subseq(c[1..], a)
    decreases |a|
  {
    if c[0] == a[0] && Subseq(c[1..], a[1..]) {
    } else {
      SubseqTail(c, a[1..]);
    }
  }

  /** Taking the first match never hurts: the greedy choice behind the diff walk. */
  lemma {:induction false} SubseqGreedy<T>(c: seq<T>, a: seq<T>)
    requires Subseq(c, a) && c != []
    ensures a != []
    ensures if c[0] == a[0] then Subseq(c[1..], a[1..]) else Subseq(c, a[1..])
  {
    if c[0] == a[0] && !Subseq(c[1..], a[1..]) {
      SubseqTail(c, a[1..]);
    }
  }

  /** A subsequence of a concatenation splits at some point `k`. */
  lemma {:induction false} SubseqSplit<T>(c: seq<T>, a: seq<T>, b: seq<T>) returns (k: nat)
    requires Subseq(c, a + b)
    ensures k <= |c| && Subseq(c[..k], a) && Subseq(c[k..], b)
    decreases |a|
  {
    if c == [] {
      k := 0;
    } else if a == [] {
      assert a + b == b;
      assert c[0..] == c;
      k := 0;
    } else {
      assert (a + b)[1..] == a[1..] + b;
      if c[0] == a[0] && Subseq(c[1..], (a + b)[1..]) {
        var k' := SubseqSplit(c[1..], a[1..], b);
        k := k' + 1;
        assert c[1..][..k'] == c[..k][1..];
        assert c[1..][k'..] == c[k..];
      } else {
        k := SubseqSplit(c, a[1..], b);
      }
    }
  }

  /** Dually: where a concatenation `c + d` is found inside `b`, `b` splits. */
  lemma {:induction false} SplitTarget<T>(c: seq<T>, d: seq<T>, b: seq<T>) returns (j: nat)
    requires Subseq(c + d, b)
    ensures j <= |b| && Subseq(c, b[..j]) && Subseq(d, b[j..])
    decreases |b|
  {
    if c == [] {
      assert c + d == d;
      assert b[0..] == b;
      j := 0;
    } else {
      if (c + d)[0] == b[0] && Subseq((c + d)[1..], b[1..]) {
        assert (c + d)[1..] == c[1..] + d;
        var j' := SplitTarget(c[1..], d, b[1..]);
        j := j' + 1;
        assert b[..j][1..] == b[1..][..j'];
        assert b[j..] == b[1..][j'..];
      } else {
        var j' := SplitTarget(c, d, b[1..]);
        j := j' + 1;
        assert b[..j][1..] == b[1..][..j'];
        assert b[j..] == b[1..][j'..];
      }
    }
  }

  lemma {:induction false} SubseqLength<T>(c: seq<T>, a: seq<T>)
    requires Subseq(c, a)
    ensures |c| <= |a|
    ensures forall x :: x in c ==> x in a
    decreases |a|
  {
    if c != [] {
      SubseqGreedy(c, a);
      if c[0] == a[0] {
        SubseqLength(c[1..], a[1..]);
        assert c == [c[0]] + c[1..];
      } else {
        SubseqLength(c, a[1..]);
      }
    }
  }

  lemma {:induction false} SubseqReverse<T>(c: seq<T>, a: seq<T>)
    requires Subseq(c, a)
    ensures Subseq(Reverse(c), Reverse(a))
    decreases |a|
  {
    if c != [] {
      SubseqGreedy(c, a);
      if c[0] == a[0] {
        SubseqReverse(c[1..], a[1..]);
        SubseqConcat(Reverse(c[1..]), Reverse(a[1..]), [c[0]], [a[0]]);
      } else {
        SubseqReverse(c, a[1..]);
        SubseqConcat(Reverse(c), Reverse(a[1..]), [], [a[0]]);
        assert Reverse(c) + [] == Reverse(c);
      }
    }
  }

  // ----- `Len` is the maximum over all common subsequences -----

  /** Peeling the last element of the host costs at most the last element kept. */
  lemma {:induction false} SubseqInit<T>(c: seq<T>, a: seq<T>)
    requires Subseq(c, a) && c != []
    ensures a != []
    ensures Subseq(c[..|c| - 1], a[..|a| - 1])
    ensures Subseq(c, a[..|a| - 1]) || c[|c| - 1] == a[|a| - 1]
  {
    SubseqLength(c, a);
    var a', x := a[..|a| - 1], a[|a| - 1];
    assert a == a' + [x];
    var k := SubseqSplit(c, a', [x]);
    SubseqLength(c[k..], [x]);
    if k == |c| {
      assert c[..k] == c;
      SubseqInitOfWhole(c, a');
    } else {
      assert c[k..][0] == c[|c| - 1] == x;
      assert c[..k] == c[..|c| - 1];
    }
  }

  lemma {:induction false} SubseqInitOfWhole<T>(c: seq<T>, a: seq<T>)
    requires Subseq(c, a) && c != []
    ensures Subseq(c[..|c| - 1], a)
    decreases |a|
  {
    var d := c[..|c| - 1];
    if d != [] {
      SubseqGreedy(c, a);
      if c[0] == a[0] {
        SubseqInitOfWhole(c[1..], a[1..]);
        assert c[1..][..|c[1..]| - 1] == d[1..];
      } else {
        SubseqInitOfWhole(c, a[1..]);
      }
    }
  }

  lemma {:induction false} LenIsUpperBound<T>(c: seq<T>, a: seq<T>, b: seq<T>)
    requires Common(c, a, b)
    ensures |c| <= Len(a, b)
    decreases |a| + |b|
  {
    if c != [] {
      SubseqInit(c, a);
      SubseqInit(c, b);
      if a[|a| - 1] == b[|b| - 1] {
        LenIsUpperBound(c[..|c| - 1], a[..|a| - 1], b[..|b| - 1]);
      } else if Subseq(c, a[..|a| - 1]) {
        LenIsUpperBound(c, a[..|a| - 1], b);
      } else {
        LenIsUpperBound(c, a, b[..|b| - 1]);
      }
    }
  }

  lemma {:induction false} LenIsAttained<T>(a: seq<T>, b: seq<T>) returns (c: seq<T>)
    ensures Common(c, a, b) && |c| == Len(a, b)
    decreases |a| + |b|
  {
    if a == [] || b == [] {
      c := [];
    } else {
      var a', b' := a[..|a| - 1], b[..|b| - 1];
      assert a == a' + [a[|a| - 1]] && b == b' + [b[|b| - 1]];
      if a[|a| - 1] == b[|b| - 1] {
        c := LenIsAttained(a', b');
        SubseqConcat(c, a', [a[|a| - 1]], [a[|a| - 1]]);
        SubseqConcat(c, b', [b[|b| - 1]], [b[|b| - 1]]);
        c := c + [a[|a| - 1]];
      } else if Len(a', b) >= Len(a, b') {
        c := LenIsAttained(a', b);
        SubseqConcat(c, a', [], [a[|a| - 1]]);
        assert c + [] == c;
      } else {
        c := LenIsAttained(a, b');
        SubseqConcat(c, b', [], [b[|b| - 1]]);
        assert c + [] == c;
      }
    }
  }

  // ----- the three facts the linear-space algorithm rests on -----

  lemma {:induction false} LenReverse<T>(a: seq<T>, b: seq<T>)
    ensures Len(Reverse(a), Reverse(b)) == Len(a, b)
  {
    var c := LenIsAttained(a, b);
    SubseqReverse(c, a);
    SubseqReverse(c, b);
    LenIsUpperBound(Reverse(c), Reverse(a), Reverse(b));
    var d := LenIsAttained(Reverse(a), Reverse(b));
    SubseqReverse(d, Reverse(a));
    SubseqReverse(d, Reverse(b));
    ReverseTwice(a);
    ReverseTwice(b);
    LenIsUpperBound(Reverse(d), a, b);
  }

  /** No split of `b` beats the optimum of the whole. */
  lemma {:induction false} LenSuperadditive<T>(a1: seq<T>, a2: seq<T>, b: seq<T>, j: nat)
    requires j <= |b|
    ensures Len(a1, b[..j]) + Len(a2, b[j..]) <= Len(a1 + a2, b)
  {
    var c := LenIsAttained(a1, b[..j]);
    var d := LenIsAttained(a2, b[j..]);
    SubseqConcat(c, a1, d, a2);
    SubseqConcat(c, b[..j], d, b[j..]);
    assert b[..j] + b[j..] == b;
    LenIsUpperBound(c + d, a1 + a2, b);
  }

  /** Some split of `b` attains it. */
  lemma LenSplits<T>(a1: seq<T>, a2: seq<T>, b: seq<T>) returns (j: nat)
    ensures j <= |b| && Len(a1, b[..j]) + Len(a2, b[j..]) == Len(a1 + a2, b)
  {
    var c := LenIsAttained(a1 + a2, b);
    var k := SubseqSplit(c, a1, a2);
    assert c == c[..k] + c[k..];
    j := SplitTarget(c[..k], c[k..], b);
    LenIsUpperBound(c[..k], a1, b[..j]);
    LenIsUpperBound(c[k..], a2, b[j..]);
    LenSuperadditive(a1, a2, b, j);
  }

  lemma {:induction false} LenOfOne<T>(x: T, b: seq<T>)
    ensures Len([x], b) == if x in b then 1 else 0
  {
    var c := LenIsAttained([x], b);
    SubseqLength(c, [x]);
    SubseqLength(c, b);
    if c != [] {
      assert c[0] in [x] && c[0] in b;
    }
    if x in b {
      SubseqOfOne(x, b);
      SubseqRefl([x]);
      LenIsUpperBound([x], [x], b);
    }
  }

  lemma {:induction false} SubseqOfOne<T>(x: T, b: seq<T>)
    requires x in b
    ensures Subseq([x], b)
    decreases |b|
  {
    if b[0] != x {
      SubseqOfOne(x, b[1..]);
    }
  }

  // ----- stripping a common prefix and suffix loses nothing -----

  lemma {:induction false} LenCommonSuffix<T>(a: seq<T>, b: seq<T>, s: seq<T>)
    ensures Len(a + s, b + s) == Len(a, b) + |s|
    decreases |s|
  {
    if s == [] {
      assert a + s == a && b + s == b;
    } else {
      var s' := s[..|s| - 1];
      LenCommonSuffix(a, b, s');
      assert (a + s)[..|a + s| - 1] == a + s';
      assert (b + s)[..|b + s| - 1] == b + s';
    }
  }

  lemma {:induction false} LenCommonPrefix<T>(p: seq<T>, a: seq<T>, b: seq<T>)
    ensures Len(p + a, p + b) == |p| + Len(a, b)
  {
    LenReverse(p + a, p + b);
    ReverseConcat(p, a);
    ReverseConcat(p, b);
    LenCommonSuffix(Reverse(a), Reverse(b), Reverse(p));
    LenReverse(a, b);
  }
}
