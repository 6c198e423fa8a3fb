/** Selection and aggregation over finite lists: the model of JavaScript's
    `Array.prototype.filter`, `slice(0, n)` and a summing `reduce`, together
    with the facts the panels rely on. */
module Seqs {

  /** `idx` lists, in strictly increasing order, positions of `s` whose
      elements are the elements of `r`: `r` is an order-preserving
      subsequence of `s`. */
  ghost predicate Embeds<T>(idx: seq<nat>, r: seq<T>, s: seq<T>) {
    && |idx| == |r|
    && (forall k :: 0 <= k < |idx| ==> idx[k] < |s| && r[k] == s[idx[k]])
    && (forall k, l :: 0 <= k < l < |idx| ==> idx[k] < idx[l])
  }

  ghost predicate IsSubsequence<T>(r: seq<T>, s: seq<T>) {
    exists idx: seq<nat> :: Embeds(idx, r, s)
  }

  /** `xs.filter(p)`: the elements of `s` that satisfy `p`, in order. */
  function Filter<T>(s: seq<T>, p: T -> bool): (r: seq<T>)
    ensures |r| <= |s|
    decreases |s|
  {
    if s == [] then []
    else
      var init := Filter(s[..|s| - 1], p);
      if p(s[|s| - 1]) then init + [s[|s| - 1]] else init
  }

  /** Soundness and completeness: the result holds only elements of `s` that
      satisfy `p`, and every element of `s` that satisfies `p`. */
  lemma {:induction false} FilterMembers<T>(s: seq<T>, p: T -> bool)
    ensures forall i :: 0 <= i < |Filter(s, p)| ==> Filter(s, p)[i] in s && p(Filter(s, p)[i])
    ensures forall i :: 0 <= i < |s| && p(s[i]) ==> s[i] in Filter(s, p)
    decreases |s|
  {
    if s != [] {
      var s' := s[..|s| - 1];
      FilterMembers(s', p);
      assert forall i :: 0 <= i < |s'| ==> s[i] == s'[i];
    }
  }

  /** The positions `i < n` with `p(s[i])`, in increasing order: an
      independent description of what `Filter` keeps. */
  ghost function Positions<T>(s: seq<T>, p: T -> bool, n: nat): (idx: seq<nat>)
    requires n <= |s|
    ensures forall k :: 0 <= k < |idx| ==> idx[k] < n && p(s[idx[k]])
    ensures forall k, l :: 0 <= k < l < |idx| ==> idx[k] < idx[l]
    ensures forall i :: 0 <= i < n && p(s[i]) ==> i in idx
    decreases n
  {
    if n == 0 then []
    else
      var init := Positions(s, p, n - 1);
      if p(s[n - 1]) then init + [n - 1] else init
  }

  /** `Filter(s, p)` is exactly the elements of `s` at the positions that
      satisfy `p`, taken in order. */
  lemma {:induction false} FilterSelectsPositions<T>(s: seq<T>, p: T -> bool)
    ensures var idx := Positions(s, p, |s|);
      |Filter(s, p)| == |idx| && forall k :: 0 <= k < |idx| ==> Filter(s, p)[k] == s[idx[k]]
    decreases |s|
  {
    if s != [] {
      var n := |s| - 1;
      var s' := s[..n];
      FilterSelectsPositions(s', p);
      assert s[..n] == s'[..n];
      PositionsPrefix(s, s', p, n);
      var idx', r' := Positions(s', p, n), Filter(s', p);
      var idx, r := Positions(s, p, |s|), Filter(s, p);
      var tail := if p(s[n]) then [s[n]] else [];
      assert r == r' + tail;
      assert idx == idx' + if p(s[n]) then [n] else [];
      forall k | 0 <= k < |idx|
        ensures r[k] == s[idx[k]]
      {
        if k < |idx'| {
          assert r[k] == r'[k] == s'[idx'[k]];
        }
      }
    }
  }

  /** Positions below `n` do not depend on the elements from `n` on. */
  lemma {:induction false} PositionsPrefix<T>(s: seq<T>, t: seq<T>, p: T -> bool, n: nat)
    requires n <= |s| && n <= |t|
    requires s[..n] == t[..n]
    ensures Positions(s, p, n) == Positions(t, p, n)
    decreases n
  {
    if n > 0 {
      assert s[n - 1] == s[..n][n - 1] == t[..n][n - 1] == t[n - 1];
      assert s[..n - 1] == s[..n][..n - 1] == t[..n][..n - 1] == t[..n - 1];
      PositionsPrefix(s, t, p, n - 1);
    }
  }

  /** The filtered list is an order-preserving subsequence of the input. */
  lemma FilterIsSubsequence<T>(s: seq<T>, p: T -> bool)
    ensures IsSubsequence(Filter(s, p), s)
  {
    FilterSelectsPositions(s, p);
    var idx := Positions(s, p, |s|);
    assert Embeds(idx, Filter(s, p), s);
  }

  /** Filtering commutes with concatenation. */
  lemma {:induction false} FilterAppend<T>(a: seq<T>, b: seq<T>, p: T -> bool)
    ensures Filter(a + b, p) == Filter(a, p) + Filter(b, p)
    decreases |b|
  {
    if b == [] {
      assert a + b == a;
    } else {
      var b' := b[..|b| - 1];
      assert (a + b)[..|a + b| - 1] == a + b';
      assert (a + b)[|a + b| - 1] == b[|b| - 1];
      FilterAppend(a, b', p);
    }
  }

  /** Two predicates that agree everywhere select the same list. */
  lemma {:induction false} FilterCongruent<T>(s: seq<T>, p: T -> bool, q: T -> bool)
    requires forall x :: p(x) == q(x)
    ensures Filter(s, p) == Filter(s, q)
    decreases |s|
  {
    if s != [] {
      FilterCongruent(s[..|s| - 1], p, q);
    }
  }

  /** A predicate that holds of every element keeps the list unchanged. */
  lemma {:induction false} FilterKeepsAll<T>(s: seq<T>, p: T -> bool)
    requires forall i :: 0 <= i < |s| ==> p(s[i])
    ensures Filter(s, p) == s
    decreases |s|
  {
    if s != [] {
      var s' := s[..|s| - 1];
      FilterKeepsAll(s', p);
      assert s' + [s[|s| - 1]] == s;
    }
  }

  /** Filtering twice by the same predicate is filtering once. */
  lemma FilterIdempotent<T>(s: seq<T>, p: T -> bool)
    ensures Filter(Filter(s, p), p) == Filter(s, p)
  {
    FilterMembers(s, p);
    FilterKeepsAll(Filter(s, p), p);
  }

  /** Every element falls on exactly one side of `p`: filtering by `p` and
      by its negation `q` splits the list. */
  lemma {:induction false} FilterPartitionLength<T>(s: seq<T>, p: T -> bool, q: T -> bool)
    requires forall x :: q(x) == !p(x)
    ensures |Filter(s, p)| + |Filter(s, q)| == |s|
    decreases |s|
  {
    if s != [] {
      FilterPartitionLength(s[..|s| - 1], p, q);
    }
  }

  /** A predicate that holds of `s[k]` and of no other element selects
      `s[k]` alone. */
  lemma {:induction false} FilterSingle<T>(s: seq<T>, p: T -> bool, k: nat)
    requires k < |s| && p(s[k])
    requires forall i :: 0 <= i < |s| && i != k ==> !p(s[i])
    ensures Filter(s, p) == [s[k]]
    decreases |s|
  {
    var s' := s[..|s| - 1];
    if k == |s| - 1 {
      NoneSelected(s', p);
    } else {
      FilterSingle(s', p, k);
    }
  }

  /** Filtering by `p` and then by `q` is filtering once by their
      conjunction `r`. */
  lemma {:induction false} FilterFilter<T>(s: seq<T>, p: T -> bool, q: T -> bool, r: T -> bool)
    requires forall x :: r(x) == (p(x) && q(x))
    ensures Filter(Filter(s, p), q) == Filter(s, r)
    decreases |s|
  {
    if s != [] {
      var s' := s[..|s| - 1];
      var last := s[|s| - 1];
      FilterFilter(s', p, q, r);
      if p(last) {
        FilterAppend(Filter(s', p), [last], q);
        assert [last][..0] == [];
      }
    }
  }

  /** Filtering a prefix of length `n`, split into the prefix one shorter
      and the element at `n - 1`. */
  lemma FilterPrefixStep<T>(s: seq<T>, p: T -> bool, n: nat)
    requires 0 < n <= |s|
    ensures Filter(s[..n], p) == Filter(s[..n - 1], p) + (if p(s[n - 1]) then [s[n - 1]] else [])
  {
    assert s[..n][..n - 1] == s[..n - 1];
  }

  /** A predicate that holds of no element selects nothing. */
  lemma {:induction false} NoneSelected<T>(s: seq<T>, p: T -> bool)
    requires forall i :: 0 <= i < |s| ==> !p(s[i])
    ensures Filter(s, p) == []
    decreases |s|
  {
    if s != [] {
      NoneSelected(s[..|s| - 1], p);
    }
  }

  /** `xs.slice(0, n)`. */
  function Take<T>(s: seq<T>, n: nat): (r: seq<T>)
    ensures |r| <= n && |r| <= |s|
    ensures |r| == n || |r| == |s|
    ensures r <= s
  {
    if n <= |s| then s[..n] else s
  }

  /** `xs.reduce((sum, x) => sum + f(x), 0)` over integers. */
  function Sum<T>(s: seq<T>, f: T -> int): int
    decreases |s|
  {
    if s == [] then 0 else Sum(s[..|s| - 1], f) + f(s[|s| - 1])
  }

  /** The same reduction over exact reals. */
  function RealSum<T>(s: seq<T>, f: T -> real): real
    decreases |s|
  {
    if s == [] then 0.0 else RealSum(s[..|s| - 1], f) + f(s[|s| - 1])
  }

  lemma {:induction false} SumAppend<T>(a: seq<T>, b: seq<T>, f: T -> int)
    ensures Sum(a + b, f) == Sum(a, f) + Sum(b, f)
    decreases |b|
  {
    if b == [] {
      assert a + b == a;
    } else {
      assert (a + b)[..|a + b| - 1] == a + b[..|b| - 1];
      assert (a + b)[|a + b| - 1] == b[|b| - 1];
      SumAppend(a, b[..|b| - 1], f);
    }
  }

  lemma {:induction false} RealSumAppend<T>(a: seq<T>, b: seq<T>, f: T -> real)
    ensures RealSum(a + b, f) == RealSum(a, f) + RealSum(b, f)
    decreases |b|
  {
    if b == [] {
      assert a + b == a;
    } else {
      assert (a + b)[..|a + b| - 1] == a + b[..|b| - 1];
      assert (a + b)[|a + b| - 1] == b[|b| - 1];
      RealSumAppend(a, b[..|b| - 1], f);
    }
  }

  /** The sums over the two sides of `p` (`q` being its negation) add up to
      the sum over all. */
  lemma {:induction false} SumPartition<T>(s: seq<T>, p: T -> bool, q: T -> bool, f: T -> int)
    requires forall x :: q(x) == !p(x)
    ensures Sum(Filter(s, p), f) + Sum(Filter(s, q), f) == Sum(s, f)
    decreases |s|
  {
    if s != [] {
      var s' := s[..|s| - 1];
      var last := s[|s| - 1];
      SumPartition(s', p, q, f);
      SumAppend(Filter(s', p), [last], f);
      SumAppend(Filter(s', q), [last], f);
    }
  }

  lemma {:induction false} RealSumPartition<T>(s: seq<T>, p: T -> bool, q: T -> bool, f: T -> real)
    requires forall x :: q(x) == !p(x)
    ensures RealSum(Filter(s, p), f) + RealSum(Filter(s, q), f) == RealSum(s, f)
    decreases |s|
  {
    if s != [] {
      var s' := s[..|s| - 1];
      var last := s[|s| - 1];
      RealSumPartition(s', p, q, f);
      RealSumAppend(Filter(s', p), [last], f);
      RealSumAppend(Filter(s', q), [last], f);
    }
  }

  /** A sum of non-negative terms is non-negative. */
  lemma {:induction false} SumNonNegative<T>(s: seq<T>, f: T -> int)
    ensures (forall i :: 0 <= i < |s| ==> f(s[i]) >= 0) ==> Sum(s, f) >= 0
    decreases |s|
  {
    if s != [] {
      SumNonNegative(s[..|s| - 1], f);
    }
  }

  /** The same for exact reals. */
  lemma {:induction false} RealSumNonNegative<T>(s: seq<T>, f: T -> real)
    ensures (forall i :: 0 <= i < |s| ==> f(s[i]) >= 0.0) ==> RealSum(s, f) >= 0.0
    decreases |s|
  {
    if s != [] {
      RealSumNonNegative(s[..|s| - 1], f);
    }
  }

  /** A property every element of `s` has, every element of a filter of `s`
      has too. */
  lemma FilterKeepsProperty<T>(s: seq<T>, p: T -> bool, q: T -> bool)
    ensures (forall i :: 0 <= i < |s| ==> q(s[i])) ==> forall i :: 0 <= i < |Filter(s, p)| ==> q(Filter(s, p)[i])
  {
    FilterSelectsPositions(s, p);
  }
}
