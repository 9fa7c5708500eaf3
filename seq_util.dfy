/**
 * Sequence helpers shared by the frontend derivations: order-preserving
 * filtering, the subsequence relation, and counting occurrences.
 *
 * Recursion runs from the end of a sequence, so that a left-to-right loop's
 * prefix `xs[..i]` unfolds to the prefix before it.
 */
module SeqUtil {

  /** `a` is `b` with some elements left out, the rest in their original order. */
  predicate IsSubsequence<T(==)>(a: seq<T>, b: seq<T>)
    decreases |b|
  {
    || a == []
    || (b != [] &&
        (|| (a[|a| - 1] == b[|b| - 1] && IsSubsequence(a[..|a| - 1], b[..|b| - 1]))
         || IsSubsequence(a, b[..|b| - 1])))
  }

  /** The elements of `xs` that `keep` accepts, in their original order (JavaScript's `filter`). */
  function Filter<T>(xs: seq<T>, keep: T -> bool): (r: seq<T>)
    ensures |r| <= |xs|
    ensures forall i :: 0 <= i < |r| ==> r[i] in xs && keep(r[i])
    ensures forall i :: 0 <= i < |xs| && keep(xs[i]) ==> xs[i] in r
  {
    if xs == [] then []
    else
      var pre := Filter(xs[..|xs| - 1], keep);
      var last := xs[|xs| - 1];
      if keep(last) then pre + [last] else pre
  }

  /** A filter keeps the original order: its result is a subsequence of its input. */
  lemma {:induction false} FilterIsSubsequence<T>(xs: seq<T>, keep: T -> bool)
    ensures IsSubsequence(Filter(xs, keep), xs)
  {
    if xs != [] {
      var pre := xs[..|xs| - 1];
      var last := xs[|xs| - 1];
      FilterIsSubsequence(pre, keep);
      var r := Filter(xs, keep);
      if keep(last) {
        assert r == Filter(pre, keep) + [last];
        assert r[..|r| - 1] == Filter(pre, keep);
      } else {
        assert r == Filter(pre, keep);
      }
    }
  }

  /** A filter keeps every copy of each element it accepts and none of the others. */
  lemma {:induction false} FilterCounts<T>(xs: seq<T>, keep: T -> bool)
    ensures forall x :: multiset(Filter(xs, keep))[x] == if keep(x) then multiset(xs)[x] else 0
  {
    if xs != [] {
      var pre := xs[..|xs| - 1];
      var last := xs[|xs| - 1];
      FilterCounts(pre, keep);
      assert xs == pre + [last];
      assert multiset(xs) == multiset(pre) + multiset{last};
    }
  }

  /** Filtering twice with the same test filters once. */
  lemma {:induction false} FilterIdempotent<T>(xs: seq<T>, keep: T -> bool)
    ensures Filter(Filter(xs, keep), keep) == Filter(xs, keep)
  {
    if xs != [] {
      var pre := xs[..|xs| - 1];
      var last := xs[|xs| - 1];
      FilterIdempotent(pre, keep);
      var f := Filter(pre, keep);
      if keep(last) {
        assert (f + [last])[..|f + [last]| - 1] == f;
      }
    }
  }

  /** A filter whose test accepts everything returns its input unchanged. */
  lemma {:induction false} FilterKeepAll<T>(xs: seq<T>, keep: T -> bool)
    requires forall i :: 0 <= i < |xs| ==> keep(xs[i])
    ensures Filter(xs, keep) == xs
  {
    if xs != [] {
      var pre := xs[..|xs| - 1];
      FilterKeepAll(pre, keep);
      assert pre + [xs[|xs| - 1]] == xs;
    }
  }

  /** How often `x` occurs in `xs`. */
  function Count<T(==)>(xs: seq<T>, x: T): (n: nat)
    ensures n <= |xs|
    ensures n > 0 <==> x in xs
  {
    if xs == [] then 0
    else
      var pre := xs[..|xs| - 1];
      Count(pre, x) + (if xs[|xs| - 1] == x then 1 else 0)
  }

  /** No element occurs twice. */
  predicate NoDuplicates<T(==)>(xs: seq<T>) {
    forall i, j :: 0 <= i < j < |xs| ==> xs[i] != xs[j]
  }

  /** In a sequence without duplicates an element occurs once or not at all. */
  lemma {:induction false} CountWithoutDuplicates<T>(xs: seq<T>, x: T)
    requires NoDuplicates(xs)
    ensures Count(xs, x) == if x in xs then 1 else 0
  {
    if xs != [] {
      var pre := xs[..|xs| - 1];
      assert NoDuplicates(pre);
      CountWithoutDuplicates(pre, x);
      if xs[|xs| - 1] == x {
        assert x !in pre;
      }
    }
  }

  /** `n` copies of `x`. */
  function Repeat<T>(x: T, n: nat): (r: seq<T>)
    ensures |r| == n
    ensures forall i :: 0 <= i < n ==> r[i] == x
  {
    if n == 0 then [] else Repeat(x, n - 1) + [x]
  }

  /** The first `n` elements, or all of them when there are fewer (JavaScript's `slice(0, n)`). */
  function Take<T>(xs: seq<T>, n: nat): (r: seq<T>)
    ensures |r| == if |xs| < n then |xs| else n
    ensures r == xs[..|r|]
  {
    if |xs| <= n then xs else xs[..n]
  }
}
