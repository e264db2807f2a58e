/**
 * Sequence filtering as `Array.prototype.filter` does it: keep the elements
 * that satisfy a predicate, in their original order. The filter engine and
 * the favorites toggle are both built from it.
 */
module Seqs {

  /** The elements of `xs` that satisfy `p`, in the order they appear in `xs`. */
  function Keep<T(==)>(xs: seq<T>, p: T -> bool): (r: seq<T>)
    ensures |r| <= |xs|
    ensures forall x | x in r :: x in xs && p(x)
    ensures forall x | x in xs && p(x) :: x in r
    decreases |xs|
  {
    if xs == [] then []
    else if p(xs[0]) then [xs[0]] + Keep(xs[1..], p)
    else Keep(xs[1..], p)
  }

  /** `a` can be obtained from `b` by deleting elements, without reordering. */
  predicate IsSubsequence<T(==)>(a: seq<T>, b: seq<T>)
    decreases |b|
  {
    a == [] ||
    (b != [] && ((a[0] == b[0] && IsSubsequence(a[1..], b[1..])) || IsSubsequence(a, b[1..])))
  }

  /** No element occurs twice. */
  predicate NoDup<T(==)>(xs: seq<T>)
    decreases |xs|
  {
    xs == [] || (xs[0] !in xs[1..] && NoDup(xs[1..]))
  }

  /** Filtering never reorders: the result is a subsequence of the input. */
  lemma {:induction false} KeepIsSubsequence<T>(xs: seq<T>, p: T -> bool)
    ensures IsSubsequence(Keep(xs, p), xs)
    decreases |xs|
  {
    if xs != [] {
      KeepIsSubsequence(xs[1..], p);
      if p(xs[0]) {
        assert Keep(xs, p)[1..] == Keep(xs[1..], p);
      }
    }
  }

  /** Every occurrence of a kept element survives, and none of a dropped one. */
  lemma {:induction false} KeepCounts<T>(xs: seq<T>, p: T -> bool)
    ensures forall x :: multiset(Keep(xs, p))[x] == if p(x) then multiset(xs)[x] else 0
    decreases |xs|
  {
    if xs != [] {
      KeepCounts(xs[1..], p);
      assert xs == [xs[0]] + xs[1..];
    }
  }

  /** Filtering with two predicates that agree on every element gives the same result. */
  lemma {:induction false} KeepCongruent<T>(xs: seq<T>, p: T -> bool, q: T -> bool)
    requires forall x | x in xs :: p(x) == q(x)
    ensures Keep(xs, p) == Keep(xs, q)
    decreases |xs|
  {
    if xs != [] {
      assert forall x | x in xs[1..] :: x in xs;
      KeepCongruent(xs[1..], p, q);
    }
  }

  /** A predicate every element satisfies removes nothing. */
  lemma {:induction false} KeepAll<T>(xs: seq<T>, p: T -> bool)
    requires forall x | x in xs :: p(x)
    ensures Keep(xs, p) == xs
    decreases |xs|
  {
    if xs != [] {
      assert forall x | x in xs[1..] :: x in xs;
      KeepAll(xs[1..], p);
      assert [xs[0]] + xs[1..] == xs;
    }
  }

  /** Filtering in two passes is filtering once by the conjunction of the predicates. */
  lemma {:induction false} KeepKeep<T>(xs: seq<T>, p: T -> bool, q: T -> bool, pq: T -> bool)
    requires forall x | x in xs :: pq(x) == (p(x) && q(x))
    ensures Keep(Keep(xs, p), q) == Keep(xs, pq)
    decreases |xs|
  {
    if xs != [] {
      assert forall x | x in xs[1..] :: x in xs;
      KeepKeep(xs[1..], p, q, pq);
      if p(xs[0]) {
        var k := Keep(xs, p);
        assert k[0] == xs[0] && k[1..] == Keep(xs[1..], p);
      }
    }
  }

  /** Filtering distributes over concatenation. */
  lemma {:induction false} KeepAppend<T>(a: seq<T>, b: seq<T>, p: T -> bool)
    ensures Keep(a + b, p) == Keep(a, p) + Keep(b, p)
    decreases |a|
  {
    if a == [] {
      assert a + b == b;
    } else {
      assert (a + b)[0] == a[0] && (a + b)[1..] == a[1..] + b;
      KeepAppend(a[1..], b, p);
    }
  }

  /** Filtering a duplicate-free sequence leaves it duplicate-free. */
  lemma {:induction false} KeepNoDup<T>(xs: seq<T>, p: T -> bool)
    requires NoDup(xs)
    ensures NoDup(Keep(xs, p))
    decreases |xs|
  {
    if xs != [] {
      KeepNoDup(xs[1..], p);
      if p(xs[0]) {
        var k := Keep(xs, p);
        assert k[0] == xs[0] && k[1..] == Keep(xs[1..], p);
      }
    }
  }

  /** Appending an element that is not yet present keeps a sequence duplicate-free. */
  lemma {:induction false} NoDupAppend<T>(xs: seq<T>, y: T)
    requires NoDup(xs) && y !in xs
    ensures NoDup(xs + [y])
    decreases |xs|
  {
    if xs != [] {
      assert (xs + [y])[0] == xs[0] && (xs + [y])[1..] == xs[1..] + [y];
      NoDupAppend(xs[1..], y);
    } else {
      assert xs + [y] == [y];
    }
  }
}
