/** Generic helpers over sequences: an optional value for JavaScript's
    `undefined`/`null` results, and `Array.prototype.filter`. */
module Seqs {

  /** A value that may be absent (`find` returning `undefined`, a query
      parameter that is `null`). */
  datatype Option<+T> = None | Some(value: T)

  /** `sub` can be obtained from `xs` by deleting elements, keeping the order
      of the ones that remain. */
  predicate IsSubsequence<T(==)>(sub: seq<T>, xs: seq<T>)
    decreases |xs|
  {
    |sub| == 0 ||
    (|xs| > 0 &&
     ((sub[0] == xs[0] && IsSubsequence(sub[1..], xs[1..])) || IsSubsequence(sub, xs[1..])))
  }

  /** `xs.filter(p)`: the elements satisfying `p`, in their original order,
      each occurrence kept exactly as many times as it appears. */
  function Filter<T(==, !new)>(xs: seq<T>, p: T -> bool): (r: seq<T>)
    ensures IsSubsequence(r, xs)
    ensures forall x :: x in r <==> x in xs && p(x)
    ensures forall x :: multiset(r)[x] == if p(x) then multiset(xs)[x] else 0
    ensures |r| <= |xs|
  {
    if |xs| == 0 then []
    else
      var rest := Filter(xs[1..], p);
      assert xs == [xs[0]] + xs[1..];
      if p(xs[0]) then
        var r := [xs[0]] + rest;
        assert r[1..] == rest;
        r
      else rest
  }

  /** A filter whose predicate holds everywhere keeps the whole sequence. */
  lemma {:induction false} FilterAll<T(!new)>(xs: seq<T>, p: T -> bool)
    requires forall x :: x in xs ==> p(x)
    ensures Filter(xs, p) == xs
  {
    if |xs| > 0 {
      assert forall x :: x in xs[1..] ==> x in xs;
      FilterAll(xs[1..], p);
      assert p(xs[0]);
      assert Filter(xs, p) == [xs[0]] + Filter(xs[1..], p);
      assert xs == [xs[0]] + xs[1..];
    }
  }

  /** Filters with predicates that agree on the elements agree. */
  lemma {:induction false} FilterCongruent<T(!new)>(xs: seq<T>, p: T -> bool, q: T -> bool)
    requires forall x :: x in xs ==> (p(x) <==> q(x))
    ensures Filter(xs, p) == Filter(xs, q)
  {
    if |xs| > 0 {
      assert forall x :: x in xs[1..] ==> x in xs;
      FilterCongruent(xs[1..], p, q);
    }
  }
}
