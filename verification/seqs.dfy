/** Sequence helpers shared by the components: JavaScript's `Array.prototype.filter`. */
module Seqs {

  /** `xs.filter(p)`: the elements of `xs` that satisfy `p`, in their original order. */
  function Filter<T(!new)>(xs: seq<T>, p: T -> bool): (r: seq<T>)
    ensures |r| <= |xs|
    ensures forall x :: x in r <==> x in xs && p(x)
  {
    if xs == [] then []
    else (if p(xs[0]) then [xs[0]] else []) + Filter(xs[1..], p)
  }

  /** Filtering distributes over concatenation: the kept elements of a prefix come first,
      so the relative order of the kept elements is the order they had in the input. */
  lemma {:induction false} FilterConcat<T(!new)>(xs: seq<T>, ys: seq<T>, p: T -> bool)
    ensures Filter(xs + ys, p) == Filter(xs, p) + Filter(ys, p)
  {
    if xs == [] {
      assert xs + ys == ys;
    } else {
      assert (xs + ys)[1..] == xs[1..] + ys;
      FilterConcat(xs[1..], ys, p);
    }
  }

  /** Filtering twice keeps exactly what filtering once by the conjunction keeps. */
  lemma {:induction false} FilterFilter<T(!new)>(xs: seq<T>, p: T -> bool, q: T -> bool, pq: T -> bool)
    requires forall x :: pq(x) == (p(x) && q(x))
    ensures Filter(Filter(xs, p), q) == Filter(xs, pq)
  {
    if xs != [] {
      FilterFilter(xs[1..], p, q, pq);
      var head := if p(xs[0]) then [xs[0]] else [];
      FilterConcat(head, Filter(xs[1..], p), q);
    }
  }

  /** When every element is kept, filtering changes nothing. */
  lemma {:induction false} FilterAll<T(!new)>(xs: seq<T>, p: T -> bool)
    requires forall i :: 0 <= i < |xs| ==> p(xs[i])
    ensures Filter(xs, p) == xs
  {
    if xs != [] {
      FilterAll(xs[1..], p);
    }
  }
}
