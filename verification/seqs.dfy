/** `Array.prototype.filter`, with the facts the callers rely on. */
module Seqs {

  function Filter<T(!new)>(xs: seq<T>, p: T -> bool): (r: seq<T>)
    ensures |r| <= |xs|
    ensures forall x :: x in r <==> x in xs && p(x)
  {
    if |xs| == 0 then []
    else (if p(xs[0]) then [xs[0]] else []) + Filter(xs[1..], p)
  }

  /** Filtering keeps the relative order of what remains: it distributes
      over concatenation. */
  lemma {:induction false} FilterDistributes<T(!new)>(xs: seq<T>, ys: seq<T>, p: T -> bool)
    ensures Filter(xs + ys, p) == Filter(xs, p) + Filter(ys, p)
  {
    if |xs| == 0 {
      assert xs + ys == ys;
    } else {
      assert (xs + ys)[1..] == xs[1..] + ys;
      FilterDistributes(xs[1..], ys, p);
    }
  }

  /** Nothing is dropped when everything passes. */
  lemma {:induction false} FilterKeepsAll<T(!new)>(xs: seq<T>, p: T -> bool)
    requires forall i :: 0 <= i < |xs| ==> p(xs[i])
    ensures Filter(xs, p) == xs
  {
    if |xs| > 0 {
      FilterKeepsAll(xs[1..], p);
    }
  }

  /** A stricter test keeps a subsequence of what a looser one keeps. */
  lemma {:induction false} FilterNarrows<T(!new)>(xs: seq<T>, p: T -> bool, q: T -> bool)
    requires forall x :: x in xs && p(x) ==> q(x)
    ensures Filter(xs, p) == Filter(Filter(xs, q), p)
  {
    if |xs| > 0 {
      FilterNarrows(xs[1..], p, q);
      var rest := Filter(xs[1..], q);
      if q(xs[0]) {
        assert Filter(xs, q) == [xs[0]] + rest;
        assert ([xs[0]] + rest)[1..] == rest;
      } else {
        assert !p(xs[0]);
        assert Filter(xs, q) == rest;
        assert Filter(xs, p) == Filter(xs[1..], p);
      }
    }
  }
}
