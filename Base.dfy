/** Small value types shared by the whole model. */
module Base {

  /** A value that may be absent: Python's `None`, JavaScript's `null`/`undefined`. */
  datatype Option<T> = None | Some(value: T) {
    function GetOr(default: T): T {
      match this
      case Some(v) => v
      case None => default
    }
  }

  /** The outcome of an operation that can raise. */
  datatype Result<T, E> = Ok(value: T) | Err(error: E)
}

/** Filtering and counting over sequences: Python comprehensions with an `if`,
    JavaScript's `Array.prototype.filter`. */
module Seqs {

  /** The elements of `xs` that satisfy `p`, in their original order. */
  function Filter<T(!new)>(xs: seq<T>, p: T -> bool): (r: seq<T>)
    ensures |r| <= |xs|
    ensures forall x :: x in r <==> x in xs && p(x)
  {
    if xs == [] then []
    else if p(xs[0]) then [xs[0]] + Filter(xs[1..], p)
    else Filter(xs[1..], p)
  }

  /** The number of elements of `xs` that satisfy `p` (`len([x for x in xs if p(x)])`). */
  function Count<T(!new)>(xs: seq<T>, p: T -> bool): nat {
    |Filter(xs, p)|
  }

  /** Counting a suffix one element at a time. */
  lemma CountStep<T(!new)>(xs: seq<T>, k: nat, p: T -> bool)
    requires k < |xs|
    ensures Count(xs[k..], p) == (if p(xs[k]) then 1 else 0) + Count(xs[k + 1..], p)
  {
    assert xs[k..][1..] == xs[k + 1..];
  }

  /** `xs` can be obtained from `ys` by deleting elements. */
  predicate IsSubsequence<T(==)>(xs: seq<T>, ys: seq<T>)
    decreases |ys|
  {
    xs == [] || (ys != [] && if xs[0] == ys[0] then IsSubsequence(xs[1..], ys[1..]) else IsSubsequence(xs, ys[1..]))
  }

  lemma {:induction false} SubsequenceReflexive<T>(xs: seq<T>)
    ensures IsSubsequence(xs, xs)
    decreases |xs|
  {
    if xs != [] {
      SubsequenceReflexive(xs[1..]);
    }
  }

  /** Filtering keeps the surviving elements in their original relative order. */
  lemma {:induction false} FilterIsSubsequence<T(!new)>(xs: seq<T>, p: T -> bool)
    ensures IsSubsequence(Filter(xs, p), xs)
  {
    if xs != [] {
      FilterIsSubsequence(xs[1..], p);
      if p(xs[0]) {
        assert Filter(xs, p) == [xs[0]] + Filter(xs[1..], p);
        assert Filter(xs, p)[1..] == Filter(xs[1..], p);
      } else {
        var r := Filter(xs[1..], p);
        assert r != [] ==> r[0] in r && r[0] != xs[0];
      }
    }
  }

  /** A filter whose predicate holds everywhere returns its input unchanged. */
  lemma {:induction false} FilterAll<T(!new)>(xs: seq<T>, p: T -> bool)
    requires forall i :: 0 <= i < |xs| ==> p(xs[i])
    ensures Filter(xs, p) == xs
  {
    if xs != [] {
      FilterAll(xs[1..], p);
    }
  }
}

/** Facts about the floating-point arithmetic the source uses, computed here
    on exact reals: scaling a share in [0, 1) and truncating it. */
module Reals {

  /** Multiplying by a positive `d` keeps a comparison with 1 and with 0. */
  lemma BelowOne(x: real, d: real)
    requires d > 0.0
    ensures x < 1.0 <==> x * d < d
    ensures x >= 0.0 <==> x * d >= 0.0
  {
    if x < 1.0 {
      assert (1.0 - x) * d > 0.0;
    } else {
      assert (x - 1.0) * d >= 0.0;
    }
    if x < 0.0 {
      assert (0.0 - x) * d > 0.0;
    }
  }

  /** `Math.floor(r * n)` for a draw `r` in [0, 1) is an index below `n`. */
  function ScaledFloor(r: real, n: nat): (k: int)
    requires 0.0 <= r < 1.0 && n > 0
    ensures 0 <= k < n
  {
    BelowOne(r, n as real);
    var y := r * n as real;
    assert y.Floor as real <= y < n as real;
    y.Floor
  }
}
