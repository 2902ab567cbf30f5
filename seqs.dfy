/** Sequence helpers standing for the DataFrame operations the extractor uses:
    boolean-mask selection, column sum, column max and column mean. */
module Seqs {

  /** The elements of `s` that satisfy `p`, in their original order
      (a boolean-mask selection `df[mask]`). */
  function Filter<T(!new)>(s: seq<T>, p: T -> bool): (r: seq<T>)
    ensures |r| <= |s|
    ensures forall x :: x in r <==> x in s && p(x)
    decreases |s|
  {
    if s == [] then []
    else
      var k := |s| - 1;
      assert s == s[..k] + [s[k]];
      Filter(s[..k], p) + (if p(s[k]) then [s[k]] else [])
  }

  /** Selecting by `p` and then by `q` is selecting once by their conjunction. */
  lemma {:induction false} FilterTwice<T(!new)>(s: seq<T>, p: T -> bool, q: T -> bool, both: T -> bool)
    requires forall x :: both(x) == (p(x) && q(x))
    ensures Filter(Filter(s, p), q) == Filter(s, both)
    decreases |s|
  {
    if s != [] {
      var k := |s| - 1;
      FilterTwice(s[..k], p, q, both);
      var inner := Filter(s[..k], p);
      if p(s[k]) {
        assert Filter(s, p) == inner + [s[k]];
        assert (inner + [s[k]])[..|inner|] == inner;
      } else {
        assert Filter(s, p) == inner;
      }
    }
  }

  /** Selection keeps the relative order of what it keeps: a relation that holds between
      every earlier and later element of `s` holds between those of the selection. */
  lemma {:induction false} FilterPreservesPairs<T(!new)>(s: seq<T>, p: T -> bool, rel: (T, T) -> bool)
    requires forall i, j :: 0 <= i < j < |s| ==> rel(s[i], s[j])
    ensures forall i, j :: 0 <= i < j < |Filter(s, p)| ==> rel(Filter(s, p)[i], Filter(s, p)[j])
    decreases |s|
  {
    if s != [] {
      var k := |s| - 1;
      var front := s[..k];
      assert forall i, j :: 0 <= i < j < |front| ==> rel(front[i], front[j]) by {
        forall i, j | 0 <= i < j < |front|
          ensures rel(front[i], front[j])
        {
          assert front[i] == s[i] && front[j] == s[j];
        }
      }
      FilterPreservesPairs(front, p, rel);
      var inner := Filter(front, p);
      if p(s[k]) {
        var f := inner + [s[k]];
        assert Filter(s, p) == f;
        forall i, j | 0 <= i < j < |f|
          ensures rel(f[i], f[j])
        {
          if j < |inner| {
            assert f[i] == inner[i] && f[j] == inner[j];
          } else {
            assert f[i] == inner[i] && inner[i] in inner && f[j] == s[k];
            var i' :| 0 <= i' < |front| && front[i'] == inner[i];
            assert s[i'] == front[i'];
            assert rel(s[i'], s[k]);
          }
        }
      } else {
        assert Filter(s, p) == inner;
        forall i, j | 0 <= i < j < |inner|
          ensures rel(inner[i], inner[j])
        {
        }
      }
    }
  }

  /** Elements past position `n` that all fail `p` do not change the selection. */
  lemma {:induction false} FilterIgnoresTail<T(!new)>(s: seq<T>, n: nat, p: T -> bool)
    requires n <= |s|
    requires forall i :: n <= i < |s| ==> !p(s[i])
    ensures Filter(s, p) == Filter(s[..n], p)
    decreases |s|
  {
    if |s| == n {
      assert s[..n] == s;
    } else {
      var k := |s| - 1;
      var front := s[..k];
      assert forall i :: n <= i < |front| ==> front[i] == s[i];
      FilterIgnoresTail(front, n, p);
      assert front[..n] == s[..n];
    }
  }

  function Sum(xs: seq<real>): real
    decreases |xs|
  {
    if xs == [] then 0.0 else Sum(xs[..|xs| - 1]) + xs[|xs| - 1]
  }

  /** The largest element of a non-empty sequence. */
  function Max(xs: seq<real>): (m: real)
    requires |xs| > 0
    ensures m in xs
    ensures forall x :: x in xs ==> x <= m
    decreases |xs|
  {
    if |xs| == 1 then xs[0]
    else
      var k := |xs| - 1;
      assert xs == xs[..k] + [xs[k]];
      var rest := Max(xs[..k]);
      if xs[k] > rest then xs[k] else rest
  }

  /** The arithmetic mean of a non-empty sequence. */
  function Mean(xs: seq<real>): real
    requires |xs| > 0
  {
    Sum(xs) / (|xs| as real)
  }

  lemma {:induction false} SumAtMost(xs: seq<real>, hi: real)
    requires forall x :: x in xs ==> x <= hi
    ensures Sum(xs) <= (|xs| as real) * hi
    decreases |xs|
  {
    if xs != [] {
      var k := |xs| - 1;
      assert forall x :: x in xs[..k] ==> x in xs;
      assert xs[k] in xs;
      SumAtMost(xs[..k], hi);
    }
  }

  lemma {:induction false} SumAtLeast(xs: seq<real>, lo: real)
    requires forall x :: x in xs ==> lo <= x
    ensures (|xs| as real) * lo <= Sum(xs)
    decreases |xs|
  {
    if xs != [] {
      var k := |xs| - 1;
      assert forall x :: x in xs[..k] ==> x in xs;
      assert xs[k] in xs;
      SumAtLeast(xs[..k], lo);
    }
  }

  /** A total at most `n * hi` over a positive count `n` has a quotient at most `hi`. */
  lemma QuotientAtMost(total: real, n: real, hi: real)
    requires n > 0.0 && total <= n * hi
    ensures total / n <= hi
  {
    var q := total / n;
    assert total == q * n;
    if q > hi {
      assert q * n > hi * n;
    }
  }

  /** A total at least `n * lo` over a positive count `n` has a quotient at least `lo`. */
  lemma QuotientAtLeast(total: real, n: real, lo: real)
    requires n > 0.0 && n * lo <= total
    ensures lo <= total / n
  {
    var q := total / n;
    assert total == q * n;
    if q < lo {
      assert q * n < lo * n;
    }
  }

  /** A mean never exceeds an upper bound of the elements. */
  lemma MeanAtMost(xs: seq<real>, hi: real)
    requires |xs| > 0
    requires forall x :: x in xs ==> x <= hi
    ensures Mean(xs) <= hi
  {
    SumAtMost(xs, hi);
    QuotientAtMost(Sum(xs), |xs| as real, hi);
  }

  /** A mean lies between any lower and upper bound of the elements. */
  lemma MeanWithin(xs: seq<real>, lo: real, hi: real)
    requires |xs| > 0
    requires forall x :: x in xs ==> lo <= x <= hi
    ensures lo <= Mean(xs) <= hi
  {
    MeanAtMost(xs, hi);
    SumAtLeast(xs, lo);
    QuotientAtLeast(Sum(xs), |xs| as real, lo);
  }

  /** The mean never exceeds the maximum. */
  lemma MeanAtMostMax(xs: seq<real>)
    requires |xs| > 0
    ensures Mean(xs) <= Max(xs)
  {
    MeanAtMost(xs, Max(xs));
  }
}
