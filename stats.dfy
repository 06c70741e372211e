/** Folds over sequences of exact readings: sums, extremes and the
    empty-safe mean used by the averages, charts and map. */
module Stats {

  function Abs(x: real): (r: real)
    ensures r >= 0.0
    ensures r == x || r == -x
  {
    if x < 0.0 then -x else x
  }

  /** Left-to-right sum, the order of `reduce((sum, v) => sum + v, 0)`. */
  function Sum(s: seq<real>): real
  {
    if |s| == 0 then 0.0 else Sum(s[..|s| - 1]) + s[|s| - 1]
  }

  /** The smallest element, as `Math.min(...s)` returns for a non-empty s. */
  function Min(s: seq<real>): (m: real)
    requires |s| > 0
    ensures forall i :: 0 <= i < |s| ==> m <= s[i]
    ensures exists i :: 0 <= i < |s| && s[i] == m
  {
    if |s| == 1 then s[0]
    else
      var rest := Min(s[..|s| - 1]);
      assert forall i :: 0 <= i < |s| - 1 ==> s[..|s| - 1][i] == s[i];
      if s[|s| - 1] < rest then s[|s| - 1] else rest
  }

  /** The largest element, as `Math.max(...s)` returns for a non-empty s. */
  function Max(s: seq<real>): (m: real)
    requires |s| > 0
    ensures forall i :: 0 <= i < |s| ==> s[i] <= m
    ensures exists i :: 0 <= i < |s| && s[i] == m
  {
    if |s| == 1 then s[0]
    else
      var rest := Max(s[..|s| - 1]);
      assert forall i :: 0 <= i < |s| - 1 ==> s[..|s| - 1][i] == s[i];
      if s[|s| - 1] > rest then s[|s| - 1] else rest
  }

  /** Every element lies in [lo, hi], so the sum lies in [n*lo, n*hi]. */
  lemma {:induction false} SumBounds(s: seq<real>, lo: real, hi: real)
    requires forall i :: 0 <= i < |s| ==> lo <= s[i] <= hi
    ensures (|s| as real) * lo <= Sum(s) <= (|s| as real) * hi
  {
    if |s| > 0 {
      var p := s[..|s| - 1];
      assert forall i :: 0 <= i < |p| ==> p[i] == s[i];
      SumBounds(p, lo, hi);
      assert (|s| as real) * lo == (|p| as real) * lo + lo;
      assert (|s| as real) * hi == (|p| as real) * hi + hi;
    }
  }

  /** Zero for the empty sequence, otherwise the arithmetic mean. */
  function Mean(s: seq<real>): (r: real)
    ensures |s| == 0 ==> r == 0.0
  {
    if |s| == 0 then 0.0 else Sum(s) / (|s| as real)
  }

  /** A mean of values that all lie in [lo, hi] lies in [lo, hi]; with lo
      and hi the smallest and largest element, it lies between them. */
  lemma {:induction false} MeanWithin(s: seq<real>, lo: real, hi: real)
    requires |s| > 0
    requires forall i :: 0 <= i < |s| ==> lo <= s[i] <= hi
    ensures lo <= Mean(s) <= hi
  {
    var total, n := Sum(s), |s| as real;
    SumBounds(s, lo, hi);
    QuotientBetween(total, n, lo, hi);
  }

  /** The mean times the length gives back the sum. */
  lemma {:induction false} MeanTimesLength(s: seq<real>)
    requires |s| > 0
    ensures Mean(s) * (|s| as real) == Sum(s)
  {
    var total, n := Sum(s), |s| as real;
    assert Mean(s) == total / n;
    assert total / n * n == total;
  }

  /** Dividing n*lo <= total <= n*hi by a positive n. */
  lemma QuotientBetween(total: real, n: real, lo: real, hi: real)
    requires n > 0.0
    requires n * lo <= total <= n * hi
    ensures lo <= total / n <= hi
    ensures total / n * n == total
  {
    var q := total / n;
    assert q * n == total;
    CancelPositive(lo, q, n);
    CancelPositive(q, hi, n);
  }

  lemma CancelPositive(a: real, b: real, n: real)
    requires n > 0.0
    requires a * n <= b * n
    ensures a <= b
  {
  }
}
