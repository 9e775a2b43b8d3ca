/**
 * Arithmetic over a series of samples, as the monitor uses it: `np.mean`,
 * the built-in `max` and `min`, and the "time never goes backwards" shape
 * of a time column. Numbers are reals; floating-point rounding is not modelled.
 */
module Series {

  /** The last element of a non-empty series (Python's `s[-1]`). */
  function Last(s: seq<real>): (r: real)
    requires |s| > 0
  {
    s[|s| - 1]
  }

  /** Sum of all elements. */
  function Sum(s: seq<real>): (r: real)
  {
    if s == [] then 0.0 else Sum(s[..|s| - 1]) + s[|s| - 1]
  }

  /**
   * Arithmetic mean (`np.mean`) of a non-empty series; it lies between the
   * smallest and the largest element.
   */
  function Mean(s: seq<real>): (r: real)
    requires |s| > 0
    ensures Min(s) <= r <= Max(s)
  {
    var lo, hi, n := Min(s), Max(s), |s| as real;
    QuotientBounds(s, lo, hi, n);
    Sum(s) / n
  }

  /** Largest element (`max`). */
  function Max(s: seq<real>): (m: real)
    requires |s| > 0
    ensures m in s
    ensures forall i :: 0 <= i < |s| ==> s[i] <= m
  {
    if |s| == 1 then s[0]
    else
      var rest := Max(s[1..]);
      assert forall i :: 1 <= i < |s| ==> s[i] == s[1..][i - 1];
      if s[0] >= rest then s[0] else rest
  }

  /** Smallest element (`min`). */
  function Min(s: seq<real>): (m: real)
    requires |s| > 0
    ensures m in s
    ensures forall i :: 0 <= i < |s| ==> m <= s[i]
  {
    if |s| == 1 then s[0]
    else
      var rest := Min(s[1..]);
      assert forall i :: 1 <= i < |s| ==> s[i] == s[1..][i - 1];
      if s[0] <= rest then s[0] else rest
  }

  /** Every element is at least the one before it. */
  predicate NonDecreasing(s: seq<real>)
  {
    forall i, j :: 0 <= i <= j < |s| ==> s[i] <= s[j]
  }

  /** A sum of elements that all lie in [lo, hi] lies in [n * lo, n * hi]. */
  lemma {:induction false} SumBounds(s: seq<real>, lo: real, hi: real)
    requires forall i :: 0 <= i < |s| ==> lo <= s[i] <= hi
    ensures (|s| as real) * lo <= Sum(s) <= (|s| as real) * hi
  {
    if s != [] {
      var init := s[..|s| - 1];
      assert forall i :: 0 <= i < |init| ==> init[i] == s[i];
      SumBounds(init, lo, hi);
      assert (|s| as real) * lo == (|init| as real) * lo + lo;
      assert (|s| as real) * hi == (|init| as real) * hi + hi;
    }
  }

  /** The sum of elements that all lie in [lo, hi], divided by their number, lies in [lo, hi]. */
  lemma QuotientBounds(s: seq<real>, lo: real, hi: real, n: real)
    requires |s| > 0 && n == |s| as real
    requires forall i :: 0 <= i < |s| ==> lo <= s[i] <= hi
    ensures lo <= Sum(s) / n <= hi
  {
    SumBounds(s, lo, hi);
    DivideBounds(Sum(s), n, lo, hi);
  }

  /** From n * lo <= x <= n * hi with n > 0 follows lo <= x / n <= hi. */
  lemma DivideBounds(x: real, n: real, lo: real, hi: real)
    requires n > 0.0
    requires n * lo <= x <= n * hi
    ensures lo <= x / n <= hi
  {
    assert x / n * n == x;
  }
}
