/** Numeric helpers on reals that the harness and the consolidator share:
    sums, means and sample variances of windows, clamping, and the
    round-half-to-even rounding of Python's built-in round. */
module Numeric {

  function Sum(s: seq<real>): real
  {
    if s == [] then 0.0 else Sum(s[..|s| - 1]) + s[|s| - 1]
  }

  function Min(s: seq<real>): real
    requires |s| > 0
  {
    if |s| == 1 then s[0]
    else var m := Min(s[..|s| - 1]); if s[|s| - 1] < m then s[|s| - 1] else m
  }

  function Max(s: seq<real>): real
    requires |s| > 0
  {
    if |s| == 1 then s[0]
    else var m := Max(s[..|s| - 1]); if s[|s| - 1] > m then s[|s| - 1] else m
  }

  /** Min and Max really are a lower and an upper bound of the sequence. */
  lemma {:induction false} MinMaxBound(s: seq<real>, k: nat)
    requires k < |s|
    ensures Min(s) <= s[k] <= Max(s)
  {
    if |s| > 1 && k < |s| - 1 {
      MinMaxBound(s[..|s| - 1], k);
    }
  }

  /** n copies of x added up; n * x without the multiplication. */
  function Times(n: nat, x: real): real
  {
    if n == 0 then 0.0 else Times(n - 1, x) + x
  }

  lemma {:induction false} TimesProduct(n: nat, x: real)
    ensures Times(n, x) == n as real * x
  {
    if n > 0 {
      TimesProduct(n - 1, x);
    }
  }

  lemma {:induction false} TimesMonotone(n: nat, a: real, b: real)
    requires a <= b
    ensures Times(n, a) <= Times(n, b)
  {
    if n > 0 {
      TimesMonotone(n - 1, a, b);
    }
  }

  lemma {:induction false} SumTimesBounds(s: seq<real>)
    requires |s| > 0
    ensures Times(|s|, Min(s)) <= Sum(s) <= Times(|s|, Max(s))
  {
    if |s| > 1 {
      var init := s[..|s| - 1];
      SumTimesBounds(init);
      TimesMonotone(|init|, Min(s), Min(init));
      TimesMonotone(|init|, Max(init), Max(s));
    }
  }

  /** The sum of n values lies between n times their minimum and n times their maximum. */
  lemma SumBounds(s: seq<real>)
    requires |s| > 0
    ensures |s| as real * Min(s) <= Sum(s) <= |s| as real * Max(s)
  {
    SumTimesBounds(s);
    TimesProduct(|s|, Min(s));
    TimesProduct(|s|, Max(s));
  }

  /** A total between n times lo and n times hi, shared among n > 0, gives each between lo and hi. */
  lemma ShareBounds(total: real, n: real, lo: real, hi: real)
    requires n > 0.0 && n * lo <= total <= n * hi
    ensures lo <= total / n <= hi
  {
  }

  /** The arithmetic mean (statistics.mean, pandas rolling mean). It lies
      between the smallest and the largest value averaged. */
  function Mean(s: seq<real>): (m: real)
    requires |s| > 0
    ensures Min(s) <= m <= Max(s)
  {
    SumBounds(s);
    ShareBounds(Sum(s), |s| as real, Min(s), Max(s));
    Sum(s) / |s| as real
  }

  /** The sum of squared deviations from c; never negative. */
  function SquaredDeviations(s: seq<real>, c: real): (r: real)
    ensures r >= 0.0
  {
    if s == [] then 0.0
    else
      var d := s[|s| - 1] - c;
      assert d * d >= 0.0 by {
        if d < 0.0 { assert d * d == (-d) * (-d); }
      }
      SquaredDeviations(s[..|s| - 1], c) + d * d
  }

  /** The rolling sample variance as the consolidator fills it in: the
      variance with n - 1 in the denominator, and 0 where pandas leaves NaN
      (a window of one value). Never negative. */
  function WindowVariance(s: seq<real>): (v: real)
    requires |s| > 0
    ensures v >= 0.0
    ensures |s| == 1 ==> v == 0.0
  {
    if |s| == 1 then 0.0
    else SquaredDeviations(s, Mean(s)) / (|s| - 1) as real
  }

  /** A window of identical values has no variance. */
  lemma {:induction false} ConstantDeviations(s: seq<real>, c: real)
    requires forall k :: 0 <= k < |s| ==> s[k] == c
    ensures SquaredDeviations(s, c) == 0.0
  {
    if s != [] {
      ConstantDeviations(s[..|s| - 1], c);
    }
  }

  lemma {:induction false} ConstantMean(s: seq<real>, c: real)
    requires |s| > 0
    requires forall k :: 0 <= k < |s| ==> s[k] == c
    ensures Mean(s) == c
  {
    MinMaxBound(s, 0);
    assert Min(s) == c && Max(s) == c by {
      MinAttained(s);
      MaxAttained(s);
    }
  }

  lemma {:induction false} MinAttained(s: seq<real>)
    requires |s| > 0
    ensures exists k :: 0 <= k < |s| && s[k] == Min(s)
  {
    if |s| > 1 {
      MinAttained(s[..|s| - 1]);
      var k :| 0 <= k < |s| - 1 && s[..|s| - 1][k] == Min(s[..|s| - 1]);
      if s[|s| - 1] >= Min(s[..|s| - 1]) {
        assert s[k] == Min(s);
      }
    } else {
      assert s[0] == Min(s);
    }
  }

  lemma {:induction false} MaxAttained(s: seq<real>)
    requires |s| > 0
    ensures exists k :: 0 <= k < |s| && s[k] == Max(s)
  {
    if |s| > 1 {
      MaxAttained(s[..|s| - 1]);
      var k :| 0 <= k < |s| - 1 && s[..|s| - 1][k] == Max(s[..|s| - 1]);
      if s[|s| - 1] <= Max(s[..|s| - 1]) {
        assert s[k] == Max(s);
      }
    } else {
      assert s[0] == Max(s);
    }
  }

  lemma ConstantWindowVariance(s: seq<real>, c: real)
    requires |s| > 0
    requires forall k :: 0 <= k < |s| ==> s[k] == c
    ensures WindowVariance(s) == 0.0
  {
    ConstantMean(s, c);
    ConstantDeviations(s, c);
  }

  /** max(lo, min(hi, x)): the value pulled into [lo, hi], unchanged when already inside. */
  function Clamp(x: real, lo: real, hi: real): (r: real)
    requires lo <= hi
    ensures lo <= r <= hi
    ensures lo <= x <= hi ==> r == x
    ensures x < lo ==> r == lo
    ensures x > hi ==> r == hi
  {
    if x < lo then lo else if x > hi then hi else x
  }

  /** Python's round(x) on a number: to the nearest integer, ties to the even one. */
  function RoundHalfEven(x: real): (r: int)
    ensures -0.5 <= r as real - x <= 0.5
    ensures r as real - x == 0.5 || x - r as real == 0.5 ==> r % 2 == 0
  {
    var f := x.Floor;
    var frac := x - f as real;
    if frac < 0.5 then f
    else if frac > 0.5 then f + 1
    else if f % 2 == 0 then f else f + 1
  }

  /** The last element, or the default for an empty sequence. */
  function LastOr(s: seq<real>, default: real): (r: real)
    ensures |s| > 0 ==> r == s[|s| - 1]
    ensures s == [] ==> r == default
  {
    if s == [] then default else s[|s| - 1]
  }

  /** The trailing window of at most w elements (s[-w:] in Python, for a
      positive w; Python's s[-0:] would be the whole sequence). */
  function Tail<T>(s: seq<T>, w: nat): (t: seq<T>)
    requires w > 0
    ensures |t| == if |s| < w then |s| else w
    ensures forall k :: 0 <= k < |t| ==> t[k] == s[|s| - |t| + k]
  {
    if |s| <= w then s else s[|s| - w..]
  }

  /** The trailing window of a slice is the slice's last (at most w) elements. */
  lemma TailOfSlice<T>(s: seq<T>, g: nat, e: nat, w: nat)
    requires g <= e <= |s| && w > 0
    ensures var n := if e - g < w then e - g else w;
            Tail(s[g..e], w) == s[e - n..e]
  {
    if w < e - g {
      assert s[g..e][e - g - w..] == s[e - w..e];
    }
  }
}
