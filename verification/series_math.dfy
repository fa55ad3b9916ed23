/** Arithmetic over finite real-valued series: the reductions pandas applies
    to a column (sum, maximum, minimum, mean, sample variance). */
module SeriesMath {

  /** Sum of the values, first to last. */
  function Sum(s: seq<real>): real
  {
    if |s| == 0 then 0.0 else s[0] + Sum(s[1..])
  }

  /** Largest value of a non-empty series (pandas `Series.max`). */
  function Max(s: seq<real>): (m: real)
    requires |s| > 0
    ensures forall i :: 0 <= i < |s| ==> s[i] <= m
    ensures exists i :: 0 <= i < |s| && s[i] == m
  {
    if |s| == 1 then s[0]
    else
      var rest := Max(s[1..]);
      assert forall i :: 1 <= i < |s| ==> s[i] == s[1..][i - 1];
      if s[0] >= rest then s[0] else rest
  }

  /** Smallest value of a non-empty series (pandas `Series.min`). */
  function Min(s: seq<real>): (m: real)
    requires |s| > 0
    ensures forall i :: 0 <= i < |s| ==> m <= s[i]
    ensures exists i :: 0 <= i < |s| && s[i] == m
  {
    if |s| == 1 then s[0]
    else
      var rest := Min(s[1..]);
      assert forall i :: 1 <= i < |s| ==> s[i] == s[1..][i - 1];
      if s[0] <= rest then s[0] else rest
  }

  /** Arithmetic mean of a non-empty series. */
  function Mean(s: seq<real>): real
    requires |s| > 0
  {
    Sum(s) / (|s| as real)
  }

  /** Sum of squared deviations of the values from `m`. */
  function SquaredDeviations(s: seq<real>, m: real): (r: real)
    ensures r >= 0.0
  {
    if |s| == 0 then 0.0
    else
      var d := s[0] - m;
      assert d * d >= 0.0 by { SquareNonNegative(d); }
      d * d + SquaredDeviations(s[1..], m)
  }

  /** Sample variance with Bessel's correction (divisor n - 1), pandas' default
      `ddof=1`; it needs at least two observations. */
  function SampleVariance(s: seq<real>): (v: real)
    requires |s| >= 2
    ensures v >= 0.0
  {
    SquaredDeviations(s, Mean(s)) / ((|s| - 1) as real)
  }

  /** Every value of `s` lies in [lo, hi]. */
  predicate Within(s: seq<real>, lo: real, hi: real)
  {
    forall i :: 0 <= i < |s| ==> lo <= s[i] <= hi
  }

  /** Every value of `s` equals `c`. */
  predicate IsConstant(s: seq<real>, c: real)
  {
    forall i :: 0 <= i < |s| ==> s[i] == c
  }

  /** The sum of n values bounded by lo and hi lies between n*lo and n*hi. */
  lemma {:induction false} SumBounds(s: seq<real>, lo: real, hi: real)
    requires Within(s, lo, hi)
    ensures (|s| as real) * lo <= Sum(s) <= (|s| as real) * hi
  {
    if |s| > 0 {
      assert Within(s[1..], lo, hi) by {
        forall i | 0 <= i < |s[1..]| ensures lo <= s[1..][i] <= hi {
          assert s[1..][i] == s[i + 1];
        }
      }
      SumBounds(s[1..], lo, hi);
      assert (|s| as real) * lo == (|s[1..]| as real) * lo + lo;
      assert (|s| as real) * hi == (|s[1..]| as real) * hi + hi;
    }
  }

  /** The mean of values bounded by lo and hi is bounded by them too. */
  lemma MeanBounds(s: seq<real>, lo: real, hi: real)
    requires |s| > 0 && Within(s, lo, hi)
    ensures lo <= Mean(s) <= hi
  {
    SumBounds(s, lo, hi);
    QuotientBounds(Sum(s), |s| as real, lo, hi);
  }

  lemma SquareNonNegative(d: real)
    ensures d * d >= 0.0
  {
    if d < 0.0 {
      assert d * d == (-d) * (-d);
    }
  }

  /** Dividing n*lo <= t <= n*hi by a positive n. */
  lemma QuotientBounds(t: real, n: real, lo: real, hi: real)
    requires n > 0.0 && n * lo <= t <= n * hi
    ensures lo <= t / n <= hi
  {
    var q := t / n;
    assert q * n == t;
    assert (q - lo) * n == t - n * lo;
    assert (hi - q) * n == n * hi - t;
    ProductSign(q - lo, n);
    ProductSign(hi - q, n);
  }

  lemma ProductNonNegative(a: real, b: real)
    requires a >= 0.0 && b >= 0.0
    ensures a * b >= 0.0
  {
  }

  /** A product with a positive factor has the sign of the other factor. */
  lemma ProductSign(a: real, n: real)
    requires n > 0.0 && a * n >= 0.0
    ensures a >= 0.0
  {
  }

  /** A constant series sums to n*c. */
  lemma {:induction false} SumConstant(s: seq<real>, c: real)
    requires IsConstant(s, c)
    ensures Sum(s) == (|s| as real) * c
  {
    if |s| > 0 {
      assert IsConstant(s[1..], c) by {
        forall i | 0 <= i < |s[1..]| ensures s[1..][i] == c {
          assert s[1..][i] == s[i + 1];
        }
      }
      SumConstant(s[1..], c);
      assert (|s| as real) * c == (|s[1..]| as real) * c + c;
    }
  }

  /** A constant series has mean c and deviates from c by nothing. */
  lemma {:induction false} ConstantStatistics(s: seq<real>, c: real)
    requires |s| > 0 && IsConstant(s, c)
    ensures Mean(s) == c
    ensures SquaredDeviations(s, c) == 0.0
    ensures |s| >= 2 ==> SampleVariance(s) == 0.0
  {
    SumConstant(s, c);
    DeviationsFromConstant(s, c);
  }

  lemma {:induction false} DeviationsFromConstant(s: seq<real>, c: real)
    requires IsConstant(s, c)
    ensures SquaredDeviations(s, c) == 0.0
  {
    if |s| > 0 {
      assert IsConstant(s[1..], c) by {
        forall i | 0 <= i < |s[1..]| ensures s[1..][i] == c {
          assert s[1..][i] == s[i + 1];
        }
      }
      DeviationsFromConstant(s[1..], c);
    }
  }

  /** The sum of a series is the sum of its first k values plus the sum
      of the rest. */
  lemma {:induction false} SumSplit(s: seq<real>, k: nat)
    requires k <= |s|
    ensures Sum(s) == Sum(s[..k]) + Sum(s[k..])
  {
    if k == 0 {
      assert s[k..] == s;
    } else {
      SumSplit(s[1..], k - 1);
      assert s[..k][1..] == s[1..][..k - 1];
      assert s[1..][k - 1..] == s[k..];
    }
  }

  /** Appending one value adds it to the sum. */
  lemma {:induction false} SumAppend(s: seq<real>, v: real)
    ensures Sum(s + [v]) == Sum(s) + v
  {
    if |s| > 0 {
      assert (s + [v])[1..] == s[1..] + [v];
      SumAppend(s[1..], v);
    }
  }
}
