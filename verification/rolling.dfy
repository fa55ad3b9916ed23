/** Trailing-window statistics as pandas computes them with
    `Series.rolling(window=w)`: the default `min_periods` equals the window,
    so the first w-1 entries are missing and entry i (i >= w-1) is a statistic
    of the w observations ending at i. */
module Rolling {
  import opened Wrappers
  import opened SeriesMath

  /** The w observations ending at index i, inclusive. */
  function Trailing(x: seq<real>, w: nat, i: nat): (t: seq<real>)
    requires 1 <= w && w - 1 <= i < |x|
    ensures |t| == w
  {
    x[i + 1 - w .. i + 1]
  }

  /** `x.rolling(window=w).mean()`: aligned one-to-one with x. */
  function RollingMean(x: seq<real>, w: nat): (r: seq<Option<real>>)
    requires w >= 1
    ensures |r| == |x|
  {
    seq(|x|, i requires 0 <= i < |x| =>
      if i < w - 1 then None else Some(Mean(Trailing(x, w, i))))
  }

  /** `x.rolling(window=w).std()` with pandas' default `ddof=1`, the square
      root being the `root` argument. A window of one observation leaves the
      Bessel divisor at zero, so pandas reports every entry missing. */
  function RollingStd(x: seq<real>, w: nat, root: real -> real): (r: seq<Option<real>>)
    requires w >= 1
    ensures |r| == |x|
  {
    seq(|x|, i requires 0 <= i < |x| =>
      if w < 2 || i < w - 1 then None else Some(root(SampleVariance(Trailing(x, w, i)))))
  }

  /** `root` is a square root on the non-negative reals. The model stays
      parametric in it: exact square roots are not definable over Dafny's
      `real` without an axiom. */
  ghost predicate IsSqrt(root: real -> real)
  {
    forall v :: 0.0 <= v ==> 0.0 <= root(v) && root(v) * root(v) == v
  }

  /** Entry i of the rolling mean against running totals: missing during
      the warm-up, otherwise the total up to i minus the total before the
      window, divided by w. */
  lemma RollingMeanAt(x: seq<real>, w: nat, i: nat)
    requires w >= 1 && i < |x|
    ensures RollingMean(x, w)[i].None? <==> i < w - 1
    ensures i >= w - 1 ==>
      RollingMean(x, w)[i].value == (Sum(x[..i + 1]) - Sum(x[..i + 1 - w])) / (w as real)
  {
    if i >= w - 1 {
      var p := x[..i + 1];
      SumSplit(p, i + 1 - w);
      assert p[..i + 1 - w] == x[..i + 1 - w];
      assert p[i + 1 - w..] == Trailing(x, w, i);
    }
  }

  /** Entry i of the rolling standard deviation: defined exactly when the
      window is full and holds at least two observations, and then a
      non-negative number whose square is the window's sample variance. */
  lemma RollingStdAt(x: seq<real>, w: nat, root: real -> real, i: nat)
    requires w >= 1 && i < |x| && IsSqrt(root)
    ensures RollingStd(x, w, root)[i].Some? <==> w >= 2 && i >= w - 1
    ensures RollingStd(x, w, root)[i].Some? ==>
      var std := RollingStd(x, w, root)[i].value;
      std >= 0.0 && std * std == SampleVariance(Trailing(x, w, i))
  {
    if w >= 2 && i >= w - 1 {
      var v := SampleVariance(Trailing(x, w, i));
      assert 0.0 <= root(v) && root(v) * root(v) == v;
    }
  }

  /** A series shorter than the window yields no rolling value at all. */
  lemma ShortSeriesAllMissing(x: seq<real>, w: nat)
    requires w >= 1 && |x| < w
    ensures forall i :: 0 <= i < |x| ==> RollingMean(x, w)[i].None?
    ensures forall root: real -> real, i :: 0 <= i < |x| ==> RollingStd(x, w, root)[i].None?
  {
  }

  /** Every defined rolling mean lies between the smallest and the largest
      observation of its window. */
  lemma RollingMeanWithinWindow(x: seq<real>, w: nat, i: nat)
    requires w >= 1 && w - 1 <= i < |x|
    ensures RollingMean(x, w)[i].Some?
    ensures Min(Trailing(x, w, i)) <= RollingMean(x, w)[i].value <= Max(Trailing(x, w, i))
  {
    var t := Trailing(x, w, i);
    MeanBounds(t, Min(t), Max(t));
  }

  /** On a constant series every defined rolling mean is that constant and
      every defined rolling variance is zero. */
  lemma RollingOfConstant(x: seq<real>, w: nat, c: real, i: nat)
    requires w >= 1 && w - 1 <= i < |x| && IsConstant(x, c)
    ensures RollingMean(x, w)[i] == Some(c)
    ensures w >= 2 ==> SampleVariance(Trailing(x, w, i)) == 0.0
  {
    var t := Trailing(x, w, i);
    assert IsConstant(t, c) by {
      forall j | 0 <= j < |t| ensures t[j] == c {
        assert t[j] == x[i + 1 - w + j];
      }
    }
    ConstantStatistics(t, c);
  }

  /** No look-ahead: dropping the bars after index k leaves the rolling
      statistics of the first k bars unchanged. */
  lemma RollingIsCausal(x: seq<real>, w: nat, root: real -> real, k: nat)
    requires w >= 1 && k <= |x|
    ensures RollingMean(x[..k], w) == RollingMean(x, w)[..k]
    ensures RollingStd(x[..k], w, root) == RollingStd(x, w, root)[..k]
  {
    forall i | w - 1 <= i < k
      ensures Trailing(x[..k], w, i) == Trailing(x, w, i)
    {
    }
  }

  /** The sliding-window update: once the window is full, each mean is the
      previous mean plus the entering value minus the leaving value, over w. */
  lemma RollingMeanSlides(x: seq<real>, w: nat, i: nat)
    requires w >= 1 && w <= i < |x|
    ensures RollingMean(x, w)[i].value
         == RollingMean(x, w)[i - 1].value + (x[i] - x[i - w]) / (w as real)
  {
    var older, newer := Trailing(x, w, i - 1), Trailing(x, w, i);
    var middle := x[i + 1 - w .. i];
    assert older[1..] == middle;
    assert newer == middle + [x[i]];
    SumAppend(middle, x[i]);
    assert Sum(newer) == Sum(older) + (x[i] - x[i - w]);
    var n := w as real;
    assert Sum(newer) / n == Sum(older) / n + (x[i] - x[i - w]) / n;
  }

  /** A 3-bar average over ten closes: bars 0 and 1 are missing and bar 2
      is the mean of 100, 102 and 101. */
  lemma ThreeBarAverageExample()
    ensures var x := [100.0, 102.0, 101.0, 105.0, 107.0, 106.0, 110.0, 108.0, 111.0, 115.0];
      && RollingMean(x, 3)[0] == None
      && RollingMean(x, 3)[1] == None
      && RollingMean(x, 3)[2] == Some(101.0)
  {
    var x := [100.0, 102.0, 101.0, 105.0, 107.0, 106.0, 110.0, 108.0, 111.0, 115.0];
    assert Trailing(x, 3, 2) == [100.0, 102.0, 101.0];
    assert Sum([100.0, 102.0, 101.0]) == 303.0;
  }
}
