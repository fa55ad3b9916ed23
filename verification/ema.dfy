/** Exponential smoothing as pandas computes `x.ewm(span=n, adjust=False).mean()`:
    seeded with the first observation and then
    EMA[i] = alpha * x[i] + (1 - alpha) * EMA[i-1], with alpha = 2 / (n + 1). */
module Ema {
  import opened SeriesMath

  /** The smoothing factor of a span; pandas rejects spans below one. */
  function Alpha(span: nat): (a: real)
    requires span >= 1
    ensures 0.0 < a <= 1.0
  {
    2.0 / (span as real + 1.0)
  }

  /** One smoothing step from the previous average towards the new value. */
  function Step(alpha: real, previous: real, value: real): real
  {
    alpha * value + (1.0 - alpha) * previous
  }

  /** The smoothed series, computed over the prefix so that each entry is
      the step from the entry before it. */
  function Smooth(x: seq<real>, span: nat): (r: seq<real>)
    requires span >= 1
    ensures |r| == |x|
    decreases |x|
  {
    if |x| == 0 then []
    else if |x| == 1 then [x[0]]
    else
      var previous := Smooth(x[..|x| - 1], span);
      previous + [Step(Alpha(span), previous[|x| - 2], x[|x| - 1])]
  }

  /** No look-ahead: the smoothed values of the first k bars do not depend on
      the bars after them. */
  lemma {:induction false} SmoothIsCausal(x: seq<real>, span: nat, k: nat)
    requires span >= 1 && k <= |x|
    ensures Smooth(x[..k], span) == Smooth(x, span)[..k]
    decreases |x|
  {
    if k < |x| {
      assert x[..|x| - 1][..k] == x[..k];
      SmoothIsCausal(x[..|x| - 1], span, k);
    } else {
      assert x[..k] == x;
    }
  }

  /** The recurrence entry by entry: the seed is the first value and every
      later entry is one step from the entry before it. No entry is missing. */
  lemma SmoothAt(x: seq<real>, span: nat, i: nat)
    requires span >= 1 && i < |x|
    ensures |Smooth(x, span)| == |x|
    ensures i == 0 ==> Smooth(x, span)[0] == x[0]
    ensures i > 0 ==> Smooth(x, span)[i] == Step(Alpha(span), Smooth(x, span)[i - 1], x[i])
  {
    SmoothIsCausal(x, span, i + 1);
    var p := x[..i + 1];
    assert p[..i] == x[..i];
    assert p[i] == x[i];
  }

  /** A step with 0 < alpha <= 1 stays between bounds that hold both the
      previous average and the new value. */
  lemma StepWithin(alpha: real, previous: real, value: real, lo: real, hi: real)
    requires 0.0 < alpha <= 1.0 && lo <= previous <= hi && lo <= value <= hi
    ensures lo <= Step(alpha, previous, value) <= hi
  {
    var beta := 1.0 - alpha;
    var s := Step(alpha, previous, value);
    assert s - lo == alpha * (value - lo) + beta * (previous - lo);
    assert hi - s == alpha * (hi - value) + beta * (hi - previous);
    ProductNonNegative(alpha, value - lo);
    ProductNonNegative(beta, previous - lo);
    ProductNonNegative(alpha, hi - value);
    ProductNonNegative(beta, hi - previous);
  }

  /** Each smoothed value lies within any bounds of the prefix it covers. */
  lemma {:induction false} SmoothWithin(x: seq<real>, span: nat, lo: real, hi: real)
    requires span >= 1 && Within(x, lo, hi)
    ensures Within(Smooth(x, span), lo, hi)
    decreases |x|
  {
    if |x| > 1 {
      var init := x[..|x| - 1];
      assert Within(init, lo, hi);
      SmoothWithin(init, span, lo, hi);
      var previous := Smooth(init, span);
      assert lo <= previous[|x| - 2] <= hi;
      StepWithin(Alpha(span), previous[|x| - 2], x[|x| - 1], lo, hi);
    }
  }

  /** Entry i lies between the minimum and the maximum of x[0..i]. */
  lemma SmoothBetweenPrefixExtremes(x: seq<real>, span: nat, i: nat)
    requires span >= 1 && i < |x|
    ensures Min(x[..i + 1]) <= Smooth(x, span)[i] <= Max(x[..i + 1])
  {
    var p := x[..i + 1];
    SmoothWithin(p, span, Min(p), Max(p));
    SmoothIsCausal(x, span, i + 1);
    assert Smooth(p, span)[i] == Smooth(x, span)[i];
  }

  /** A constant series is its own exponential average. */
  lemma SmoothOfConstant(x: seq<real>, span: nat, c: real)
    requires span >= 1 && IsConstant(x, c)
    ensures Smooth(x, span) == x
  {
    SmoothWithin(x, span, c, c);
  }

  /** Adding c to every value of x. */
  function Shift(x: seq<real>, c: real): (r: seq<real>)
    ensures |r| == |x|
  {
    seq(|x|, i requires 0 <= i < |x| => x[i] + c)
  }

  /** Smoothing commutes with a shift of the price level. */
  lemma {:induction false} SmoothOfShift(x: seq<real>, span: nat, c: real)
    requires span >= 1
    ensures Smooth(Shift(x, c), span) == Shift(Smooth(x, span), c)
    decreases |x|
  {
    if |x| > 1 {
      var init := x[..|x| - 1];
      assert Shift(x, c)[..|x| - 1] == Shift(init, c);
      SmoothOfShift(init, span, c);
      var a := Alpha(span);
      var e := Smooth(init, span)[|x| - 2];
      assert Step(a, e + c, x[|x| - 1] + c) == Step(a, e, x[|x| - 1]) + c;
    }
  }
}
