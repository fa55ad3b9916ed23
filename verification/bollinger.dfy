/** Bollinger bands over closing prices: the 20-bar rolling mean plus and
    minus twice the 20-bar rolling sample standard deviation. */
module Bollinger {
  import opened Wrappers
  import opened SeriesMath
  import opened Rolling

  const BandWindow: nat := 20
  const BandWidth: real := 2.0

  /** `mean + k * std` under pandas' NaN propagation: missing if either
      operand is missing. */
  function Offset(mean: Option<real>, std: Option<real>, k: real): Option<real>
  {
    if mean.Some? && std.Some? then Some(mean.value + k * std.value) else None
  }

  /** The middle band, `close.rolling(window=20).mean()`. */
  function MiddleBand(close: seq<real>): seq<Option<real>>
  {
    RollingMean(close, BandWindow)
  }

  /** The rolling standard deviation feeding both bands. */
  function BandStd(close: seq<real>, root: real -> real): seq<Option<real>>
  {
    RollingStd(close, BandWindow, root)
  }

  /** `rolling_mean + rolling_std * 2`. */
  function UpperBand(close: seq<real>, root: real -> real): (r: seq<Option<real>>)
    ensures |r| == |close|
  {
    var mean, std := MiddleBand(close), BandStd(close, root);
    seq(|close|, i requires 0 <= i < |close| => Offset(mean[i], std[i], BandWidth))
  }

  /** `rolling_mean - rolling_std * 2`. */
  function LowerBand(close: seq<real>, root: real -> real): (r: seq<Option<real>>)
    ensures |r| == |close|
  {
    var mean, std := MiddleBand(close), BandStd(close, root);
    seq(|close|, i requires 0 <= i < |close| => Offset(mean[i], std[i], -BandWidth))
  }

  /** Both bands, the mean and the deviation are defined at exactly the same
      bars: from the twentieth bar on. */
  lemma BandsDefinedFromTwentiethBar(close: seq<real>, root: real -> real, i: nat)
    requires i < |close|
    ensures UpperBand(close, root)[i].Some? <==> i >= BandWindow - 1
    ensures LowerBand(close, root)[i].Some? <==> i >= BandWindow - 1
    ensures MiddleBand(close)[i].Some? <==> i >= BandWindow - 1
    ensures BandStd(close, root)[i].Some? <==> i >= BandWindow - 1
  {
  }

  /** Fewer than twenty closes give no band value anywhere. */
  lemma ShortSeriesHasNoBands(close: seq<real>, root: real -> real)
    requires |close| < BandWindow
    ensures forall i :: 0 <= i < |close| ==> UpperBand(close, root)[i].None?
    ensures forall i :: 0 <= i < |close| ==> LowerBand(close, root)[i].None?
  {
    ShortSeriesAllMissing(close, BandWindow);
  }

  /** Where the bands are defined they sit symmetrically two deviations
      around the mean, the deviation squares to the window's sample variance,
      and so lower <= mean <= upper. */
  lemma BandsOrdered(close: seq<real>, root: real -> real, i: nat)
    requires IsSqrt(root) && BandWindow - 1 <= i < |close|
    ensures UpperBand(close, root)[i].Some? && LowerBand(close, root)[i].Some?
    ensures MiddleBand(close)[i].Some? && BandStd(close, root)[i].Some?
    ensures var mean, std := MiddleBand(close)[i].value, BandStd(close, root)[i].value;
      && std >= 0.0
      && std * std == SampleVariance(Trailing(close, BandWindow, i))
      && UpperBand(close, root)[i].value - mean == BandWidth * std
      && mean - LowerBand(close, root)[i].value == BandWidth * std
      && LowerBand(close, root)[i].value <= mean <= UpperBand(close, root)[i].value
  {
    var v := SampleVariance(Trailing(close, BandWindow, i));
    assert 0.0 <= root(v) && root(v) * root(v) == v;
  }

  /** A flat market has zero deviation: both bands collapse onto the price. */
  lemma FlatMarketBandsCollapse(close: seq<real>, root: real -> real, c: real, i: nat)
    requires IsSqrt(root) && IsConstant(close, c) && BandWindow - 1 <= i < |close|
    ensures UpperBand(close, root)[i] == Some(c)
    ensures LowerBand(close, root)[i] == Some(c)
  {
    RollingOfConstant(close, BandWindow, c, i);
    var s := root(0.0);
    assert 0.0 <= s && s * s == 0.0;
    ZeroRoot(s);
  }

  /** The only non-negative square root of zero is zero. */
  lemma ZeroRoot(s: real)
    requires 0.0 <= s && s * s == 0.0
    ensures s == 0.0
  {
    if s > 0.0 {
      ProductSign(-s, s);
    }
  }
}
