/** `compute_macd`: the MACD line is the 12-span exponential average of the
    closes minus their 26-span one, and the signal line is the 9-span
    exponential average of the MACD line. */
module Macd {
  import opened SeriesMath
  import opened Ema

  const ShortSpan: nat := 12
  const LongSpan: nat := 26
  const SignalSpan: nat := 9

  /** The spans `compute_macd` accepts: pandas rejects a span below one. */
  predicate ValidSpans(short: nat, long: nat, signal: nat)
  {
    short >= 1 && long >= 1 && signal >= 1
  }

  /** `short_ema - long_ema`, entry by entry. */
  function MacdLine(close: seq<real>, short: nat, long: nat): (r: seq<real>)
    requires short >= 1 && long >= 1
    ensures |r| == |close|
  {
    var fast, slow := Smooth(close, short), Smooth(close, long);
    seq(|close|, i requires 0 <= i < |close| => fast[i] - slow[i])
  }

  /** `compute_macd(data, short_window, long_window, signal_window)`: the
      MACD line and its signal line. */
  function ComputeMacd(close: seq<real>, short: nat, long: nat, signal: nat): (r: (seq<real>, seq<real>))
    requires ValidSpans(short, long, signal)
  {
    var macd := MacdLine(close, short, long);
    (macd, Smooth(macd, signal))
  }

  /** `compute_macd(df_filtered["Close"])` with the default spans 12, 26, 9. */
  function DefaultMacd(close: seq<real>): (seq<real>, seq<real>)
  {
    ComputeMacd(close, ShortSpan, LongSpan, SignalSpan)
  }

  /** Both lines are aligned with the closes, never missing, and start at
      zero: both averages are seeded with the first close. */
  lemma MacdAligned(close: seq<real>, short: nat, long: nat, signal: nat)
    requires ValidSpans(short, long, signal)
    ensures |ComputeMacd(close, short, long, signal).0| == |close|
    ensures |ComputeMacd(close, short, long, signal).1| == |close|
    ensures |close| > 0 ==> ComputeMacd(close, short, long, signal).0[0] == 0.0
    ensures |close| > 0 ==> ComputeMacd(close, short, long, signal).1[0] == 0.0
  {
    if |close| > 0 {
      SmoothAt(close, short, 0);
      SmoothAt(close, long, 0);
      SmoothAt(MacdLine(close, short, long), signal, 0);
    }
  }

  /** Every MACD entry is the difference of the two averages at that bar, and
      the signal line obeys the exponential recurrence over the MACD line. */
  lemma MacdAt(close: seq<real>, short: nat, long: nat, signal: nat, i: nat)
    requires ValidSpans(short, long, signal) && i < |close|
    ensures ComputeMacd(close, short, long, signal).0[i]
         == Smooth(close, short)[i] - Smooth(close, long)[i]
    ensures var (macd, sig) := ComputeMacd(close, short, long, signal);
      i > 0 ==> sig[i] == Step(Alpha(signal), sig[i - 1], macd[i])
  {
    SmoothAt(MacdLine(close, short, long), signal, i);
  }

  /** The signal line never leaves the range the MACD line has covered. */
  lemma SignalWithinMacdRange(close: seq<real>, short: nat, long: nat, signal: nat, i: nat)
    requires ValidSpans(short, long, signal) && i < |close|
    ensures var (macd, sig) := ComputeMacd(close, short, long, signal);
      Min(macd[..i + 1]) <= sig[i] <= Max(macd[..i + 1])
  {
    SmoothBetweenPrefixExtremes(MacdLine(close, short, long), signal, i);
  }

  /** A flat market has both lines identically zero. */
  lemma FlatMarketMacdIsZero(close: seq<real>, short: nat, long: nat, signal: nat, c: real)
    requires ValidSpans(short, long, signal) && IsConstant(close, c)
    ensures IsConstant(ComputeMacd(close, short, long, signal).0, 0.0)
    ensures IsConstant(ComputeMacd(close, short, long, signal).1, 0.0)
  {
    SmoothOfConstant(close, short, c);
    SmoothOfConstant(close, long, c);
    var macd := MacdLine(close, short, long);
    SmoothOfConstant(macd, signal, 0.0);
  }

  /** Moving every close by the same amount changes neither line: MACD only
      sees differences of prices. */
  lemma MacdIgnoresPriceLevel(close: seq<real>, short: nat, long: nat, signal: nat, c: real)
    requires ValidSpans(short, long, signal)
    ensures ComputeMacd(Shift(close, c), short, long, signal) == ComputeMacd(close, short, long, signal)
  {
    SmoothOfShift(close, short, c);
    SmoothOfShift(close, long, c);
    assert MacdLine(Shift(close, c), short, long) == MacdLine(close, short, long);
  }
}
