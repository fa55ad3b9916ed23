/** The indicator series the dashboard derives from the filtered frame's
    closes. The two moving averages and the MACD pair are stored as columns
    of the frame (and so reach the CSV download); the Bollinger bands stay
    separate series that are only plotted. */
module Dashboard {
  import opened Wrappers
  import opened Prices
  import opened Rolling
  import opened Bollinger
  import opened Macd

  const ShortAverageWindow: nat := 7
  const LongAverageWindow: nat := 30

  datatype Indicators = Indicators(
    shortAverage: seq<Option<real>>,
    longAverage: seq<Option<real>>,
    upperBand: seq<Option<real>>,
    lowerBand: seq<Option<real>>,
    macd: seq<real>,
    signalLine: seq<real>)

  /** Every indicator series, computed fresh from the frame's bars. */
  function ComputeIndicators(bars: seq<Bar>, root: real -> real): (r: Indicators)
    ensures |r.shortAverage| == |r.longAverage| == |bars|
    ensures |r.upperBand| == |r.lowerBand| == |bars|
    ensures |r.macd| == |r.signalLine| == |bars|
  {
    var close := Closes(bars);
    var (macd, sig) := DefaultMacd(close);
    MacdAligned(close, ShortSpan, LongSpan, SignalSpan);
    Indicators(
      RollingMean(close, ShortAverageWindow),
      RollingMean(close, LongAverageWindow),
      UpperBand(close, root),
      LowerBand(close, root),
      macd,
      sig)
  }

  /** The warm-up gaps of the frame: the 7-day average appears at the 7th
      bar, the Bollinger bands at the 20th, the 30-day average at the 30th,
      and MACD and signal line from the first bar on. */
  lemma WarmUpGaps(bars: seq<Bar>, root: real -> real, i: nat)
    requires i < |bars|
    ensures ComputeIndicators(bars, root).shortAverage[i].Some? <==> i >= 6
    ensures ComputeIndicators(bars, root).upperBand[i].Some? <==> i >= 19
    ensures ComputeIndicators(bars, root).lowerBand[i].Some? <==> i >= 19
    ensures ComputeIndicators(bars, root).longAverage[i].Some? <==> i >= 29
  {
    BandsDefinedFromTwentiethBar(Closes(bars), root, i);
  }
}
