/** The three key metrics of the filtered frame. pandas returns NaN for the
    maximum, minimum and mean of an empty column, so each metric is missing
    on an empty frame. */
module Metrics {
  import opened Wrappers
  import opened SeriesMath
  import opened Prices

  /** `df_filtered["High"].max()`. */
  function HighestPrice(bars: seq<Bar>): (r: Option<real>)
    ensures r.Some? <==> |bars| > 0
    ensures r.Some? ==> forall i :: 0 <= i < |bars| ==> bars[i].high <= r.value
    ensures r.Some? ==> exists i :: 0 <= i < |bars| && bars[i].high == r.value
  {
    if |bars| == 0 then None
    else
      var highs := Highs(bars);
      assert forall i :: 0 <= i < |bars| ==> highs[i] == bars[i].high;
      Some(Max(highs))
  }

  /** `df_filtered["Low"].min()`. */
  function LowestPrice(bars: seq<Bar>): (r: Option<real>)
    ensures r.Some? <==> |bars| > 0
    ensures r.Some? ==> forall i :: 0 <= i < |bars| ==> r.value <= bars[i].low
    ensures r.Some? ==> exists i :: 0 <= i < |bars| && bars[i].low == r.value
  {
    if |bars| == 0 then None
    else
      var lows := Lows(bars);
      assert forall i :: 0 <= i < |bars| ==> lows[i] == bars[i].low;
      Some(Min(lows))
  }

  /** `(df_filtered["High"] - df_filtered["Low"]).mean()`. */
  function AverageVolatility(bars: seq<Bar>): (r: Option<real>)
    ensures r.Some? <==> |bars| > 0
    ensures r.Some? ==> r.value * (|bars| as real) == Sum(Ranges(bars))
  {
    if |bars| == 0 then None else Some(Mean(Ranges(bars)))
  }

  /** On well-formed bars the average daily range is not negative. */
  lemma VolatilityNonNegative(bars: seq<Bar>)
    requires |bars| > 0 && WellFormed(bars)
    ensures AverageVolatility(bars).Some? && AverageVolatility(bars).value >= 0.0
  {
    var ranges := Ranges(bars);
    MeanBounds(ranges, 0.0, Max(ranges));
  }

  /** The average daily range never exceeds the spread between the highest
      high and the lowest low of the period. */
  lemma VolatilityWithinPriceRange(bars: seq<Bar>)
    requires |bars| > 0
    ensures AverageVolatility(bars).value
         <= HighestPrice(bars).value - LowestPrice(bars).value
  {
    var ranges := Ranges(bars);
    var spread := HighestPrice(bars).value - LowestPrice(bars).value;
    assert Within(ranges, Min(ranges), spread);
    MeanBounds(ranges, Min(ranges), spread);
  }
}
