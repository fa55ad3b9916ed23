/** The daily price bars of the filtered frame, in ascending date order, and
    the columns read from them. Dates are not modelled: the bars are taken
    already parsed, sorted and filtered. */
module Prices {

  datatype Bar = Bar(open: real, high: real, low: real, close: real)

  /** `df_filtered["Close"]`. */
  function Closes(bars: seq<Bar>): (r: seq<real>)
    ensures |r| == |bars|
  {
    seq(|bars|, i requires 0 <= i < |bars| => bars[i].close)
  }

  /** `df_filtered["High"]`. */
  function Highs(bars: seq<Bar>): (r: seq<real>)
    ensures |r| == |bars|
  {
    seq(|bars|, i requires 0 <= i < |bars| => bars[i].high)
  }

  /** `df_filtered["Low"]`. */
  function Lows(bars: seq<Bar>): (r: seq<real>)
    ensures |r| == |bars|
  {
    seq(|bars|, i requires 0 <= i < |bars| => bars[i].low)
  }

  /** `df_filtered["High"] - df_filtered["Low"]`: each day's range. */
  function Ranges(bars: seq<Bar>): (r: seq<real>)
    ensures |r| == |bars|
  {
    seq(|bars|, i requires 0 <= i < |bars| => bars[i].high - bars[i].low)
  }

  /** Every bar's low is at most its high. */
  predicate WellFormed(bars: seq<Bar>)
  {
    forall i :: 0 <= i < |bars| ==> bars[i].low <= bars[i].high
  }
}
