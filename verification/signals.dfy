/** The automated trading signal: a first-match rule over the latest MACD,
    signal-line and RSI values. */
module Signals {
  import opened Wrappers
  import opened SeriesMath
  import opened Ema
  import opened Macd

  datatype Signal = Buy | Sell | Neutral

  /** RSI below this is oversold. */
  const Oversold: real := 30.0
  /** RSI above this is overbought. */
  const Overbought: real := 70.0

  /** The rule as the dashboard evaluates it: Buy first, then Sell, else
      Neutral. */
  function Classify(macd: real, signal: real, rsi: real): (s: Signal)
    ensures s == Buy <==> macd > signal && rsi < Oversold
    ensures s == Sell <==> macd < signal && rsi > Overbought
    ensures s == Neutral <==> !(macd > signal && rsi < Oversold) && !(macd < signal && rsi > Overbought)
  {
    if macd > signal && rsi < Oversold then Buy
    else if macd < signal && rsi > Overbought then Sell
    else Neutral
  }

  /** The same two conditions tried in the opposite order. */
  function ClassifySellFirst(macd: real, signal: real, rsi: real): Signal
  {
    if macd < signal && rsi > Overbought then Sell
    else if macd > signal && rsi < Oversold then Buy
    else Neutral
  }

  /** The conditions never overlap, so the order of the rules does not
      matter. */
  lemma RuleOrderIrrelevant(macd: real, signal: real, rsi: real)
    ensures Classify(macd, signal, rsi) == ClassifySellFirst(macd, signal, rsi)
  {
  }

  /** Buy and Sell need the MACD line strictly on opposite sides of the
      signal line; when the two lines meet there is no signal. */
  lemma CrossingDecidesDirection(macd: real, signal: real, rsi: real)
    ensures Classify(macd, signal, rsi) == Buy ==> macd > signal
    ensures Classify(macd, signal, rsi) == Sell ==> macd < signal
    ensures macd == signal ==> Classify(macd, signal, rsi) == Neutral
  {
  }

  /** The rule applied to the last bar, with the latest RSI reading as an
      input: the file computes no RSI. An empty frame has no last bar
      (`iloc[-1]` fails), so there is no signal. */
  function LatestSignal(close: seq<real>, rsi: real): (r: Option<Signal>)
    ensures r.None? <==> |close| == 0
  {
    if |close| == 0 then None
    else
      var (macd, sig) := DefaultMacd(close);
      MacdAligned(close, ShortSpan, LongSpan, SignalSpan);
      Some(Classify(macd[|close| - 1], sig[|close| - 1], rsi))
  }

  /** A single bar never gives a signal: both lines start at zero. */
  lemma FirstBarIsNeutral(close: seq<real>, rsi: real)
    requires |close| == 1
    ensures LatestSignal(close, rsi) == Some(Neutral)
  {
    MacdAligned(close, ShortSpan, LongSpan, SignalSpan);
  }

  /** A flat market never gives a signal, whatever the RSI. */
  lemma FlatMarketIsNeutral(close: seq<real>, c: real, rsi: real)
    requires |close| > 0 && IsConstant(close, c)
    ensures LatestSignal(close, rsi) == Some(Neutral)
  {
    FlatMarketMacdIsZero(close, ShortSpan, LongSpan, SignalSpan, c);
  }

  /** The signal depends on price movements, not on the price level. */
  lemma SignalIgnoresPriceLevel(close: seq<real>, c: real, rsi: real)
    ensures LatestSignal(Shift(close, c), rsi) == LatestSignal(close, rsi)
  {
    MacdIgnoresPriceLevel(close, ShortSpan, LongSpan, SignalSpan, c);
  }

  /** The three worked cases: a bullish crossing while oversold, a bearish
      crossing while overbought, and meeting lines. */
  lemma WorkedCases()
    ensures Classify(1.2, 0.8, 25.0) == Buy
    ensures Classify(-0.5, 0.1, 75.0) == Sell
    ensures Classify(0.3, 0.3, 50.0) == Neutral
  {
  }

  /** What Python raises at the signal block. */
  datatype Fault = IndexError | KeyError(column: string)

  /** The signal block as written: it reads `df_filtered["RSI"]`, a column
      only the price file itself could supply (`rsiColumn`). Python's `and`
      short-circuits, so the column is read only when the MACD line is
      strictly above or below the signal line. */
  function SignalAsWritten(close: seq<real>, rsiColumn: Option<seq<real>>): (r: Result<Signal, Fault>)
    requires rsiColumn.Some? ==> |rsiColumn.value| == |close|
    ensures r == Err(IndexError) <==> |close| == 0
    ensures rsiColumn.Some? && |close| > 0 ==> r.Ok?
  {
    if |close| == 0 then Err(IndexError)
    else
      var (macd, sig) := DefaultMacd(close);
      MacdAligned(close, ShortSpan, LongSpan, SignalSpan);
      var m, s := macd[|close| - 1], sig[|close| - 1];
      if m > s then
        if rsiColumn.None? then Err(KeyError("RSI"))
        else if rsiColumn.value[|close| - 1] < Oversold then Ok(Buy)
        else Ok(Neutral)
      else if m < s then
        if rsiColumn.None? then Err(KeyError("RSI"))
        else if rsiColumn.value[|close| - 1] > Overbought then Ok(Sell)
        else Ok(Neutral)
      else Ok(Neutral)
  }

  /** Without an RSI column the block raises KeyError unless the two lines
      are exactly equal on the last bar, where it falls through to Neutral. */
  lemma MissingRsiRaises(close: seq<real>)
    requires |close| > 0
    ensures var (macd, sig) := DefaultMacd(close);
      |macd| == |sig| == |close| &&
      SignalAsWritten(close, None)
        == if macd[|close| - 1] == sig[|close| - 1] then Ok(Neutral) else Err(KeyError("RSI"))
  {
    MacdAligned(close, ShortSpan, LongSpan, SignalSpan);
  }

  /** Two closes, 1 then 2, already make the block raise KeyError. */
  lemma TwoBarsRaise()
    ensures SignalAsWritten([1.0, 2.0], None) == Err(KeyError("RSI"))
  {
    var close := [1.0, 2.0];
    var (macd, sig) := DefaultMacd(close);
    MacdAt(close, ShortSpan, LongSpan, SignalSpan, 1);
    MacdAligned(close, ShortSpan, LongSpan, SignalSpan);
    SmoothAt(close, ShortSpan, 0);
    SmoothAt(close, ShortSpan, 1);
    SmoothAt(close, LongSpan, 0);
    SmoothAt(close, LongSpan, 1);
    assert macd[1] == 2.0 / 13.0 - 2.0 / 27.0;
    assert sig[1] == Step(Alpha(SignalSpan), 0.0, macd[1]);
    assert sig[1] == macd[1] / 5.0;
    MissingRsiRaises(close);
  }

  /** When the price file does carry an RSI column, the block agrees with
      the rule on the last bar. */
  lemma AsWrittenAgreesWithRsiColumn(close: seq<real>, rsiColumn: seq<real>)
    requires |close| > 0 && |rsiColumn| == |close|
    ensures SignalAsWritten(close, Some(rsiColumn)).Ok?
    ensures LatestSignal(close, rsiColumn[|close| - 1]) == Some(SignalAsWritten(close, Some(rsiColumn)).value)
  {
  }
}
