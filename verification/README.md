# Forex dashboard indicators, in Dafny

A model of the numeric core of the USD/JPY Streamlit dashboard
(`Forex_dashboard.py`): the three key metrics of the date-filtered frame,
the 7- and 30-day moving averages, the 20-day Bollinger bands, the MACD
line and its signal line, and the Buy / Sell / Neutral signal rule. All of
it is pure: every indicator column is a fresh series computed from the
closes, so the model is functions over `seq<real>` with lemmas about them.

Prices are exact `real`s. A value that pandas leaves as NaN (the warm-up of
a rolling window, a statistic of an empty frame) is `Option.None`.

Modules, one per component:

- `Wrappers`: `Option` and `Result`.
- `SeriesMath`: sum, maximum, minimum, mean and sample variance of a series.
- `Prices`: a daily bar (open, high, low, close) and the columns read from a list of bars.
- `Metrics`: highest high, lowest low, average daily range.
- `Rolling`: `rolling(window=w).mean()` and `.std()`, and the square-root predicate `IsSqrt`. The first w-1 entries are missing, as with pandas' default `min_periods`. The standard deviation uses the n-1 divisor.
- `Bollinger`: mean ± 2·std over 20 bars, with NaN propagation.
- `Ema`: `ewm(span=n, adjust=False).mean()`, written as the recurrence over the prefix.
- `Macd`: `compute_macd` with spans 12, 26 and 9.
- `Signals`: the first-match rule on the last bar. It also holds the signal block as written, which reads a column the file never creates (see Findings).
- `Dashboard`: the indicator columns added to the filtered frame.

The square root is a parameter `root: real -> real`. Exact square roots
cannot be defined over Dafny's reals without an axiom. Lemmas that need the
square root require `IsSqrt(root)`: the root is non-negative and squares
back to its argument.

The file computes no RSI, so the rule takes the latest RSI reading as an
input. An empty frame has no last bar, so it gives no signal.

The file uses only the windows 7, 20 and 30 and the spans 12, 26 and 9.
The model requires every window to be at least 1; this is its own
requirement, chosen to cover those fixed windows (pandas itself also
accepts a window of 0). Every span must be at least 1, which pandas' `ewm`
demands.

## Model

| member | source | states |
|---|---|---|
| `Metrics.HighestPrice` | Forex_dashboard.py:40 | missing exactly on an empty frame; otherwise at least every bar's high and equal to one of them |
| `Metrics.LowestPrice` | Forex_dashboard.py:41 | missing exactly on an empty frame; otherwise at most every bar's low and equal to one of them |
| `Metrics.AverageVolatility` | Forex_dashboard.py:42 | missing exactly on an empty frame; otherwise n times it is the sum of the daily ranges |
| `Metrics.VolatilityNonNegative` | Forex_dashboard.py:42 | when every low is at most its high, the average range is non-negative |
| `Metrics.VolatilityWithinPriceRange` | Forex_dashboard.py:40-42 | the average daily range never exceeds highest high minus lowest low |
| `SeriesMath.SampleVariance` | Forex_dashboard.py:76 | the ddof=1 variance of a window of two or more values is non-negative |
| `Rolling.RollingMeanAt` | Forex_dashboard.py:65-66 | entry i is missing iff i < w-1; otherwise it is (running total up to i minus running total before i-w+1) / w |
| `Rolling.RollingStdAt` | Forex_dashboard.py:76 | for any window w: entry i is defined iff w >= 2 and i >= w-1, and then it is non-negative and squares to the window's ddof=1 sample variance |
| `Rolling.ShortSeriesAllMissing` | Forex_dashboard.py:75-76 | a series shorter than the window has every rolling mean and every rolling deviation missing |
| `Rolling.RollingMeanWithinWindow` | Forex_dashboard.py:75 | every defined rolling mean lies between the minimum and the maximum of its window |
| `Rolling.RollingOfConstant` | Forex_dashboard.py:75-76 | on a constant series each defined mean is the constant and each window variance is zero |
| `Rolling.RollingIsCausal` | Forex_dashboard.py:65-66 | dropping later bars leaves the earlier rolling means and deviations unchanged |
| `Rolling.RollingMeanSlides` | Forex_dashboard.py:65 | once the window is full, mean[i] = mean[i-1] + (x[i] - x[i-w]) / w |
| `Rolling.ThreeBarAverageExample` | Forex_dashboard.py:65 | on the ten-close example, a 3-bar mean is missing at bars 0 and 1 and is 101 at bar 2 |
| `Bollinger.UpperBand` | Forex_dashboard.py:77 | the upper band is aligned with the closes |
| `Bollinger.LowerBand` | Forex_dashboard.py:78 | the lower band is aligned with the closes |
| `Bollinger.BandsDefinedFromTwentiethBar` | Forex_dashboard.py:75-78 | upper, lower, mean and deviation are each defined exactly from index 19 on |
| `Bollinger.ShortSeriesHasNoBands` | Forex_dashboard.py:75-78 | fewer than 20 closes give no band value at all |
| `Bollinger.BandsOrdered` | Forex_dashboard.py:76-78 | where defined: std >= 0, std² is the window's sample variance, upper - mean = mean - lower = 2·std, and lower <= mean <= upper |
| `Bollinger.FlatMarketBandsCollapse` | Forex_dashboard.py:75-78 | on a constant series both defined bands equal the constant |
| `Ema.Alpha` | Forex_dashboard.py:91 | the smoothing factor 2/(span+1) lies in (0, 1] for every span >= 1 |
| `Ema.Smooth` | Forex_dashboard.py:91-92 | the exponential average has one entry per input value, none missing |
| `Ema.SmoothAt` | Forex_dashboard.py:91-92 | EMA[0] = x[0] and EMA[i] = α·x[i] + (1-α)·EMA[i-1] for i >= 1 |
| `Ema.SmoothIsCausal` | Forex_dashboard.py:91-92 | the average of the first k values is the first k entries of the average of the whole series |
| `Ema.StepWithin` | Forex_dashboard.py:91 | one smoothing step with 0 < α <= 1 stays within any bounds holding both of its operands |
| `Ema.SmoothWithin` | Forex_dashboard.py:91-92 | bounds that hold every input value hold every averaged value |
| `Ema.SmoothBetweenPrefixExtremes` | Forex_dashboard.py:91-92 | entry i lies between the minimum and the maximum of x[0..i] |
| `Ema.SmoothOfConstant` | Forex_dashboard.py:91-92 | a constant series is its own exponential average |
| `Ema.SmoothOfShift` | Forex_dashboard.py:91-92 | adding c to every input adds c to every averaged value |
| `Macd.MacdLine` | Forex_dashboard.py:93 | the MACD line is aligned with the closes |
| `Macd.MacdAligned` | Forex_dashboard.py:90-95 | MACD and signal line have the length of the closes and both are 0 at bar 0 |
| `Macd.MacdAt` | Forex_dashboard.py:93-94 | MACD[i] = shortEMA[i] - longEMA[i], and the signal line follows the 9-span recurrence over MACD |
| `Macd.SignalWithinMacdRange` | Forex_dashboard.py:94 | signal[i] lies between the minimum and the maximum of MACD[0..i] |
| `Macd.FlatMarketMacdIsZero` | Forex_dashboard.py:91-94 | a constant close series gives an all-zero MACD line and signal line |
| `Macd.MacdIgnoresPriceLevel` | Forex_dashboard.py:90-95 | shifting every close by the same amount changes neither line |
| `Signals.Classify` | Forex_dashboard.py:103-108 | Buy iff MACD > Signal and RSI < 30; Sell iff MACD < Signal and RSI > 70; Neutral iff neither holds |
| `Signals.RuleOrderIrrelevant` | Forex_dashboard.py:103-108 | trying the Sell rule first gives the same answer for every input, because the two rules never overlap |
| `Signals.CrossingDecidesDirection` | Forex_dashboard.py:103-108 | Buy needs MACD above Signal, Sell needs it below, and equal lines give Neutral |
| `Signals.WorkedCases` | Forex_dashboard.py:103-108 | (1.2, 0.8, 25) is Buy, (-0.5, 0.1, 75) is Sell, (0.3, 0.3, 50) is Neutral |
| `Signals.LatestSignal` | Forex_dashboard.py:97-108 | no signal exactly when the frame is empty; otherwise the rule applied to the last MACD, the last signal and the RSI reading |
| `Signals.FirstBarIsNeutral` | Forex_dashboard.py:97-108 | a one-bar frame always gives Neutral |
| `Signals.FlatMarketIsNeutral` | Forex_dashboard.py:97-108 | a constant close series gives Neutral whatever the RSI |
| `Signals.SignalIgnoresPriceLevel` | Forex_dashboard.py:97-108 | shifting every close by the same amount leaves the signal unchanged |
| `Signals.SignalAsWritten` | Forex_dashboard.py:103-108 | the block as written fails with IndexError exactly on an empty frame, and never fails when an RSI column is present |
| `Signals.MissingRsiRaises` | Forex_dashboard.py:103-108 | without an RSI column the block raises KeyError unless the last MACD equals the last signal, in which case it gives Neutral |
| `Signals.TwoBarsRaise` | Forex_dashboard.py:103-105 | the closes 1, 2 without an RSI column raise KeyError("RSI") |
| `Signals.AsWrittenAgreesWithRsiColumn` | Forex_dashboard.py:103-108 | with an RSI column, the block as written gives what `LatestSignal` gives for the column's last value |
| `Dashboard.ComputeIndicators` | Forex_dashboard.py:65-97 | every indicator series is aligned with the bars: the two moving averages and the MACD pair stored as frame columns, and the two bands kept as separate series |
| `Dashboard.WarmUpGaps` | Forex_dashboard.py:65-78 | the 7-day mean appears at index 6, the bands at 19, the 30-day mean at 29 |

## Left out

- Page setup, markdown, sidebar widgets and metric display (lines 8-21, 33-34, 44-48): user interface only.
- Plotly figures (lines 50-61, 68-71, 80-86, 98-99): presentation only.
- Reading the CSV, renaming the date column, coercing and sorting dates (lines 24-30): file I/O and parsing. The model takes bars already in ascending date order.
- The date-range filter (line 37): it depends on widget input. The model's input is the filtered list of bars.
- The data table and the CSV download (lines 111-116): I/O.
- Floating-point rounding and NaN values inside the price data: prices are exact reals. The formatting of the metrics to 2 or 4 decimals is display only.
- The square root: a parameter of the model. Properties that need it assume `IsSqrt(root)`.
- A rolling window of 0, which pandas accepts and answers with an all-missing series: the file never uses one, so the model requires windows of at least 1.
- RSI: the file never computes it. The corrected rule takes the latest RSI reading as an input.

## Findings

| source | as written | input that shows it | evidently intended | confidence | as-written member | corrected member |
|---|---|---|---|---|---|---|
| Forex_dashboard.py:103-105 | the signal block reads `df_filtered["RSI"]`, but no line of the file creates that column; unless the price file brings one, Python raises KeyError whenever the last MACD differs from the last signal value | a price file with columns Date, Open, High, Low, Close and closes 1 then 2 | classify on an RSI reading computed beforehand | high for a price file without an RSI column; not executed | `Signals.SignalAsWritten`, `Signals.MissingRsiRaises`, `Signals.TwoBarsRaise` | `Signals.LatestSignal`, with `Signals.Classify`, `Signals.FlatMarketIsNeutral` and `Signals.AsWrittenAgreesWithRsiColumn` |
