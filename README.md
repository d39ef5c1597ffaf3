# Backtester model

This project models the core of a small trading backtester. It has two
parts:

- Four signal generators. SMA crossover, momentum, z-score mean reversion
  and channel breakout each turn a daily OHLC price frame into one
  position per bar: 1 long, 0 flat, -1 short.
- The backtest engine. It turns a signal into per-bar returns, strategy
  returns, a compounded equity curve, the total return and the maximum
  drawdown.

The source is a pandas pipeline with no loops and no mutation. The model
is therefore pure: columns are `seq`s, every pandas operation is a
function, and the properties are lemmas.

- `stats.dfy`, module `Stats`: sum, mean, product, max, min and sample
  variance over `seq<real>`, with their properties.
- `columns.dfy`, module `Columns`: a float column is modelled as
  `seq<Cell>`, where `Cell = NaN | Num(v)`. It defines the vectorised
  operations the source uses: `rolling(n).mean/max/min/std`, `shift`,
  `pct_change`, `fillna`, the row product, `cumprod` and `cummax`.
  `rolling(n)` follows pandas' default `min_periods = n`: a window is NaN
  until `n` rows exist, or when any of its cells is NaN. A window of 0
  rows, which pandas accepts, is NaN on every row. A comparison with
  NaN is false, as it is for floats, so `np.where` gives every warm-up bar
  its "else" value.
- `prices.dfy`, module `Prices`: the bar record, the price columns and the
  close-to-close return column.
- `strategies.dfy`, module `Strategies`: the four generators. Each comes
  with a rule lemma that states, bar by bar, when it is long, short or
  flat, and with a causality lemma saying it never reads a later bar.
  For momentum that holds only when `lookback >= 0`: a negative lookback
  shifts the other way, as `shift(-k)` does, and reads a later close. For
  mean reversion it holds with the deviations cut alike.
- `engine.dfy`, module `Engine`: `backtest` and its metrics. It proves the
  lag rule (no look-ahead), the compounding of equity, and the bounds of
  the drawdown and of long-only equity.
- `scenarios.dfy`, module `Scenarios`: the SMA crossover on a strictly
  rising close, in general and on the concrete 25-bar series
  100, 101, ..., 124 with SMA(3, 5).

Prices and returns are exact reals. The warm-up bars follow the code: they
come out as signal 0, not as a separate "undefined" value. The source never
marks them undefined: `np.where(NaN > x, 1, 0)` is already 0 at the
generator. The engine's later `shift(1).fillna(0)` therefore only affects
the first bar.

## Model

Several functions define a source operation but carry no contract of
their own. Each is specified by the lemma or function row named here:
- `Columns.Trailing` by `Columns.TrailingSpec`;
- `Columns.RollingMean` by `Columns.RollingMeanOfLift`;
- `Columns.RollingMax` and `Columns.RollingMin` by
  `Columns.LaggedRollingMax` and `Columns.LaggedRollingMin`;
- `Columns.Shift` by `Strategies.MomentumRule` and the lagged rolling
  lemmas;
- `Columns.PctChange` by `Prices.RawReturns`;
- `Columns.FillNa` by `Prices.Returns` and `Engine.Positions`;
- `Columns.Times` by `Engine.StrategyReturnAt`;
- `Engine.Growth` by `Engine.Equity` and `Engine.EquityIsProduct`;
- `Engine.Drawdown` (backtest.py:48) by `Engine.DrawdownAt`;
- `Strategies.Standardize` (backtest.py:28) by `Strategies.ZScoreAt`.

| member | source | states |
|---|---|---|
| Stats.MaxSpec | backtest.py:34 | the window maximum bounds every element of the window and is one of them |
| Stats.MinSpec | backtest.py:35 | the window minimum is at most every element of the window and is one of them |
| Stats.MeanBelow | backtest.py:13-14 | a mean of values that are all below t is below t |
| Stats.MeanAtLeast | backtest.py:13-14 | a mean of values that are all at least t is at least t |
| Stats.MeanOfConcatBelow | backtest.py:13-14 | prepending values of a lower mean lowers the mean but keeps it above the lower one, which is why a longer window's mean lags on a rising series |
| Stats.RatioBounds | backtest.py:48 | dividing by a positive peak: the ratio is at most 1 for values at most the peak, exactly 1 only at the peak, and positive for positive values |
| Stats.ProductOfOnes | backtest.py:44 | compounding factors that are all 1 gives 1 |
| Columns.ValuesSpec | backtest.py:13 | a column yields its numbers exactly when it has no NaN cell, and then keeps each number in place |
| Columns.TrailingSpec | backtest.py:13 | a rolling window of n rows ending at row i is full exactly when n rows exist and none is NaN, and it then holds those rows in order |
| Columns.TrailingOfPrefix | backtest.py:13 | the rolling window ending at row i is the same in every prefix of the column that keeps row i |
| Columns.TrailingOfLift | backtest.py:13 | on a NaN-free column the window is full exactly when n rows exist, and it is then the slice of the last n values |
| Columns.RollingMeanOfLift | backtest.py:13-14 | on a NaN-free column the rolling mean is NaN for the first n-1 rows and then the mean of the last n values |
| Columns.LaggedRollingMax | backtest.py:34-36 | `rolling(n).max().shift(1)` at row i is NaN until row n, and then the maximum of the n rows before i, leaving row i out |
| Columns.LaggedRollingMin | backtest.py:35-37 | `rolling(n).min().shift(1)` at row i is NaN until row n, and then the minimum of the n rows before i, leaving row i out |
| Columns.RollingStd | backtest.py:27 | the rolling std is a number exactly where n >= 2 and the window is full, so it is NaN everywhere when n <= 1; there it is non-negative and squares to the window's sample variance |
| Columns.RollingStdOfPrefix | backtest.py:27 | deviations that are correct for a column stay correct for every prefix of it |
| Columns.CumProd | backtest.py:44 | `cumprod` starts at the first value and then multiplies in each next value |
| Columns.CumMax | backtest.py:48 | `cummax` at row i is at least the first value and at least the value of row i |
| Columns.CumMaxAt | backtest.py:48 | `cummax` at row i bounds every row up to i and equals one of them |
| Prices.RawReturns | backtest.py:25 | `pct_change` is NaN on the first bar and close[i] / close[i-1] - 1 on every later bar |
| Prices.Returns | backtest.py:42 | after `fillna(0)` the first bar's return is 0 and every later bar's is close[i] / close[i-1] - 1 |
| Prices.ReturnsOfPrefix | backtest.py:42 | truncating the frame truncates the pct_change column and the filled return column |
| Prices.ColumnsOfPrefix | backtest.py:13-14 | truncating the frame truncates the close, high and low columns |
| Strategies.Sma | backtest.py:11-16 | the SMA signal has one value per bar and is always 0 or 1 |
| Strategies.SmaRule | backtest.py:13-15 | SMA is long exactly when both windows are full (so neither window is 0) and the fast mean is strictly above the slow mean; warm-up bars and ties are flat |
| Strategies.SmaIsCausal | backtest.py:11-16 | the SMA signal of the bars before k does not change when the frame is cut after k |
| Strategies.Momentum | backtest.py:18-21 | the momentum signal has one value per bar and is always 0 or 1 |
| Strategies.MomentumRule | backtest.py:20 | momentum is long exactly when the close `lookback` bars away exists and the current close is strictly above it; otherwise it is flat |
| Strategies.MomentumIsCausal | backtest.py:18-21 | with a non-negative lookback, cutting the frame does not change the momentum signal of the bars kept |
| Strategies.ZScore | backtest.py:25-28 | the z-score column has one cell per bar |
| Strategies.ReturnWindow | backtest.py:25-26 | a window of returns ending at bar i is full exactly when it leaves out bar 0, whose return is NaN, and it then holds those bars' returns |
| Strategies.ZScoreAt | backtest.py:25-28 | the z-score is defined exactly from bar `lookback` on when lookback >= 2, and is then `Standardize`, i.e. (ret - window mean) / (std + 1e-9) |
| Strategies.MeanReversion | backtest.py:23-30 | the mean-reversion signal has one value per bar, each -1, 0 or 1 |
| Strategies.MeanReversionRule | backtest.py:29 | long exactly when z < -threshold; otherwise short exactly when z > threshold; flat when z is NaN, so before bar `lookback` and always when lookback <= 1 |
| Strategies.MeanReversionBands | backtest.py:29 | with threshold >= 0, short exactly when z > threshold, and a z-score equal to either band is flat |
| Strategies.ZScoreOfPrefixAt | backtest.py:25-28 | bar i of a truncated frame, with the deviations truncated alike, has the z-score it has in the whole frame |
| Strategies.MeanReversionIsCausal | backtest.py:23-30 | cutting the frame and its deviations does not change the mean-reversion signal of the bars kept |
| Strategies.Breakout | backtest.py:32-38 | the breakout signal has one value per bar, each -1, 0 or 1 |
| Strategies.BreakoutRule | backtest.py:34-37 | long exactly when the close is above the highest high of the `lookback` bars before it; otherwise short exactly when it is below their lowest low; the first `lookback` bars, and every bar when lookback == 0, are flat |
| Strategies.BreakoutLevels | backtest.py:34-37 | on bars with low <= high the lagged lowest low is at most the lagged highest high; short is then exactly a close below it; a close equal to either level is flat |
| Strategies.BreakoutOfPrefixAt | backtest.py:32-38 | bar i of a truncated frame has the breakout signal it has in the whole frame |
| Strategies.BreakoutIsCausal | backtest.py:32-38 | cutting the frame does not change the breakout signal of the bars kept |
| Engine.Positions | backtest.py:43 | the position held into bar i is the signal of bar i-1; the first bar is flat |
| Engine.StrategyReturns | backtest.py:43 | there is one strategy return per bar, and the first bar earns 0 |
| Engine.StrategyReturnAt | backtest.py:43 | from bar 1 on, the strategy return is signal[i-1] times the bar's return: the return when long, 0 when flat, its negation when short |
| Engine.Equity | backtest.py:44 | equity starts at 1 + the first strategy return and then multiplies each bar's growth factor onto the bar before |
| Engine.EquityIsProduct | backtest.py:44 | equity at bar i is the product of the growth factors of bars 0..i |
| Engine.DrawdownAt | backtest.py:48 | each bar's drawdown is <= 0; it is 0 exactly at the running peak, so on the first bar; it is >= -1 for non-negative equity and > -1 for positive equity |
| Engine.MaxDrawdown | backtest.py:48 | the maximum drawdown is <= 0, is at most every bar's drawdown, and is reached on some bar |
| Engine.Backtest | backtest.py:40-50 | the returned columns are the returns, strategy returns and equity of the bars; equity starts at exactly 1; TotalReturn is final equity - 1; MaxDrawdown is the minimum drawdown and <= 0 |
| Engine.EquityRises | backtest.py:44 | positive equity rises on a bar whose strategy return is positive |
| Engine.StepwiseNonDecreasing | backtest.py:48 | a sequence that never falls from one element to the next never falls at all |
| Engine.PeakOfNonDecreasing | backtest.py:48 | the running peak of a non-decreasing equity curve is the current equity |
| Engine.DrawdownZeroIffNonDecreasing | backtest.py:48 | the maximum drawdown is 0 exactly when equity never falls |
| Engine.DrawdownAtLeastMinusOne | backtest.py:48 | while equity stays non-negative the maximum drawdown is at least -1 |
| Engine.EquityOfZeroReturns | backtest.py:44 | zero strategy returns through bar i leave equity at exactly 1 at bar i |
| Engine.FlatEarnsNothing | backtest.py:43 | an all-flat signal earns 0 on every bar |
| Engine.FlatSignal | backtest.py:40-50 | under an all-flat signal equity is 1 on every bar, TotalReturn is 0 and MaxDrawdown is 0 |
| Engine.EquityIsCausal | backtest.py:44 | equity up to bar i depends only on the strategy returns up to bar i |
| Engine.SameSignalSameReturn | backtest.py:43 | bar k earns the same under two signals that agree on bar k-1 |
| Engine.NoLookAhead | backtest.py:43-44 | two signals that agree before bar i give the same strategy returns and equity through bar i, so the signal of bar i never affects its own return |
| Engine.LastSignalIgnored | backtest.py:40-50 | the signal of the last bar never changes anything the backtest returns |
| Engine.EquityPositive | backtest.py:44 | equity stays positive while every growth factor so far is positive |
| Engine.LongOnlyGrowthPositive | backtest.py:43-44 | on positive prices a long or flat bar has a positive growth factor |
| Engine.LongOnlyEquityPositive | backtest.py:43-44 | on positive prices a long-or-flat signal (SMA and momentum are always such) keeps equity positive |
| Engine.LongOnlyDrawdownAboveMinusOne | backtest.py:48 | on positive prices a long-or-flat signal has a maximum drawdown above -1 |
| Scenarios.RisingMeans | backtest.py:13-15 | on strictly rising closes, once both windows are full, the fast mean is above the slow mean |
| Scenarios.RisingSma | backtest.py:11-16 | on strictly rising closes SMA(fast < slow) is flat before bar slow-1 and long from it on |
| Scenarios.RisingSmaReturns | backtest.py:43 | on strictly rising closes the SMA strategy earns 0 before bar slow and a positive return on every later bar |
| Scenarios.RisingSmaFlatStart | backtest.py:44 | on strictly rising closes the SMA equity is 1 through bar slow-1 |
| Scenarios.RisingSmaGrowth | backtest.py:44 | on strictly rising closes the SMA equity rises strictly on every bar from bar slow on |
| Scenarios.RisingSmaBacktest | backtest.py:40-50 | on strictly rising closes the SMA backtest has equity 1 up to bar slow-1, then strictly rising; MaxDrawdown is 0; TotalReturn is positive when a bar follows bar slow-1 |
| Scenarios.RisingFrameSma | backtest.py:11-16 | on that frame SMA(3, 5) is 0 on bars 0-3 and 1 from bar 4 on; equity rises strictly from bar 5 on; TotalReturn > 0 |

## Left out

- `load_data` and `main` (backtest.py:6-9, 52-80): CSV reading, argument parsing, strategy dispatch, file output and printing are I/O. The model takes the sorted frame as a `seq<Bar>` and the strategy's parameters as arguments. Dates only order the rows, so `Bar` has no date.
- CAGR (backtest.py:47) and Sharpe (backtest.py:49): they need a real power, a square root and a standard deviation of the strategy returns, none of which the model computes. `Engine.Metrics` holds TotalReturn and MaxDrawdown only.
- Columns.RollingStd: the square root is not computed. The sample standard deviation of each full window comes in as the parameter `dev`. `IsRollingStd` only requires it to be non-negative and to square to the sample variance computed by the model.
- Strategies.ZScore: the division by std + 1e-9 is exact real division. Float rounding is not modelled. The denominator is never 0, because the deviation is non-negative.
- Prices.RawReturns: closes must be positive (`PositiveCloses`). A zero previous close would make `pct_change` inf, or NaN for 0/0, and the model does not represent infinities. Negative closes, for which pandas computes finite returns, are excluded as well. The positivity is also what the long-only equity lemmas rest on.
- Engine.Backtest: requires at least one bar. On an empty frame the source's `equity.iloc[-1]` raises, and no metrics are returned.
- Strategies.Sma, Strategies.MeanReversion, Strategies.Breakout: window sizes are `nat`. pandas rejects a negative window with an error, and the model does not represent that error path. A window of 0 is modelled. Momentum accepts any integer lookback, as `shift` does.
- Default parameter values (10/20, 10, 5 and 1.0, 20): they are the generators' own default arguments (backtest.py:11, 18, 23, 32), and the command-line options repeat them (backtest.py:56-61). Dafny functions have no default arguments, so the model takes every parameter explicitly.
- Signals are exact integers rather than the int64/float columns pandas produces. `Engine.Positions` converts them to reals where the source multiplies them by returns.
- The frame copies (`df.copy()`) and the extra helper columns the generators write (`SMA_fast`, `hh`, `ret`, ...) are not modelled as frame columns. Each is a local value of the function that defines the signal.
