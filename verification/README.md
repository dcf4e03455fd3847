# Technical-indicator engine in Dafny

This project models the C indicator engine of a stock-analysis service (`c_engine/indicators.c`) and proves properties of it. The engine computes four indicators over a series of closing prices:

- the simple moving average (SMA);
- the exponential moving average (EMA), seeded with the first SMA value;
- the relative strength index (RSI), with Wilder smoothing;
- Bollinger Bands, built from the SMA and a rolling population standard deviation.

Each C routine first checks its arguments and then fills a result of fixed length with index-exact loops. The model keeps that shape. Every routine is a Dafny `method` whose loops follow the C loops. Its contract ties the result to a declarative reference definition: a mean of a slice, a seeded recurrence, or a Wilder-smoothed average. Lemmas then state what the results mean:

- values stay within their bounds;
- RSI stays in [0, 100];
- the bands are ordered and meet exactly on flat windows;
- the EMA is determined by its seed and recurrence.

Modelling conventions:

- `double` is modelled as `real`, so there is no rounding. `int` is modelled as `int`.
- The price array and its `length` argument become one `seq<real>`, with `length == |prices|`.
- A `NULL` or `EXIT_FAILURE` return becomes `Err(InvalidInput)` when a guard rejected the arguments. It becomes `Err(DependencyFailure)` when an internal call to another indicator failed.
- The C library's `sqrt` is a parameter `sqrt: real -> real`. The routines work for any such function. The lemmas that need a real square root assume `IsSquareRoot(sqrt)`: the result is non-negative on non-negative inputs, and zero exactly at zero.
- `BollingerBands` is a record of three sequences and their shared length. Each sequence is held independently, so the C code's aliasing of the middle band with the SMA buffer does not arise.

Modules:

| file | module | contents |
|---|---|---|
| outcomes.dfy | `Outcomes` | `Result` and the two failure kinds |
| series.dfy | `Series` | sum, mean, population variance and their lemmas |
| sma.dfy | `Sma` | `compute_SMA` and the 1..30 scenario of the C test |
| ema.dfy | `Ema` | `compute_EMA` |
| rsi.dfy | `Rsi` | `compute_RSI` |
| bollinger.dfy | `Bollinger` | `compute_std_devs`, `BollingerBands`, `compute_bollinger_bands` |

Points where the code was followed rather than its comments or its callers:

- `compute_EMA` calls `get_SMA` at line 125, but no such function exists. The model calls `compute_SMA` in its place.
  - With that reading, the EMA guard (lines 113-120) rejects a zero window but lets a negative window through.
  - The SMA call then fails, because `compute_SMA` rejects `window <= 0`. So a negative window still yields `NULL`, through the dependency path. `Ema.ComputeEma` states this outcome as `Err(DependencyFailure)`.
  - The C code computes the multiplier `2/(window+1)` (line 123) before the SMA call. For a window of -1 that is a floating-point division by zero, which gives an infinity, not a trap. The value is never used because the SMA call fails. The model computes the multiplier only after the SMA call succeeds, and the outcome is the same.
- `compute_std_devs` accepts `window == length`, but `compute_SMA` does not (a strict `<`). The model keeps this asymmetry.
- `compute_bollinger_bands` ignores the status that `compute_std_devs` returns (line 397). After the Bollinger guard that call always succeeds, and `Bollinger.ComputeBollingerBands` relies on this.
- The Bollinger doc comment (line 352) says the bands cover `prices[window]` to `prices[length - 1]`. In fact band value i summarises `prices[i..i + window)`. So the bands end at input indices `window - 1` to `length - 1`, one per SMA value.

## Model

| member | source | states |
|---|---|---|
| Sma.ComputeSma | c_engine/indicators.c:52-83 | Succeeds exactly when 0 < window < length; every failure is InvalidInput. On success returns length - window + 1 values, value i being the mean of prices[i..i+window) |
| Sma.WindowSum | c_engine/indicators.c:75-79 | The inner loop yields the sum of the window's prices |
| Sma.SmaWithinWindowRange | c_engine/indicators.c:73-81 | Each SMA value lies between any lower and upper bound of the prices in its window |
| Sma.SmaOfRamp | c_engine/indicators.c:73-81 | On prices a, a+1, a+2, ... value i is the middle of its window, a + i + (window-1)/2 |
| Sma.RampScenario | tests/test_indicators.c:7-19 | Prices 1..30 with window 5 give 26 values; value i is i + 3, so the first is 3 and the last 28 |
| Ema.Alpha | c_engine/indicators.c:123 | The multiplier 2/(window+1) is a weight in (0, 1], and 1 for a window of 1 |
| Ema.ComputeEma | c_engine/indicators.c:110-151 | Succeeds exactly when 0 < window < length. An empty series, a zero window or a window not below length is InvalidInput; a negative window is DependencyFailure. On success it returns length - window + 1 values: value 0 is the first SMA value, and each later value follows the recurrence with the price at i + window - 1 |
| Ema.EmaStepBetween | c_engine/indicators.c:146-147 | One recurrence step lands between the previous average and the new price |
| Ema.EmaWithinPriceRangeAt | c_engine/indicators.c:143-148 | If every price lies in [lo, hi], then EMA value i lies in [lo, hi] |
| Ema.EmaWithinPriceRange | c_engine/indicators.c:143-148 | An EMA never leaves any range that contains all prices |
| Ema.EmaOfFlatSeries | c_engine/indicators.c:143-148 | A constant price series has a constant EMA at the same level |
| Ema.EmaAgreeUpTo | c_engine/indicators.c:143-148 | Two series with the EMA seed and recurrence agree on every prefix |
| Ema.EmaDetermined | c_engine/indicators.c:143-148 | The seed and the recurrence determine the EMA series uniquely |
| Rsi.Split | c_engine/indicators.c:208-226 | Each change splits into a gain >= 0 and a loss >= 0; at most one is nonzero, and gain - loss is the change |
| Rsi.WilderStep | c_engine/indicators.c:254-256 | A Wilder update of a non-negative average with a non-negative observation stays non-negative |
| Rsi.Smoothed | c_engine/indicators.c:229-256 | The seed average and every later Wilder-smoothed average of gains or losses are non-negative |
| Rsi.RsiOf | c_engine/indicators.c:236-244 | RSI lies in [0, 100]; it is exactly 100 if and only if the average loss is zero, whatever the average gain |
| Rsi.ComputeRsi | c_engine/indicators.c:171-273 | Succeeds exactly when 0 < window < length; every failure is InvalidInput. On success returns length - window values, value j being the RSI after window + j changes; all lie in [0, 100] |
| Rsi.ComputeChanges | c_engine/indicators.c:200-203 | The first loop yields the length - 1 one-step changes, changes[i] = prices[i+1] - prices[i] |
| Rsi.SeedSums | c_engine/indicators.c:206-227 | The seed loop yields the sums of the gains and of the losses among the first window changes |
| Rsi.SmoothedRsi | c_engine/indicators.c:233-267 | Slot 0 and slots i - window + 1 for i in [window, length - 1) cover all length - window slots; each holds the RSI of the matching smoothed averages |
| Rsi.SmoothedOfZeros | c_engine/indicators.c:249-256 | An average that has absorbed only zero observations is zero |
| Rsi.ZerosOfSmoothed | c_engine/indicators.c:249-256 | If the average is zero at every step up to n, every observation absorbed by step n was zero |
| Rsi.AllHundredIffNeverFalls | c_engine/indicators.c:236-266 | Every RSI value equals 100 if and only if the prices never fall |
| Bollinger.ComputeStdDevs | c_engine/indicators.c:297-317 | Succeeds exactly when 0 < window <= length (looser than the SMA); every failure is InvalidInput. On success, value i is sqrt of the population variance of prices[i..i+window) around means[i], for length - window + 1 values |
| Bollinger.SquaredDeviationSum | c_engine/indicators.c:307-312 | The inner loop yields the sum of squared differences between the window's prices and the mean |
| Bollinger.StdDevsNonNegative | c_engine/indicators.c:313-314 | With a real square root, every standard deviation is non-negative |
| Bollinger.ComputeBollingerBands | c_engine/indicators.c:358-407 | Succeeds exactly when 0 < window < length and k > 0; every failure is InvalidInput. On success all three bands have length - window + 1 values: middle is the SMA, top is middle + k*sd and bottom is middle - k*sd |
| Bollinger.OffsetBands | c_engine/indicators.c:399-403 | The final loop yields a top and a bottom band k standard deviations above and below the middle, slot by slot |
| Bollinger.BandsOrdered | c_engine/indicators.c:399-403 | For k >= 0 and a real square root, bottom[i] <= middle[i] <= top[i] in every slot |
| Bollinger.BandsMeetIffFlatWindow | c_engine/indicators.c:397-403 | For k > 0 the three bands coincide in slot i if and only if all prices in that slot's window are equal |
| Series.MeanBounds | c_engine/indicators.c:80 | A window's mean lies between any lower and upper bound of its elements |
| Series.VarianceNonNegative | c_engine/indicators.c:313 | The population variance is non-negative |
| Series.FlatIffZeroVariance | c_engine/indicators.c:305-314 | The population variance of a window around its own mean is zero if and only if the window is flat |

## Left out

- MACD and On-Balance Volume: the C file has only empty section headers for them (lines 409 and 411). No code exists to model.
- `cleanup_bands`, `malloc`/`free` and allocation failure are not modelled. Results are immutable values, so there is nothing to release.
- The `exit(EXIT_FAILURE)` in `compute_RSI` (line 197) is not modelled, because allocation failure is not a modelled outcome.
- The `stderr` messages are output only and are not modelled.
- The `NULL` pointer checks on `prices`, `means` and `std_devs` are not modelled. A sequence is always present, and its length replaces the `length` argument.
- The gains and losses scratch arrays of `compute_RSI` are written but never read again, so the model only accumulates their sums.
- IEEE-754 rounding, infinities and NaN are not modelled. Arithmetic is exact over `real`, so the zero tests on the average loss are exact.
- 32-bit `int` overflow of `length`, `window` and `length - window + 1` is not modelled. Integers are unbounded.
- `sqrt` is not implemented. It is a parameter, and the lemmas that need it assume only the square-root laws stated by `IsSquareRoot`.
- Bollinger.ComputeBollingerBands: band ordering and band coincidence are proved as lemmas about the reference bands (`BandsOrdered`, `BandsMeetIffFlatWindow`), not as postconditions of the routine. The routine works for any `sqrt`, and those facts hold only for a real square root.
