# Indicator engine model

A Dafny model of `calculateIndicators` in `src/lib/indicators.ts`, the
technical-indicator engine of the stock dashboard, and proofs about it.

The engine takes the daily bars of a price series (`DataPoint`: date, open,
high, low, close, volume), oldest first. It writes derived fields onto each
bar object in place:

- Bollinger Bands from index 19 on: `MA20`, the mean of the last 20 closes;
  `STD20`, their standard deviation with divisor 20; and
  `Upper`/`Lower` = `MA20` ± 2·`STD20`.
- `Vol_MA20`, the mean of the last 20 volumes, and `Vol_Spike`, which is
  true when today's volume is more than twice that mean.
- Before index 19 the five numeric fields are null and `Vol_Spike` is
  `false`.
- A 14-period RSI with Wilder smoothing. It is null before index 14. At
  index 14 it is computed from the averages of the first 14 gains and
  losses. After that both averages are updated as `(13·avg + current)/14`.
  The value is 100 when the average loss is 0, and otherwise
  100 − 100/(1 + gain/loss).

The model has three modules:

- `Stats` (stats.dfy): the `getAverage` and `getStdDev` helpers as
  functions over exact reals.
- `Wilder` (wilder.dfy): the RSI seed sums and the Wilder recurrence as a
  recursive function `WilderState(closes, i)` giving the pair
  (avgGain, avgLoss) in force at index i. It also holds the RSI formula
  and the lemmas about them.
- `Indicators` (indicators.dfy): `DataPoint` as a class whose fields the
  engine updates. The engine is a method over `array<DataPoint>`, split
  into its three loops: the band loop, the seed loop and the RSI loop. The
  band and RSI loops have per-bar helper methods.
  - The bar-writing methods are proved against two specification
    functions, `ExpectedBands(closes, volumes, i, sqrt)` and
    `ExpectedRsi(closes, i)`, which give the fields bar i must carry. The
    seed loop is proved against the seed sums `GainSum`/`LossSum`, and the
    window statistics against `Average`/`StdDev`. The lemmas about them state
    what the engine promises: warm-up, band ordering, spike meaning, RSI
    range, and the scenarios of the engine's Jest tests.
  - The result of a non-empty call is a new array holding the caller's
    own bar objects, because `[...data]` is a shallow copy. So the
    postconditions speak about the caller's bars.
  - An empty input is returned as it is.

Behaviour modelled as written:

- `getStdDev` takes deviations from `Math.abs(mean)`, not from the mean.
  For a non-negative mean this is the population variance. For a
  negative mean it exceeds the population variance by exactly 4·mean²
  (`Stats.AbsMeanExcess`, `Stats.AbsMeanAgrees`). As a result, a window
  that is flat at a negative close gets a positive `STD20`
  (`Stats.AbsMeanDiverges`, `Stats.StdDevSign`). Prices are never
  negative, so this cannot show for real quotes.
- The seed loop stops at the last bar when there are fewer than 15, but
  the sums are still divided by 14. Such averages are never used: an RSI
  is written only from index 14 on. The RSI pass therefore requires the
  seeded averages to equal `WilderState(closes, 14)` only when there are
  more than 14 bars.
- `Math.sqrt` is a parameter `sqrt` of the engine. Lemmas that depend on
  its law assume `IsSqrt(sqrt)`: for x ≥ 0, `sqrt(x) ≥ 0` and
  `sqrt(x)² = x`.

## Model

| member | source | states |
|---|---|---|
| `Indicators.DataPoint.constructor` | src/lib/indicators.ts:1-15 | A new bar carries the given date and prices and none of the derived fields. |
| `Indicators.CalculateIndicators` | src/lib/indicators.ts:17-99 | Empty input returns the same array. Otherwise the result is a fresh array holding the same bar objects in the same order. Every bar keeps its date and prices. Every bar carries exactly the band, volume and RSI fields that `ExpectedBands`/`ExpectedRsi` give for the closes and volumes the series had before the call. |
| `Indicators.Annotate` | src/lib/indicators.ts:30-96 | The three loops run in sequence and leave every bar with the expected bands and RSI. Prices are untouched. |
| `Indicators.BollingerPass` | src/lib/indicators.ts:31-54 | After the band loop every bar carries `ExpectedBands` for its index. Prices and RSI are unchanged. |
| `Indicators.AnnotateBands` | src/lib/indicators.ts:32-53 | One pass of the band loop sets the six band and volume fields of bar i to `ExpectedBands(closes, volumes, i)`. It touches only bar i and not its prices or RSI. |
| `Indicators.WindowStats` | src/lib/indicators.ts:33-38 | The window statistics read from the bar objects are the mean and the as-written standard deviation of `closes[i-19..i]`, and the mean of `volumes[i-19..i]`. |
| `Indicators.WindowColumns` | src/lib/indicators.ts:33-34 | Slicing the bars and mapping to close (or volume) gives the 20-element window of that column. |
| `Indicators.SeedSums` | src/lib/indicators.ts:57-65 | The seed loop returns the summed gains and the summed losses, as positive amounts, of the first min(14, n-1) close-to-close changes. |
| `Indicators.RsiPass` | src/lib/indicators.ts:70-96 | After the RSI loop every bar carries `ExpectedRsi` for its index. Prices and bands are unchanged. The running averages follow `WilderState`. |
| `Indicators.AnnotateRsi` | src/lib/indicators.ts:71-95 | One pass of the RSI loop. Before index 14 it writes null and keeps the averages. At 14 it writes the RSI of the seeded averages. After 14 it first smooths the averages with the change at i, and they then equal `WilderState(closes, i)`. |
| `Indicators.BandsWarmUp` | src/lib/indicators.ts:46-53 | MA20, STD20, Upper, Lower and Vol_MA20 are null exactly before index 19. Vol_Spike is never null and is `false` before index 19. |
| `Indicators.BandsOrdered` | src/lib/indicators.ts:36-43 | From index 19 on: MA20 lies within any bounds of its window, STD20 ≥ 0, Upper and Lower are MA20 ± 2·STD20, and Lower ≤ MA20 ≤ Upper. The ordering is strict exactly when the window is not flat at a non-negative close. |
| `Indicators.SpikeMeaning` | src/lib/indicators.ts:38-45 | From index 19 on, Vol_MA20 is the mean of the last 20 volumes. Vol_Spike holds exactly when 9 × today's volume exceeds the sum of the previous 19 volumes. |
| `Indicators.RsiBounded` | src/lib/indicators.ts:70-95 | The RSI is null exactly before index 14, and otherwise lies in [0, 100]. |
| `Indicators.RisingSeriesRsi` | src/lib/__tests__/indicators.test.ts:31-46 | For closes that never fall, the RSI is 100 at index 14 and at every later index. |
| `Indicators.StepSeriesBands` | src/lib/__tests__/indicators.test.ts:9-29 | For closes 100, 101, 102, …, MA20 at index i is i + 90.5 (109.5 at index 19), and Upper > MA20 > Lower. |
| `Indicators.SpikeScenario` | src/lib/__tests__/indicators.test.ts:48-62 | With volumes of 1000 and a last bar of 10000 at index 24, Vol_Spike is false at index 23 and true at index 24. |
| `Stats.AverageWithin` | src/lib/indicators.ts:23 | The mean of a non-empty list lies within any bounds of its elements. |
| `Stats.SumBounds` | src/lib/indicators.ts:23 | The reduce-sum of n elements within [lo, hi] lies within [n·lo, n·hi]. |
| `Stats.SumOfConstant` | src/lib/indicators.ts:23 | The reduce-sum of n copies of c is n·c. |
| `Stats.SumOfRun` | src/lib/indicators.ts:23 | The reduce-sum of a run a, a+1, …, a+n-1 is n·a + n·(n-1)/2 (stated doubled: 2·sum = 2·n·a + n·(n-1)). |
| `Stats.SumSqDevNonNegative` | src/lib/indicators.ts:26 | The summed squared deviations inside `getStdDev` are never negative. |
| `Stats.SumSqDevOfEqual` | src/lib/indicators.ts:26 | Squared deviations of equal elements from their common value sum to 0. |
| `Stats.SumSqDevPositive` | src/lib/indicators.ts:26 | One element away from the centre makes the squared deviations positive. |
| `Stats.StdDevSign` | src/lib/indicators.ts:25-28 | Under a true square root, `getStdDev(w, getAverage(w))` is ≥ 0. It is 0 exactly when the window is flat at a non-negative value. |
| `Stats.SqrtSign` | src/lib/indicators.ts:27 | Under the assumed law of `Math.sqrt`, the root is 0 at 0 and positive above it. |
| `Stats.SumSqDevMirror` | src/lib/indicators.ts:26 | Measuring deviations from -c instead of c adds 4·c·sum. |
| `Stats.AbsMeanExcess` | src/lib/indicators.ts:26 | With a negative mean, the variance `getStdDev` computes from the absolute mean is the population variance plus 4·mean². |
| `Stats.AbsMeanAgrees` | src/lib/indicators.ts:26 | The as-written variance equals the population variance exactly when the mean is non-negative. |
| `Stats.AbsMeanDiverges` | src/lib/indicators.ts:26 | A window flat at a negative value has population variance 0, but the as-written variance is positive. |
| `Wilder.GainSum` | src/lib/indicators.ts:61-65 | The summed gains of the first k changes are never negative. |
| `Wilder.LossSum` | src/lib/indicators.ts:61-65 | The summed losses of the first k changes, as positive amounts, are never negative. |
| `Wilder.WilderState` | src/lib/indicators.ts:67-88 | The running (avgGain, avgLoss) at index i are the seed sums over 14 at index 14, then `(13·avg + gain or loss of the change at i)/14`. Both stay ≥ 0. |
| `Wilder.RsiRange` | src/lib/indicators.ts:76-94 | The RSI of non-negative averages lies in [0, 100]. It is 100 exactly when avgLoss = 0, and 0 exactly when avgGain = 0 < avgLoss. |
| `Wilder.NoLossSum` | src/lib/indicators.ts:61-65 | Closes that never fall give a zero seed loss. |
| `Wilder.RisingNeverLoses` | src/lib/indicators.ts:67-88 | Closes that never fall keep avgLoss at 0 from index 14 on. |
| `Wilder.RisingRsiIs100` | src/lib/indicators.ts:76-94 | Closes that never fall have RSI 100 at index 14 and at every later index. |
| `Wilder.FallingSums` | src/lib/indicators.ts:61-65 | Closes that fall at every step give a zero seed gain and a positive seed loss. |
| `Wilder.FallingNeverGains` | src/lib/indicators.ts:67-88 | Closes that fall at every step keep avgGain at 0 and avgLoss > 0 from index 14 on. |
| `Wilder.FallingRsiIs0` | src/lib/indicators.ts:76-94 | Closes that fall at every step have RSI 0 at index 14 and at every later index. |
| `Wilder.OrderMatters` | src/lib/indicators.ts:82-88 | The recurrence depends on bar order: a strictly rising series has RSI 100 at index 14, and the same closes reversed have RSI 0. |
| `Wilder.WilderCausal` | src/lib/indicators.ts:82-88 | The averages at index i depend only on the closes up to index i. |
| `Wilder.SumsCausal` | src/lib/indicators.ts:61-65 | The seed sums over the first k changes depend only on the closes up to index k. |

## Left out

- Numbers are exact reals, not IEEE-754 doubles. Rounding, NaN and
  Infinity are not modelled, so the Jest tests' `toBeCloseTo` becomes
  exact equality. `getAverage` of an empty list (NaN) never arises,
  because it is only applied to 20-element windows.
- `Math.sqrt` is a parameter of the engine rather than a definition.
  Properties of `STD20`'s sign assume `IsSqrt(sqrt)`.
- `undefined` and `null` are one value, `None`. A bar before the call has
  its optional fields unset. After the call every derived field is written.
- Indicators.CalculateIndicators: requires that no bar object occurs
  twice in the input array. With a repeated object, the later index's
  writes would overwrite the earlier one's, and the per-index
  postconditions would not hold.
- The stock route, the AI and DCF analysis routes, the Telegram route and
  `src/lib/telegram.ts`, `src/lib/auth.ts`, the React page and sidebar,
  and the browser tests are not part of this model. They are HTTP, network
  and UI code around the engine.
