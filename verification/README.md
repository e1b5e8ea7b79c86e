# Venus data analyzer — a Dafny model of the table generator

`VenusDataAnalyzer` simulates one Venus metric for every Earth year from
1960 to 2025. It does three things:

- it picks a profile (base value, cycle length, amplitude, trend mode) from a
  fixed catalogue, falling back to a generic profile for unknown names;
- it builds one row of fourteen channels per year;
- it overlays a fixed table of space-mission events on the finished table.

The interactive menu falls back to `temperature` on any invalid choice.

The model keeps the arithmetic of every channel exact, with floats written as
`real`. The channels modelled exactly are:

- Venus days elapsed;
- the solar-day phase, with Python's `%` on the constant 0.62 written out;
- the seven surface-condition eras;
- the hostility scale clamped at 100;
- the constant climate trend;
- the composite index;
- the prediction, which is the identity up to 2020;
- the centred three-year moving average;
- the event overlay.

Sines, cosines and normal draws are not computed. They enter as columns of
`Builder.Inputs`. Every fresh call of `_simulate_venus_cycle` gets a noise
column of its own, so the base column, the smoothed series, the index and
the prediction are built from independent draws, as `generate_venus_data` builds them.

Modules:

- `Config`: the profile catalogue, name resolution and the menu.
- `Calendar`: the year range.
- `Channels`: the per-year channels and the mode blend of the primary value.
- `Smoothing`: the moving average.
- `Rows`: the row record.
- `Events`: the overlay.
- `Builder`: table assembly and the properties of the finished table.

## Model

| member | source | states |
|---|---|---|
| Config.MetricOf | Venus.py:22-108 | The lookup finds the catalogue entry whose key is the name. `default`, and any name that is not a key, falls through to the generic entry, and these are the only names that do. |
| Config.Resolve | Venus.py:22-108 | Any known name yields exactly its catalogue profile. Every unknown name yields the generic profile: base 100, cycle 0.62, amplitude 20, trend `stable`. Every profile has a positive cycle length. |
| Config.Catalogue | Venus.py:24-103 | Every catalogue profile has a positive cycle length, amplitude and base value. |
| Config.SelectType | Venus.py:754-760 | The menu yields the listed type for a number from 1 to 9. Any other number, or input that is not a number, yields `temperature`. The result is always one of the nine listed types. |
| Config.SelectionNeverDefaults | Venus.py:739-760 | Whatever the user enters, the selected name resolves to a real catalogue entry, never the generic fallback. |
| Config.MenuDistinct | Venus.py:739-742 | The nine menu entries name nine different metrics. |
| Calendar.YearRange | Venus.py:115-118 | A range of consecutive years holds `hi - lo + 1` years from `lo` in steps of one. An inverted range is empty. |
| Calendar.Years | Venus.py:16-17 | The table covers 66 years, from 1960 to 2025, one per row, in increasing order. |
| Channels.VenusDayRemainder | Venus.py:244-252 | Python's `%` by 0.62 gives a remainder in [0, 0.62), and what it leaves is a whole number of Venus days. |
| Channels.VenusDay | Venus.py:149-159 | The count times 0.62 gives back the Earth years elapsed since 1960. 1960 is day zero. |
| Channels.VenusDayStrictlyIncreasing | Venus.py:149-159 | A later year has strictly more Venus days. |
| Channels.SolarDayPhase | Venus.py:244-252 | The phase lies in [0, 1) and is the fractional part of the Venus-day count. |
| Channels.SurfaceConditions | Venus.py:200-224 | The conditions are at least 0.9. They equal 0.9 exactly before 1970. They reach at most 1.2125 by 2025. |
| Channels.SurfaceStep | Venus.py:200-224 | Consecutive years never drop, and they strictly rise from 1969: each era starts at or above where the previous one ended. |
| Channels.SurfaceMonotone | Venus.py:200-224 | The conditions are non-decreasing over all years and strictly increasing from 1970. |
| Channels.Hostility | Venus.py:355-357 | The value never exceeds 100. It is non-negative for conditions of at least 0.9. It is below 100 exactly when the unclamped value is, and then it equals that value. |
| Channels.HostilityMonotone | Venus.py:349-359 | Worse conditions never lower the hostility. |
| Channels.HostilityLevel | Venus.py:349-359 | The yearly hostility lies in [0, 100] and is 0 before 1970. |
| Channels.HostilitySaturation | Venus.py:349-359 | The clamp at 100 is reached exactly from 2011 on. |
| Channels.HostilityLevelMonotone | Venus.py:349-359 | The yearly hostility never decreases. |
| Channels.VenusIndex | Venus.py:333-347 | The index is a weighted mean that lies between the least and the greatest of the primary value, twenty times the surface conditions and ten times the cloud level. |
| Channels.VenusIndexShift | Venus.py:340-343 | The index moves by 0.6 per unit of the primary value and rises with the surface and cloud channels. |
| Channels.FuturePrediction | Venus.py:361-380 | Up to 2020 the prediction is the value itself. Afterwards it departs from the value by the value times the relative forecast error. |
| Channels.PrimarySample | Venus.py:161-198 | A zero cycle length skips the blend: base plus noise. The `extreme` mode adds the full amplitude times the diurnal sine. |
| Channels.SwingWithin | Venus.py:184-193 | With the sine and cosine in [-1, 1], every mode swings at most one amplitude. The modes without a blend of their own swing at most a fifth of it. |
| Channels.PrimaryWithinAmplitude | Venus.py:161-198 | Without its noise, a primary value lies within one amplitude of the base value. |
| Channels.PrimarySampleShift | Venus.py:195-197 | The noise enters additively: shifting the draw shifts the sample by the same amount. |
| Smoothing.Min | Venus.py:306-307 | Vocabulary for the bound on `np.mean`: the least element is in the sequence and is below every element. The source computes no minimum itself. |
| Smoothing.Max | Venus.py:306-307 | Vocabulary for the bound on `np.mean`: the greatest element is in the sequence and is above every element. The source computes no maximum itself. |
| Smoothing.Window | Venus.py:302-305 | Every window holds its own index and stays inside the series. It is three wide inside, two wide at either end, and one wide for a single value. |
| Smoothing.WindowContents | Venus.py:302-306 | The window around an index is its neighbours and itself, and nothing past either end. |
| Smoothing.MeanOfShort | Venus.py:306-307 | The mean of one, two or three values is their sum divided by their count. |
| Smoothing.WindowMeanBetween | Venus.py:306-307 | The mean of a window lies between its least and its greatest value. |
| Smoothing.SmoothedAt | Venus.py:296-309 | Inside the series a smoothed value is the mean of three neighbours, at either end the mean of two, and for a single value the value itself. |
| Smoothing.SmoothedWithinWindow | Venus.py:302-307 | Each smoothed value lies between the least and the greatest value of its window. |
| Smoothing.Smooth | Venus.py:296-309 | The smoothed series has one value per input value, each the average of its window. |
| Smoothing.SmoothingDeterminesSeries | Venus.py:296-309 | For a length that does not leave remainder two when divided by three (66 leaves zero), two series have the same moving average exactly when they are equal. |
| Smoothing.SmoothingForgetsPairs | Venus.py:302-307 | For two values the moving average loses their difference: `[1, -1]` and `[0, 0]` smooth alike, so the length condition above is needed. |
| Smoothing.SmoothConstant | Venus.py:296-309 | A constant series is its own moving average. |
| Smoothing.SmoothSeries | Venus.py:302-307 | The loop that appends one window mean per index computes the moving average. |
| Events.EventAt | Venus.py:382-429 | Exactly the twelve mission years carry an event, and exactly 1970, 1975 and 1982 also scale the surface. Every level lies in [10, 80] and every factor in (1, 1.15]. |
| Events.ApplyEvent | Venus.py:382-429 | The overlay only touches surface conditions and hostility, and only in a mission year. There it sets the listed hostility and scales a landing year's surface by its factor. It keeps hostility within [0, 100]. |
| Events.EventTable | Venus.py:388-429 | The overlay of each mission year, written out with its literal hostility and factor. |
| Events.Overlay | Venus.py:382-429 | The table keeps its length and order. Each row passes through the event table once, rows outside mission years are unchanged, and the [0, 100] hostility range survives. |
| Events.ApplyEventTwice | Venus.py:396-414 | A second pass sets the same hostility but scales the surface again. A row is unchanged by it exactly when its year is not a landing year or its surface is zero. |
| Events.OverlayIdempotentIff | Venus.py:382-429 | A second overlay leaves the table unchanged exactly when every landing-year row has zero surface conditions, so the overlay is not idempotent. |
| Builder.PrimarySeriesWithinAmplitude | Venus.py:161-198 | With every sine and cosine in [-1, 1], each value of a call lies within one amplitude of the base value, apart from its own noise draw. |
| Builder.SeriesDeterminesDraws | Venus.py:161-198 | Two calls of the primary simulation give the same series exactly when they draw the same noise. |
| Builder.BuildRows | Venus.py:110-140 | Before the overlay, the `i`-th row is the year 1960 + `i`, with that year's surface conditions and its hostility level on the 0 to 100 scale. |
| Builder.RowPromiseHolds | Venus.py:110-147 | After the overlay, the `i`-th row holds year `1960 + i` and its exact Venus-day count. Its phase is that year's solar-day phase. Its trend is 1.0, and its base value is the base call's sample. Its surface is scaled only in a landing year: 1.05 in 1970, 1.155 in 1975, 1.2765 in 1982. Its hostility is the scale value or the mission's literal. Its prediction is the sample up to 2020 and the forecast of that sample afterwards. Its smoothed value is the moving average of the smoothing call and lies within its window. |
| Builder.RowSurface | Venus.py:200-224 | After the overlay, the surface of a year keeps its era value, except in the three landing years. There it takes the era value scaled by the landing factor, written out as 1.05, 1.155 and 1.2765. |
| Builder.GenerateVenusData | Venus.py:110-147 | The generated table has one row per year from 1960 to 2025, in order, and every row keeps the promise above. |
| Builder.BaseColumnIsBaseSeries | Venus.py:122 | The base column of the table is exactly the series of the base call of the primary simulation. |
| Builder.SmoothedFollowsBaseIffSameDraws | Venus.py:122-133 | The smoothed column is the moving average of the base column if and only if the smoothing call draws the same noise as the base call. |
| Builder.SaturatedRow | Venus.py:349-359 | A finished row of a year from 2011 on, with the hostility of its year or mission, has hostility 100. |
| Builder.LateYearsSaturate | Venus.py:349-429 | No mission falls after 2010, so every generated row from 2011 on has hostility 100. |
| Builder.LandingAboveNextYear | Venus.py:410-414 | A finished 1982 row has surface 1.2765, above the 1.115 of a finished 1983 row. |
| Builder.OverlayBreaksSurfaceOrder | Venus.py:410-414 | After the overlay, the 1982 surface (1.2765) exceeds the 1983 surface (1.115), so the surface column is no longer non-decreasing. |

## Left out

- Sines, cosines and normal draws: the trigonometric values and the random
  noise of every channel are inputs (`Builder.Inputs`), not computed. Their
  standard deviations are not modelled: 5% of the amplitude for a cycle
  sample, 1% for the no-cycle branch, and 1% per year after 2020 for the
  prediction.
- The Atmospheric_Effects, Cloud_Variations, Volcanic_Influence,
  Diurnal_Variation and Annual_Variation columns are sine-based and are
  taken as input columns. Only the composite index reads the cloud level.
- Python's float `%` for a general divisor: only the divisor 0.62 (Venus
  day) is written out, in `Channels.VenusDayRemainder`. The profile's own
  cycle phase feeds only a sine, which is an input.
- IEEE floating point: every quantity is an exact `real`, so rounding in
  the literals (for example 1.11 × 1.15) is not modelled.
- Plotting, the printed insights, the CSV export, reading the menu input
  from the console (`Config.Choice` stands for the parsed input), and the
  pandas `DataFrame` and `date_range` machinery (the table is a `seq<Row>`).
- Channels.PrimarySample: states only the zero-cycle and `extreme`
  branches exactly. The other modes are bounded by
  `Channels.SwingWithin` rather than written out.
- Channels.FuturePrediction: says nothing about the size of the forecast
  error, which depends on the distribution of the draw.
- Builder.RowPromiseHolds: the atmospheric, cloud, volcanic, diurnal,
  annual and index columns are copied from the inputs or combined by
  `Channels.VenusIndex`; the promise does not restate them.

## Notes on the source

- The primary simulation guards against a zero cycle length with
  `cycle_years == 0`, not `<= 0`. No catalogue entry has a non-positive
  cycle (`Config.Catalogue`), so the guard never fires for a listed profile.
- The hostility scale clamps at 100 only. It cannot go negative because the
  surface conditions never fall below 0.9 (`Channels.SurfaceConditions`).
- Nothing checks that the start year does not exceed the end year. An
  inverted range gives an empty table (`Calendar.YearRange`).
- The overlay multiplies the landing years' surface conditions in place. It
  is meant to run once and is not idempotent
  (`Events.OverlayIdempotentIff`).
- The smoothed column, the index and the prediction each call the primary
  simulation afresh, each with its own noise column in the model. The
  smoothed column is the moving average of the Base_Value column only if
  the two calls happen to draw the same noise
  (`Builder.SmoothedFollowsBaseIffSameDraws`).
