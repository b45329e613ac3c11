# Internal quality control engine of the IQC dashboard

This project models the statistical core of the laboratory Internal Quality
Control page `1_Internal_QC_monitoring.py`. It covers:

- preparing the control series, from the entered table (rows ticked
  "include") or an uploaded column with its missing values dropped;
- the Levey-Jennings centre line and its ±1, 2 and 3 SD bands, taken from
  the data (population mean and SD) or entered by hand;
- the six Westgard multi-rules 1-3s, 1-2s, 2-2s, R-4s, 4-1s and 10x, as the
  per-point violation columns the page adds to its results table. Missing
  cells and neighbours outside the series never satisfy a comparison. The
  one non-strict comparison in the 10x rule is kept;
- the EWMA chart: the smoothed series, the λ → L multiplier table, the
  per-index control limits and the "higher than UCL" / "lower than LCL"
  columns;
- the standardised tabular CUSUM, with k = 0.5, h = 5 and both sums forced
  to 0 at the first observation, plus its violation columns;
- the conventional sigma-metric `(TEa − bias)/CV` and the alternative
  `CVI/CV`, with their error messages, the OPSpecs chart's 2..6 sigma lines,
  and the normalised multi-test OPSpecs table;
- the half-up rounding used for the sigma-metrics and for the mean, SD and
  CV of the performance summary, and the CV of the control data,
  `sd·100/mean`, whose zero mean is reported as an error.

Each component is one module: `Wrappers`, `Series`, `Limits`, `Westgard`,
`Ewma`, `Cusum`, `Sigma` and `Display`.

Numbers are exact reals. Dafny has no square root, so the two places that
need one take it as an argument, checked by the predicate
`Series.IsSqrt(r, v)` (`r >= 0 && r*r == v`):

- the population SD supplied to `Limits.ComputeLimits`;
- the spreads `w_i = sqrt(LimitFactor(λ, i+1))` supplied to the EWMA limits.

The per-index loops of the source stay loops:

- the CUSUM loop fills two arrays;
- the EWMA limit loop appends to two sequences.

The CUSUM loop is proved against the recursive specification `Cusum.TabularAt`.
The EWMA limit loop is proved against the per-index closed forms
`Ewma.UpperLimit` and `Ewma.LowerLimit`. The properties are proved about
those functions.

## Model

| member | source | states |
|---|---|---|
| Series.IncludedValues | 1_Internal_QC_monitoring.py:144-145 | the entered-table series holds exactly the values of the rows ticked "include", and is no longer than the table |
| Series.IncludedValuesSingleton | 1_Internal_QC_monitoring.py:144-145 | one row gives its value, missing or not, when it is ticked, and nothing otherwise |
| Series.IncludedValuesAppend | 1_Internal_QC_monitoring.py:144-145 | filtering a table is filtering its two halves and joining the results, so the rows' order and repeats are kept |
| Series.DropMissing | 1_Internal_QC_monitoring.py:33-34 | dropping missing cells keeps exactly the present values and never lengthens the series |
| Series.DropMissingSingleton | 1_Internal_QC_monitoring.py:33-34 | one present cell gives its value, one missing cell gives nothing |
| Series.DropMissingAppend | 1_Internal_QC_monitoring.py:33-34 | dropping from a column is dropping from its two halves and joining the results, so the present values keep their order and repeats |
| Series.DropMissingLift | 1_Internal_QC_monitoring.py:33-34 | a series without missing cells is unchanged by dropping them |
| Series.DropMissingIdempotent | 1_Internal_QC_monitoring.py:33-34 | dropping missing cells a second time changes nothing |
| Series.SelectData | 1_Internal_QC_monitoring.py:137-145 | the entered table gives its included rows; the uploaded choice fails with "Data wasn't uploaded" exactly when nothing was uploaded, and otherwise gives the uploaded column's present values, in order, as cells |
| Series.Mean | 1_Internal_QC_monitoring.py:160-166 | the mean of a non-empty series lies between its least and greatest values |
| Series.PopVariance | 1_Internal_QC_monitoring.py:160-166 | the population variance is never negative, so its square root exists |
| Series.ConstantSeries | 1_Internal_QC_monitoring.py:160-166 | a constant series has that constant as mean and variance 0 |
| Limits.ComputeLimits | 1_Internal_QC_monitoring.py:147-175 | custom mode gives the bands of the entered mean and SD; data mode reports "no data" exactly when no value is present, and otherwise centres the bands on the mean of the present values (within their range) with the population SD as spread; every limit set is mean ± 1, 2, 3 SD |
| Limits.Bands | 1_Internal_QC_monitoring.py:170-175 | keeps the mean and SD, and each pair of bands lies k SD above and below the mean, k = 1, 2, 3 |
| Limits.BandsOrdered | 1_Internal_QC_monitoring.py:170-175 | with SD ≥ 0 the bands are ordered −3 ≤ −2 ≤ −1 ≤ mean ≤ +1 ≤ +2 ≤ +3 |
| Limits.ModeSwitchRoundTrip | 1_Internal_QC_monitoring.py:147-166 | entering the data-derived mean and SD as custom values gives back the same limit set |
| Westgard.Rule13sAt | 1_Internal_QC_monitoring.py:211 | a point flagged 1-3s lies in the series and is present; a missing cell or an index past either end is never flagged |
| Westgard.Rule12sAt | 1_Internal_QC_monitoring.py:218 | a point flagged 1-2s lies in the series and is present |
| Westgard.Rule22sAt | 1_Internal_QC_monitoring.py:226-229 | a point flagged 2-2s lies in the series and is present |
| Westgard.RuleR4sAt | 1_Internal_QC_monitoring.py:239-242 | a point flagged R-4s lies in the series and is present |
| Westgard.Rule41sAt | 1_Internal_QC_monitoring.py:251-258 | a point flagged 4-1s lies in the series and is present, since each of its eight windows contains it |
| Westgard.Rule10xAt | 1_Internal_QC_monitoring.py:268-308 | a point flagged 10x lies in the series and is present, since each of its twenty windows contains it |
| Westgard.Mask | 1_Internal_QC_monitoring.py:210-308 | a rule's column has one flag per point, set exactly when the rule's condition holds at that point |
| Westgard.Evaluate | 1_Internal_QC_monitoring.py:180-185 | columns are produced for the ticked rules and for no others |
| Westgard.OneThreeImpliesOneTwo | 1_Internal_QC_monitoring.py:210-218 | with SD ≥ 0 every 1-3s point is also a 1-2s point |
| Westgard.PairRulesNeedOneTwo | 1_Internal_QC_monitoring.py:224-242 | a 2-2s or R-4s point is itself beyond 2 SD |
| Westgard.TwoTwoSHasPartner | 1_Internal_QC_monitoring.py:226-229 | a 2-2s point has a neighbour in the series that is also flagged 2-2s |
| Westgard.RFourSHasPartner | 1_Internal_QC_monitoring.py:239-242 | an R-4s point has a neighbour in the series that is also flagged R-4s |
| Westgard.SinglePointNoPairRule | 1_Internal_QC_monitoring.py:226-242 | a one-point series is never flagged by 2-2s or R-4s, since shifted neighbours are missing |
| Westgard.RFourSExample | 1_Internal_QC_monitoring.py:239-242 | with mean 0 and SD 1 the series 2.5, −2.5 flags both points under R-4s |
| Westgard.FourOneSNeedsPoint | 1_Internal_QC_monitoring.py:251-258 | a 4-1s point is itself at or beyond +1 SD or −1 SD |
| Westgard.FourOneSAsRun | 1_Internal_QC_monitoring.py:251-258 | the eight written windows are exactly "some 4-point run containing the point is all ≥ +1 SD or all ≤ −1 SD" |
| Westgard.ShortSeriesNoFourOneS | 1_Internal_QC_monitoring.py:251-258 | a series of fewer than four points never triggers 4-1s |
| Westgard.ShortSeriesNoTenX | 1_Internal_QC_monitoring.py:268-308 | a series of fewer than ten points never triggers 10x |
| Westgard.AllAboveFlagsAll | 1_Internal_QC_monitoring.py:268-287 | in a series of ten or more points all above the mean, 10x flags every point |
| Westgard.AlternatingNoTenX | 1_Internal_QC_monitoring.py:268-308 | a series alternating strictly above and below the mean, starting on either side, flags no point under 10x |
| Westgard.TenXAgainstTextbook | 1_Internal_QC_monitoring.py:268-308 | the 10x column flags every point the textbook rule flags (a 10-point run strictly on one side of the mean), and beyond those only a point exactly at the mean that ends nine points above it |
| Westgard.TenXAcceptsPointAtMean | 1_Internal_QC_monitoring.py:268-269 | nine points above the mean followed by one exactly at the mean flags that last point: the `>=` at line 268 is observable |
| Westgard.ModeSwitchSameMasks | 1_Internal_QC_monitoring.py:147-175 | switching to custom limits equal to the data-derived ones leaves every rule's column unchanged |
| Ewma.Multiplier | 1_Internal_QC_monitoring.py:332-347 | a multiplier exists exactly for the eight slider values, and lies in [2.615, 3.090] |
| Ewma.MultiplierIncreasing | 1_Internal_QC_monitoring.py:332-347 | a larger weighting factor has a larger multiplier |
| Ewma.EwmaAt | 1_Internal_QC_monitoring.py:351 | the first smoothed value is the first observation, and with λ = 1 every smoothed value is its observation |
| Ewma.Smooth | 1_Internal_QC_monitoring.py:351 | the smoothed series has one value per observation, each the recurrence seeded with the first value |
| Ewma.EwmaWithinRange | 1_Internal_QC_monitoring.py:351 | for 0 < λ ≤ 1, every smoothed value lies between the least and greatest observations so far |
| Ewma.EwmaBounded | 1_Internal_QC_monitoring.py:351 | bounds that hold for the first i+1 observations hold for the smoothed value at i |
| Ewma.EwmaOfConstant | 1_Internal_QC_monitoring.py:351 | a constant series smooths to itself |
| Ewma.LambdaOneIsRaw | 1_Internal_QC_monitoring.py:351 | with λ = 1 the smoothed series is the raw series |
| Ewma.LambdaOneExample | 1_Internal_QC_monitoring.py:351 | a five-point instance of λ = 1 |
| Ewma.PowDecreasing | 1_Internal_QC_monitoring.py:361-362 | the powers of 1−λ stay in [0, 1] and never increase |
| Ewma.LimitFactor | 1_Internal_QC_monitoring.py:361-362 | the squared limit factor λ(1−(1−λ)^2i)/(2−λ) lies in [0, λ/(2−λ)], so its square root exists |
| Ewma.LimitFactorMonotone | 1_Internal_QC_monitoring.py:361-362 | the limit factor λ(1−(1−λ)^2i)/(2−λ) never decreases with i and stays below λ/(2−λ) |
| Ewma.LimitFactorFirst | 1_Internal_QC_monitoring.py:361-362 | at the first index the factor is λ² |
| Ewma.LimitFactorLambdaOne | 1_Internal_QC_monitoring.py:361-362 | with λ = 1 the factor is 1 at every index |
| Ewma.LimitsWiden | 1_Internal_QC_monitoring.py:356-365 | with L·sd ≥ 0 the limits widen, never narrow, from one index to the next |
| Ewma.ControlLimits | 1_Internal_QC_monitoring.py:356-365 | the loop yields one UCL and one LCL per index, mean ± L·sd·w_i, symmetric about the mean and widening when L·sd ≥ 0 |
| Ewma.AboveMask | 1_Internal_QC_monitoring.py:392 | the stored column flags exactly the indices with EWMA ≥ UCL |
| Ewma.BelowMask | 1_Internal_QC_monitoring.py:393 | the stored column flags exactly the indices with EWMA ≤ LCL |
| Ewma.EwmaChart | 1_Internal_QC_monitoring.py:328-393 | fails exactly for a weighting factor outside the table; otherwise gives the smoothed series, the per-index limits and the two stored columns |
| Ewma.LambdaOneIsShewhart | 1_Internal_QC_monitoring.py:346-392 | with λ = 1 a point is above its UCL exactly when it is at or beyond mean + 3.090·sd |
| Ewma.FirstPoint | 1_Internal_QC_monitoring.py:351-362 | the first smoothed value is the first observation, and its limits sit λ·L·sd from the mean |
| Cusum.Max0 | 1_Internal_QC_monitoring.py:466-467 | `max(0, v)` is non-negative, at least v, and either 0 or v |
| Cusum.TabularAt | 1_Internal_QC_monitoring.py:461-467 | the recurrence's sum is never negative and is 0 at the first observation |
| Cusum.ComputeCusum | 1_Internal_QC_monitoring.py:458-467 | the loop fills Cp and Cm so that every index holds the tabular recurrence over the increments z−k and −k−z |
| Cusum.ExceedsH | 1_Internal_QC_monitoring.py:473-474 | the stored column flags exactly the indices whose sum is ≥ h |
| Cusum.CusumChart | 1_Internal_QC_monitoring.py:453-474 | over the series with missing cells dropped, gives Cp, Cm and both columns, one entry per observation |
| Cusum.TabularIsMaxSuffixSum | 1_Internal_QC_monitoring.py:461-467 | closed form: each sum is the greatest of 0 and the sums of the increments over the runs ending at that index (not starting at the first observation) |
| Cusum.NonPositiveIncrementsStayZero | 1_Internal_QC_monitoring.py:461-467 | increments that are never positive keep the sum at 0 |
| Cusum.OnTargetStaysZero | 1_Internal_QC_monitoring.py:461-467 | a series exactly on the target mean with a positive SD accumulates nothing on either side |
| Cusum.SignalIffRunSum | 1_Internal_QC_monitoring.py:461-474 | a point is flagged exactly when some run ending there, not starting at the first observation, sums to h or more |
| Sigma.ConventionalSigma | 1_Internal_QC_monitoring.py:519-529 | a zero CV is reported first, then bias ≥ TEa; otherwise the sigma s satisfies s·CV = TEa − bias, and is positive for a positive CV |
| Sigma.AlternativeSigma | 1_Internal_QC_monitoring.py:532-537 | fails exactly for a zero CV; otherwise s·CV = CVI |
| Sigma.SigmaExamples | 1_Internal_QC_monitoring.py:519-537 | TEa 12, bias 2, CV 2 give sigma 5; CVI 12, CV 2 give 6 |
| Sigma.OpSpecsChart | 1_Internal_QC_monitoring.py:539-549 | no chart exactly when TEa = 0; otherwise the n-sigma line meets the x axis at TEa/n for n = 2..6, and the largest intercept and the largest allowable bias (`x_limit_max`, `y_limit_max`) are TEa/2 and TEa |
| Sigma.OpSpecsAgreesWithSigma | 1_Internal_QC_monitoring.py:539-563 | with positive TEa and CV, the test point lies on or below the n-sigma line exactly when its sigma is at least n |
| Sigma.Normalize | 1_Internal_QC_monitoring.py:622-624 | normalised bias and CV are 100·bias/TEa and 100·CV/TEa, absent for a zero TEa; the sigma s has s·CV = TEa − bias and is absent for a zero CV |
| Sigma.NormalizeTable | 1_Internal_QC_monitoring.py:622-624 | the table is normalised row by row |
| Sigma.NormalizedIntercepts | 1_Internal_QC_monitoring.py:626-632 | the normalised n-sigma line meets the x axis at 100/n |
| Sigma.NormalizedSigmaAgrees | 1_Internal_QC_monitoring.py:622-624 | the table's sigma equals the conventional sigma-metric wherever that is defined |
| Sigma.NormalizedChartAgrees | 1_Internal_QC_monitoring.py:622-640 | for positive TEa, a test lies on or below a normalised n-sigma line exactly when it does on its own OPSpecs chart |
| Display.HalfUp | 1_Internal_QC_monitoring.py:484 | `floor(y + 0.5)` is the whole number in (y − ½, y + ½] |
| Display.RoundToStep | 1_Internal_QC_monitoring.py:482-484 | the result is a whole number of 1/m steps within half a step of n, halves going up |
| Display.RoundHalfUp | 1_Internal_QC_monitoring.py:482-484 | the result is a whole number of 10^−d steps within half a step of n, halves going up |
| Display.NearestStepUnique | 1_Internal_QC_monitoring.py:482-484 | that property fixes the result: at most one value has it |
| Display.RoundHalfUpIdempotent | 1_Internal_QC_monitoring.py:482-484 | rounding a rounded value changes nothing |
| Display.RoundHalfUpExamples | 1_Internal_QC_monitoring.py:482-484 | 2.5 → 3, −2.5 → −2, and 1.005 to two decimals → 1.01 |
| Display.ShownToTwoDecimals | 1_Internal_QC_monitoring.py:524 | a displayed result keeps its error, or shows its value rounded half up to two decimals |
| Display.CvPercent | 1_Internal_QC_monitoring.py:491 | fails exactly for a zero mean; otherwise cv·mean = sd·100 |
| Display.PerformanceSummary | 1_Internal_QC_monitoring.py:486-495 | a zero mean shows the error and no table; otherwise mean, SD and CV are each shown rounded half up to two decimals |
| Display.TwoDecimalsWithinHalfCent | 1_Internal_QC_monitoring.py:489-491 | a value rounded to two decimals is within 0.005 of the original, half-cents going up |

## Left out

- The Streamlit page itself is not modelled. This covers widgets, tabs, markdown, template download and the error and info boxes. The model returns error values; the messages are not shown.
- Reading the uploaded Excel or CSV file and choosing its column is file I/O. The model receives the chosen column as a sequence of cells.
- The Plotly figures are not modelled. This covers the chart traces, the annotations and the axis ranges. The OPSpecs axes are padded to `1.2·x_limit_max` and `1.1·y_limit_max` (lines 573-574); that padding is not modelled, only `x_limit_max` and `y_limit_max` themselves (lines 541-543). The EWMA plot's markers, which use `>` and `<`, are also left out; the model keeps the stored columns' `>=` and `<=` (lines 392-393).
- The plotting function `plot_cusum` (lines 398-448) is not modelled. It repeats the CUSUM loop that the model takes from lines 453-474, and uses its result only for drawing.
- Square roots are arguments, constrained by `IsSqrt`. This covers the population SD and the EWMA spreads; the model does not compute them.
- The model works over exact reals. Floating-point rounding is not modelled, and neither are NaN or infinite values beyond missing cells. So `1.005` rounds to `1.01` here, whereas binary floating point may give `1.0`.
- Ewma.EwmaChart: takes a series without missing cells. pandas' `ewm` with missing values is not modelled, and neither is a NaN mean or SD.
- Cusum.ComputeCusum: requires a non-zero SD. With SD 0 the source divides by zero, and numpy yields infinite or NaN sums, which are outside exact reals.
- Cusum.CusumChart: requires a non-zero SD, for the same reason. The model gives the columns over the series with missing cells dropped. How pandas then aligns them with the results table's own index is not modelled.
- Display.CvPercent: reports a zero mean as an error, as the page intends with `except ZeroDivisionError`. That error is only raised when the mean is a plain Python float (custom mode). A numpy mean of 0 gives an infinite CV, or NaN when the SD is also 0. `math.floor` in `round_half_up` (line 484) then raises OverflowError or ValueError. Neither handler catches it: line 493 catches only ZeroDivisionError and line 495 only NameError. So the page stops with a traceback and shows no table. This crash is not modelled.
- Display.PerformanceSummary: the `math.isnan(mean)` guard at line 480 is not modelled, since NaN is outside exact reals.
- Sigma.Normalize: a division by zero in the table, which pandas turns into infinite or NaN, is modelled as an absent value. Rows with empty cells are not modelled.
- The normalised OPSpecs lines meet the x axis at `100/n`, as lines 628-632 compute.
- Limits.ComputeLimits: an empty series is modelled as the `NoData` error. The source does not fail there: `np.mean` and `np.std` of no values give NaN, so the bands are NaN, every rule column is false, and line 480 hides the summary.
- The sigma-metric column of the normalised table (line 662) and the custom mean and SD (line 154) are shown unrounded; the model does not round them either.
- Ewma.Multiplier: a weighting factor outside the table is reported as an error. In the source it leaves `L` undefined; the slider offers only the table's values.
- The `Custom` limits accept any entered SD, including a negative one, as the source does. The ordering lemmas state `sd >= 0` where they need it.
