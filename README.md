# Drought scoring and decision rules of Mix-Intelligence, in Dafny

Mix-Intelligence is a drought early-warning platform. This project models its scoring
and rule core, as it stands in six TypeScript files, and proves properties of that model.

- `lib/drought-analysis.ts` turns a weather reading into an anomaly score and a lowercase
  severity. It fits a least-squares trend through up to 30 stored scores and projects
  a day-by-day forecast from it.
- `lib/services/drought-indicators.ts` computes SPI, SPEI and VCI, with their category tables.
- `lib/services/data-processor.ts` repairs weather records and averages hourly temperatures.
- `lib/services/prediction-engine.ts` produces the simulated four-week LSTM series and the
  fixed seasonal XGBoost prediction, behind a history-length gate.
- `lib/services/decision-support.ts` turns the latest prediction into up to three
  recommendations.
- `lib/services/alerting-system.ts` decides whether the latest metrics raise a CRITICAL
  water-shortage alert or a HIGH crop-failure alert.

Files:

- `wrappers.dfy`: `Option`, which stands for JavaScript `null` or `undefined`.
- `numerics.dfy`: `Math.round`, `Number.toFixed`, left-fold sums and means, with the
  rounding and bounding lemmas the rest uses.
- `drought_analysis.dfy`, `drought_indicators.dfy`, `data_processor.dfy`,
  `prediction_engine.dfy`, `decision_support.dfy`, `alerting_system.dfy`: one module per
  source file.
- `scale_relations.dfy`: how the severity scales of the different files fit together.

Modelling conventions:

- Numbers are Dafny `real`s, so arithmetic is exact.
- `Math.sqrt` is a parameter `sqrt`. Lemmas that need it to be a square root require
  `IsSqrt(sqrt)`.
- The text form of a number in a message template is a parameter `show`.
- Dates are whole-day offsets from today. `Date.now()` is a parameter `now`.
- Database rows are passed in as values. A query that returns nothing is `None`, and so is
  a SQL `NULL` column.
- The loops of `calculateTrend`, `predictDrought` and `runShortTermModel` are `while`
  loops in methods. Each method is proved equal to a function, and the properties are
  proved about that function.
  - The loop of `calculateTrend` is in `AccumulateWindowSums`, which `CalculateTrend` calls.
- `cleanWeather` and `generateRecommendations` build their results step by step. They are
  methods whose steps mirror the source.

## Model

| member | source | states |
|---|---|---|
| DroughtAnalysis.SeverityLevel | lib/drought-analysis.ts:35-43 | each of the five levels holds exactly on its half-open band of the anomaly score (above 0.5, (0.2, 0.5], (−0.2, 0.2], (−0.5, −0.2], at most −0.5) |
| DroughtAnalysis.SeverityBoundaries | lib/drought-analysis.ts:38-42 | the comparisons are strict, so each boundary score falls into the more severe band |
| DroughtAnalysis.SeverityMonotone | lib/drought-analysis.ts:38-42 | a higher anomaly score never gives a more severe level |
| DroughtAnalysis.CalculateDroughtIndex | lib/drought-analysis.ts:14-33 | the level is the severity of the score; confidence is min(100, 100·\|score\|) and lies in [0, 100]; up to 50 mm of rain the score is −0.3 − (T − 20)/100, and from 50 mm it is (P − T − 60)/100 |
| DroughtAnalysis.DroughtIndexIgnoresHumidityAndEvapotranspiration | lib/drought-analysis.ts:21-31 | humidity and evapotranspiration never affect the result (the moisture deficit is computed and then unused) |
| DroughtAnalysis.DroughtIndexMonotone | lib/drought-analysis.ts:22-26 | more rain or less heat never lowers the score or worsens the level |
| DroughtAnalysis.DroughtIndexExample | lib/drought-analysis.ts:21-31 | 100 mm at 20 °C scores exactly 0.2, which is 'moderate' with confidence 20 |
| DroughtAnalysis.CalculateTrend | lib/drought-analysis.ts:101-122 | the returned slope equals the trend function: 0 below two records, else the least-squares slope over the window |
| DroughtAnalysis.AccumulateWindowSums | lib/drought-analysis.ts:104-116 | the loop ends holding Σxy, Σx, Σy and Σx² over the window, with x the record index |
| DroughtAnalysis.WindowSumsStep | lib/drought-analysis.ts:112-114 | one loop iteration adds x·y to Σxy and y to Σy |
| DroughtAnalysis.SumXClosedForm | lib/drought-analysis.ts:113-115 | Σx = n(n−1)/2 and Σx² = (n−1)n(2n−1)/6 |
| DroughtAnalysis.SlopeDenominatorPositive | lib/drought-analysis.ts:118-121 | for n ≥ 2 the denominator n·Σx² − (Σx)² is positive, so the NaN guard never fires |
| DroughtAnalysis.LinearSums | lib/drought-analysis.ts:109-116 | for scores on a line a + b·x the sums have closed forms in a, b, Σx and Σx² |
| DroughtAnalysis.SlopeFromLineSums | lib/drought-analysis.ts:118-119 | the slope formula applied to the sums of a line gives back b |
| DroughtAnalysis.SlopeOfLine | lib/drought-analysis.ts:109-121 | a least-squares fit of scores a + b·x has slope exactly b |
| DroughtAnalysis.TrendOfShortHistory | lib/drought-analysis.ts:102 | fewer than two records give trend 0 |
| DroughtAnalysis.TrendIgnoresOlderRecords | lib/drought-analysis.ts:109 | records at index 30 and beyond never change the trend |
| DroughtAnalysis.TrendMissingScoreIsZero | lib/drought-analysis.ts:111 | a record without an anomaly score counts as a score of 0 |
| DroughtAnalysis.TrendOfLinearScores | lib/drought-analysis.ts:101-122 | records whose scores rise by b per index have trend b; constant scores have trend 0 |
| DroughtAnalysis.TrendUsed | lib/drought-analysis.ts:81 | with fewer than ten records the forecast uses the fixed trend −0.01 |
| DroughtAnalysis.ForecastProbability | lib/drought-analysis.ts:86-94 | the rounded probability is a whole percentage in [60, 100] |
| DroughtAnalysis.ForecastAt | lib/drought-analysis.ts:84-95 | the entry for day d carries offset d and a probability in [60, 100] |
| DroughtAnalysis.PredictDrought | lib/drought-analysis.ts:71-98 | an empty history gives no forecast; otherwise one entry for each day 1..days (none for days ≤ 0), in strictly increasing day order, entry k being the projection of the newest score along the trend used for day k + 1 |
| DroughtAnalysis.ForecastNeverEasesOnNonPositiveSlope | lib/drought-analysis.ts:84-85 | when the trend used is ≤ 0 (the −0.01 fallback included), the forecast severity never eases from one day to a later one; the slope is fitted against the record index, index 0 being the newest record |
| DroughtAnalysis.ImprovingHistoryForecastFalls | lib/drought-analysis.ts:81-122 | ten or more records whose scores improve by b > 0 per record towards the newest one get trend −b, so the projected score falls from each day to a later one: an improving history is forecast to worsen |
| DroughtAnalysis.ProjectionFalls | lib/drought-analysis.ts:84 | along a negative trend the projected score of a later day is strictly lower |
| DroughtAnalysis.ForecastExample | lib/drought-analysis.ts:78-95 | one record at −0.3 uses the fallback trend and forecasts day 1 as 'severe' at 66 % |
| DroughtIndicators.SpiCategory | lib/services/drought-indicators.ts:86-94 | each of the seven categories holds exactly on its band: inclusive upper bounds on the dry side, exclusive on the wet side |
| DroughtIndicators.SpiCategoryBoundaries | lib/services/drought-indicators.ts:87-92 | −2.0 is 'Extremely Dry', −1.0 is 'Moderately Dry', 1.0 is 'Moderately Wet' and 2.0 is 'Extremely Wet' |
| DroughtIndicators.SpiCategoryMonotone | lib/services/drought-indicators.ts:86-94 | a larger index never falls into a drier category |
| DroughtIndicators.CalculateSPI | lib/services/drought-indicators.ts:20-38 | fewer than three readings give the fixed 'Insufficient data' result; otherwise the category is taken from the unrounded z-score of the newest reading, and the value is that z-score rounded to whole hundredths: within half a hundredth, a tie going to the larger magnitude |
| DroughtIndicators.CalculateSPEI | lib/services/drought-indicators.ts:44-63 | mismatched lengths or fewer than three readings give the fixed 'Insufficient data' result; otherwise the category is the SPI category of the unrounded z-score of the newest water balance, and the value is that z-score rounded to whole hundredths, a tie going to the larger magnitude |
| DroughtIndicators.SpeiIsSpiOfWaterBalance | lib/services/drought-indicators.ts:49-60 | SPEI has the value and category of SPI over precipitation − PET |
| DroughtIndicators.SquaredDeviationSigns | lib/services/drought-indicators.ts:27 | every squared deviation is non-negative, and every one whose reading is off the mean is positive |
| DroughtIndicators.DeviationSumPositive | lib/services/drought-indicators.ts:26-28 | a newest reading off the mean makes the variance sum positive |
| DroughtIndicators.SqrtOfPositive | lib/services/drought-indicators.ts:26-28 | a positive variance has a positive standard deviation |
| DroughtIndicators.ZScoreSign | lib/services/drought-indicators.ts:30-31 | the z-score is positive exactly when the newest reading is above the mean, and negative exactly when it is below |
| DroughtIndicators.ZScoreOfConstant | lib/services/drought-indicators.ts:30-31 | a series of equal readings has z-score 0 whatever sqrt returns, since the newest reading equals the mean |
| DroughtIndicators.StdDevOfConstant | lib/services/drought-indicators.ts:26-28 | with a true square root, a series of equal readings has standard deviation 0, so the stdDev === 0 branch is the one taken |
| DroughtIndicators.SpiOfConstantSeries | lib/services/drought-indicators.ts:20-38 | three or more equal readings give SPI 0, 'Near Normal' |
| DroughtIndicators.SpeiOfConstantBalance | lib/services/drought-indicators.ts:44-63 | a constant water balance gives SPEI 0, 'Near Normal' |
| DroughtIndicators.SpiSignFollowsNewestReading | lib/services/drought-indicators.ts:25-35 | below the mean the rounded SPI is ≤ 0 and above it ≥ 0; at the mean the category is 'Near Normal'; a dry category implies below the mean and a wet one above |
| DroughtIndicators.SpiCategoryUsesUnroundedValue | lib/services/drought-indicators.ts:34-35 | the category comes from the unrounded value: −0.999 is shown as −1.00 yet is 'Near Normal', while −1.00 itself would be 'Moderately Dry' |
| DroughtIndicators.SpiExample | lib/services/drought-indicators.ts:20-38 | the readings 10, 20, 30, 40, 50 give 'Moderately Wet' (z = 20/√200 ≈ 1.41) |
| DroughtIndicators.VciCategory | lib/services/drought-indicators.ts:74-77 | each VCI category holds exactly on its band: below 20, [20, 40), [40, 60), from 60 |
| DroughtIndicators.VciCategoryMonotone | lib/services/drought-indicators.ts:74-77 | a higher VCI never gets a more severe category |
| DroughtIndicators.CalculateVCI | lib/services/drought-indicators.ts:69-84 | an empty NDVI range gives 50, 'Normal', 'N/A'; otherwise the category is taken from the unrounded percentage and the value is it rounded to whole tenths, a tie going to the larger magnitude |
| DroughtIndicators.VciAtRangeEnds | lib/services/drought-indicators.ts:69-84 | NDVI at the historical minimum gives 0, 'Extreme Drought'; at the maximum it gives 100, 'Normal' |
| DroughtIndicators.VciWithinRange | lib/services/drought-indicators.ts:72-80 | inside the historical range VCI lies in [0, 100], and greener NDVI never gets a more severe category |
| DataProcessor.CleanWeather | lib/services/data-processor.ts:16-54 | the result is always valid. Its record is the repaired record, which is clean, and its other fields are copied. Its issues are the messages of the repairs made, in check order |
| DataProcessor.MessagesAppend | lib/services/data-processor.ts:25-47 | logging one more repair appends exactly its message |
| DataProcessor.CleanedIsClean | lib/services/data-processor.ts:25-47 | after cleaning, temperature is absent or within [−50, 60], humidity within [0, 100], wind speed not negative, and precipitation present |
| DataProcessor.RepairsMatchChanges | lib/services/data-processor.ts:25-47 | a field changes exactly when its issue is logged; the other fields are never touched |
| DataProcessor.RepairsOrdered | lib/services/data-processor.ts:25-47 | at most four issues, in the order temperature, humidity, wind speed, precipitation |
| DataProcessor.CleanRecordUnchanged | lib/services/data-processor.ts:25-47 | a clean record is returned unchanged and no issue is logged |
| DataProcessor.CleanIdempotent | lib/services/data-processor.ts:16-54 | cleaning a cleaned record logs nothing and changes nothing |
| DataProcessor.HumidityRepair | lib/services/data-processor.ts:31-34 | humidity below 0 becomes 0, humidity above 100 becomes 100, in-range humidity is kept |
| DataProcessor.TemperatureRepair | lib/services/data-processor.ts:25-28 | a temperature becomes null exactly when it is above 60 or below −50 |
| DataProcessor.PrecipitationRepair | lib/services/data-processor.ts:44-47 | missing precipitation becomes 0 and logs its issue; a present value, 0 included, is kept without one |
| DataProcessor.AggregateDaily | lib/services/data-processor.ts:60-71 | null exactly for a null or empty list; otherwise the sample count is the list length and average × count is the temperature sum |
| DataProcessor.AggregateDailyBounds | lib/services/data-processor.ts:64-65 | if every hourly temperature lies in [lo, hi], the daily average does too |
| DataProcessor.AggregateDailyConstant | lib/services/data-processor.ts:64-65 | a day of equal temperatures averages to that temperature |
| DataProcessor.MissingTemperatureCountsAsZero | lib/services/data-processor.ts:64 | a missing hourly temperature counts exactly as a reading of 0 |
| PredictionEngine.MapSeverity | lib/services/prediction-engine.ts:98-104 | each of the five levels holds exactly on its band: below −2, [−2, −1.5), [−1.5, −1), [−1, 0), from 0 |
| PredictionEngine.MapSeverityBoundaries | lib/services/prediction-engine.ts:99-103 | the comparisons are strict, so each boundary value falls into the milder level |
| PredictionEngine.MapSeverityMonotone | lib/services/prediction-engine.ts:98-104 | a wetter SPI never maps to a more severe level |
| PredictionEngine.RunShortTermModel | lib/services/prediction-engine.ts:53-75 | the loop produces the four-week series for the newest row's SPI, with a missing SPI read as 0 |
| PredictionEngine.ShortTermWindowsContiguous | lib/services/prediction-engine.ts:58-66 | week i covers days 7i to 7i + 7, so the four windows cover days 7 to 35 without gaps |
| PredictionEngine.ShortTermProbabilityAndConfidence | lib/services/prediction-engine.ts:67-69 | every week has probability 45 + 10·\|SPI\|; confidence falls strictly each week and stays in [0.7, 0.87] |
| PredictionEngine.ShortTermSeverityNeverImproves | lib/services/prediction-engine.ts:68 | the severity never eases from one week to the next |
| PredictionEngine.ShortTermProbabilityUncapped | lib/services/prediction-engine.ts:67 | the probability is not capped: an SPI of −6 gives 105 % |
| PredictionEngine.MissingSpiCountsAsZero | lib/services/prediction-engine.ts:55 | a newest row without spi_3month gives 45 % and 'Mild' in every week |
| PredictionEngine.RunSeasonalModel | lib/services/prediction-engine.ts:77-96 | one prediction: forecast day 0, 65 %, 'Severe', confidence 0.75, the XGBoost model, valid for 90 days starting at the season start |
| PredictionEngine.GenerateAdvancedPredictions | lib/services/prediction-engine.ts:21-40 | fewer than ten history rows give nothing; otherwise the four short-term predictions, then the seasonal one. Every prediction carries the region, and exactly the first four come from the LSTM model |
| DecisionSupport.GenerateRecommendations | lib/services/decision-support.ts:17-71 | no row gives no recommendations. Otherwise the types are the ones the three rules select, in rule order, and each recommendation is its type's template for the row and region |
| DecisionSupport.IrrigationExactlyWhenDire | lib/services/decision-support.ts:32 | water rationing is advised exactly for 'Extreme' and 'Severe' |
| DecisionSupport.CropAdviceExactlyWhenNotNormal | lib/services/decision-support.ts:45 | a planting advisory is given exactly when the severity is not 'Normal' |
| DecisionSupport.LivestockExactlyWhenLikelyAndDire | lib/services/decision-support.ts:58 | livestock relocation is advised exactly above 70 % for 'Extreme' or 'Severe', and then always together with rationing |
| DecisionSupport.AdvisedKindsOrdered | lib/services/decision-support.ts:31-68 | at most three recommendations, no type twice, in the order irrigation, crop, livestock |
| DecisionSupport.AdvisedKindsExtremes | lib/services/decision-support.ts:31-68 | 'Normal' gives no recommendation; 'Extreme' or 'Severe' above 70 % gives all three |
| AlertingSystem.CheckAlert | lib/services/alerting-system.ts:27-46 | no metrics raise no alert. WATER_SHORTAGE/CRITICAL fires exactly under the first condition. CROP_FAILURE_RISK/HIGH fires exactly under the second condition when the first fails. Otherwise no alert, and any alert carries the region |
| AlertingSystem.AlertLevelMonotoneInSpi | lib/services/alerting-system.ts:32-39 | a drier SPI never lowers the alert level |
| AlertingSystem.AlertLevelMonotoneInProbability | lib/services/alerting-system.ts:32 | a higher probability never lowers the alert level |
| AlertingSystem.MissingSpiIsZero | lib/services/alerting-system.ts:32-39 | a null spi_3month compares exactly like 0 |
| AlertingSystem.AlertBoundaries | lib/services/alerting-system.ts:32-39 | the bounds are strict: SPI −2.0 gives only the HIGH alert, −1.5 alone gives none, and 'Extreme' at exactly 80 % gives none, while a 'Severe' row at 0 % raises the HIGH crop-failure alert |
| AlertingSystem.ReplaceUnderscoresIdempotent | lib/services/alerting-system.ts:56 | no underscore remains, so replacing again changes nothing |
| AlertingSystem.AlertTitles | lib/services/alerting-system.ts:56 | the stored titles are 'WATER SHORTAGE' and 'CROP FAILURE RISK' |
| ScaleRelations.ScalesDisagreeAtMinusTwo | lib/services/prediction-engine.ts:98-104 | at −2.0 the SPI table already says 'Extremely Dry' while mapSeverity says 'Severe'; at −1.0 the table says 'Moderately Dry' while mapSeverity says 'Mild' |
| ScaleRelations.StoredRow | lib/services/decision-support.ts:28 | a stored prediction is dire for the recommendation rules exactly when its level is at least 'Severe', and is 'Normal' exactly when it is Normal |
| ScaleRelations.AdviceFollowsSpi | lib/services/decision-support.ts:32-45 | for a prediction mapped from an SPI, rationing is advised exactly below −1.5 and a planting advisory exactly below 0 |
| ScaleRelations.SeasonalAdvice | lib/services/prediction-engine.ts:88-89 | the seasonal prediction alone yields rationing and a planting advisory but never livestock relocation, since 65 % is not above 70 % |
| ScaleRelations.SeasonalAlwaysAlerts | lib/services/alerting-system.ts:39 | metrics carrying the seasonal 'Severe' prediction raise an alert whatever the SPI |
| Numerics.MathRound | lib/drought-analysis.ts:94 | Math.round gives an integer within half a unit of its argument |
| Numerics.MathRoundWithin | lib/drought-analysis.ts:94 | rounding a value that lies between two integers keeps it between them |
| Numerics.ToFixed | lib/services/drought-indicators.ts:34 | toFixed(d) gives a whole multiple of 10^−d within half a unit in the d-th place of the value, keeps its sign, and at an exact tie takes the multiple of larger magnitude |
| Numerics.ToFixedWithin | lib/services/drought-indicators.ts:80 | toFixed keeps a value that lies between two integers between them |
| Numerics.MeanBounds | lib/services/drought-indicators.ts:25 | the mean of values in [lo, hi] lies in [lo, hi] |
| Numerics.MeanConstant | lib/services/drought-indicators.ts:25 | the mean of a constant series is that constant |

## Left out

- Database access is not modelled: the SELECT queries, `savePredictions`, the alert INSERT and `getEnrichedHistory`. Rows come in as parameters and results are returned rather than stored.
- `getRegionalDroughtIndex`, `getAffectedAreas` and `calculateWaterAvailability` are not modelled; they are thin wrappers around a query.
- Console logging is not modelled, nor are `dispatchAlert` and `simulateMultiChannelSend` apart from the alert title they store. `checkAndDispatch` returns the alert it would dispatch.
- The clock is not modelled: `new Date()`, `Date.now()`, `setDate`, `setMonth(+3)` and the ISO date string. Dates are day offsets. `generateRecommendations` reads `Date.now()` three times for its ids; one parameter `now` stands for all three reads. The seasonal start ("today plus three months") is a parameter, because calendar months vary in length.
- Floating point is not modelled. Arithmetic is exact over reals, so IEEE rounding, NaN and Infinity are absent. `calculateTrend`'s NaN guard becomes a guard on a zero denominator, which `SlopeDenominatorPositive` shows cannot occur for two or more records.
- Number formatting is not modelled. The decimal text of numbers in issue messages, recommendation ids and messages is the parameter `show`.
- DroughtIndicators.CalculateSPI: the value is the exact-real rounding to hundredths (half away from zero); the binary floating-point digits `toFixed` prints, which can differ at a tie that is not exact in binary, are not modelled.
- DroughtIndicators.CalculateSPEI: the same as for CalculateSPI.
- DroughtIndicators.CalculateVCI: the same as for CalculateSPI, to tenths.
- `Math.sqrt` is a parameter. The lemmas that need a real square root require `IsSqrt(sqrt)`.
- The `description` texts of the indicator results, and the `key_factors` objects as JSON, appear only as the constants the source writes.
- `cleanWeather` and `aggregateDaily` accept any object. The model fixes the four cleaned fields and keeps the rest as an opaque `otherFields` map. A field of another type, such as a string temperature, is not modelled.
- A `days` argument to `predictDrought` that is not a whole number is not modelled.
- HTTP routes, UI components and the ETL pipeline are outside this model.
