/**
 * The indicator calculator of lib/services/drought-indicators.ts: SPI and SPEI as
 * z-scores of the newest reading against the population mean and standard deviation
 * (no gamma or log-logistic fitting), and VCI as min-max normalisation of NDVI.
 *
 * `Math.sqrt` belongs to the JavaScript runtime; it is a parameter here, and the
 * lemmas that need it assume only `IsSqrt(sqrt)`.
 */
module DroughtIndicators {
  import opened Numerics

  datatype IndicatorResult = IndicatorResult(value: real, category: string, description: string)

  /** Ordinal of an SPI category from −3 ('Extremely Dry') to 3 ('Extremely Wet'); 0 for anything else. */
  function SpiCategoryRank(category: string): int {
    if category == "Extremely Dry" then -3
    else if category == "Severely Dry" then -2
    else if category == "Moderately Dry" then -1
    else if category == "Moderately Wet" then 1
    else if category == "Severely Wet" then 2
    else if category == "Extremely Wet" then 3
    else 0
  }

  /**
   * getSPICategory: seven bands, tried from the driest. The dry bounds are inclusive
   * and the wet bounds exclusive, so each band is half-open towards the wet side.
   */
  function SpiCategory(value: real): (c: string)
    ensures c == "Extremely Dry" <==> value <= -2.0
    ensures c == "Severely Dry" <==> -2.0 < value <= -1.5
    ensures c == "Moderately Dry" <==> -1.5 < value <= -1.0
    ensures c == "Near Normal" <==> -1.0 < value < 1.0
    ensures c == "Moderately Wet" <==> 1.0 <= value < 1.5
    ensures c == "Severely Wet" <==> 1.5 <= value < 2.0
    ensures c == "Extremely Wet" <==> 2.0 <= value
  {
    if value <= -2.0 then "Extremely Dry"
    else if value <= -1.5 then "Severely Dry"
    else if value <= -1.0 then "Moderately Dry"
    else if value < 1.0 then "Near Normal"
    else if value < 1.5 then "Moderately Wet"
    else if value < 2.0 then "Severely Wet"
    else "Extremely Wet"
  }

  /** The boundaries: −1.0 is already dry, 1.0 is already wet. */
  lemma SpiCategoryBoundaries()
    ensures SpiCategory(-2.0) == "Extremely Dry"
    ensures SpiCategory(-1.0) == "Moderately Dry"
    ensures SpiCategory(1.0) == "Moderately Wet"
    ensures SpiCategory(2.0) == "Extremely Wet"
  {
  }

  /** A larger index never falls into a drier band. */
  lemma SpiCategoryMonotone(a: real, b: real)
    requires a <= b
    ensures SpiCategoryRank(SpiCategory(a)) <= SpiCategoryRank(SpiCategory(b))
  {
  }

  /** `(x - mean) ** 2` for every x. */
  function SquaredDeviations(xs: seq<real>, mean: real): (ds: seq<real>)
    ensures |ds| == |xs|
    ensures forall i :: 0 <= i < |xs| ==> ds[i] == (xs[i] - mean) * (xs[i] - mean)
  {
    seq(|xs|, i requires 0 <= i < |xs| => (xs[i] - mean) * (xs[i] - mean))
  }

  /** Population standard deviation: sqrt of the mean squared deviation. */
  function StdDev(xs: seq<real>, sqrt: real -> real): real
    requires |xs| > 0
  {
    sqrt(Sum(SquaredDeviations(xs, Mean(xs))) / |xs| as real)
  }

  /** The z-score of the newest (last) value, or 0 when the standard deviation is 0. */
  function ZScore(xs: seq<real>, sqrt: real -> real): real
    requires |xs| > 0
  {
    var stdDev := StdDev(xs, sqrt);
    if stdDev == 0.0 then 0.0 else (xs[|xs| - 1] - Mean(xs)) / stdDev
  }

  /**
   * calculateSPI. The category is taken from the unrounded z-score and the value is
   * that score rounded to two decimals.
   */
  function CalculateSPI(precipHistory: seq<real>, sqrt: real -> real): (r: IndicatorResult)
    ensures |precipHistory| < 3 ==> r == IndicatorResult(0.0, "Normal", "Insufficient data for SPI")
    ensures |precipHistory| >= 3 ==> r.category == SpiCategory(ZScore(precipHistory, sqrt))
    ensures |precipHistory| >= 3 ==> Abs(r.value - ZScore(precipHistory, sqrt)) * 100.0 <= 0.5
    ensures |precipHistory| >= 3 ==> WholeUnitsOf(r.value, 100)
    ensures |precipHistory| >= 3 && Abs(r.value - ZScore(precipHistory, sqrt)) * 100.0 == 0.5 ==>
              Abs(ZScore(precipHistory, sqrt)) < Abs(r.value)
  {
    if |precipHistory| < 3 then
      IndicatorResult(0.0, "Normal", "Insufficient data for SPI")
    else
      var spi := ZScore(precipHistory, sqrt);
      IndicatorResult(ToFixed(spi, 2), SpiCategory(spi), "Precipitation-based standard deviation indicator.")
  }

  /** `precip[i] - pet[i]` for every i. */
  function WaterBalance(precipHistory: seq<real>, petHistory: seq<real>): (wb: seq<real>)
    requires |precipHistory| == |petHistory|
    ensures |wb| == |precipHistory|
    ensures forall i :: 0 <= i < |wb| ==> wb[i] == precipHistory[i] - petHistory[i]
  {
    seq(|precipHistory|, i requires 0 <= i < |precipHistory| => precipHistory[i] - petHistory[i])
  }

  /** calculateSPEI: the SPI computation applied to the water balance. */
  function CalculateSPEI(precipHistory: seq<real>, petHistory: seq<real>, sqrt: real -> real): (r: IndicatorResult)
    ensures |precipHistory| != |petHistory| || |precipHistory| < 3 ==>
              r == IndicatorResult(0.0, "Normal", "Insufficient data for SPEI")
    ensures |precipHistory| == |petHistory| && |precipHistory| >= 3 ==>
              r.category == SpiCategory(ZScore(WaterBalance(precipHistory, petHistory), sqrt))
    ensures |precipHistory| == |petHistory| && |precipHistory| >= 3 ==>
              Abs(r.value - ZScore(WaterBalance(precipHistory, petHistory), sqrt)) * 100.0 <= 0.5
    ensures |precipHistory| == |petHistory| && |precipHistory| >= 3 ==> WholeUnitsOf(r.value, 100)
    ensures |precipHistory| == |petHistory| && |precipHistory| >= 3 &&
            Abs(r.value - ZScore(WaterBalance(precipHistory, petHistory), sqrt)) * 100.0 == 0.5 ==>
              Abs(ZScore(WaterBalance(precipHistory, petHistory), sqrt)) < Abs(r.value)
  {
    if |precipHistory| != |petHistory| || |precipHistory| < 3 then
      IndicatorResult(0.0, "Normal", "Insufficient data for SPEI")
    else
      var spei := ZScore(WaterBalance(precipHistory, petHistory), sqrt);
      IndicatorResult(ToFixed(spei, 2), SpiCategory(spei), "Water balance (Precip - PET) indicator.")
  }

  /** SPEI carries the value and category of SPI over the water-balance series. */
  lemma SpeiIsSpiOfWaterBalance(precipHistory: seq<real>, petHistory: seq<real>, sqrt: real -> real)
    requires |precipHistory| == |petHistory| && |precipHistory| >= 3
    ensures CalculateSPEI(precipHistory, petHistory, sqrt).value == CalculateSPI(WaterBalance(precipHistory, petHistory), sqrt).value
    ensures CalculateSPEI(precipHistory, petHistory, sqrt).category == CalculateSPI(WaterBalance(precipHistory, petHistory), sqrt).category
  {
  }

  /** Dividing a non-zero number by a positive one keeps its sign. */
  lemma QuotientSign(d: real, s: real)
    requires 0.0 < s
    ensures d > 0.0 <==> d / s > 0.0
    ensures d < 0.0 <==> d / s < 0.0
  {
  }

  /** Every squared deviation is non-negative, and positive when its reading is off the mean. */
  lemma SquaredDeviationSigns(xs: seq<real>, mean: real)
    ensures forall i :: 0 <= i < |xs| ==> 0.0 <= SquaredDeviations(xs, mean)[i]
    ensures forall i :: 0 <= i < |xs| && xs[i] != mean ==> 0.0 < SquaredDeviations(xs, mean)[i]
  {
    forall i | 0 <= i < |xs|
      ensures 0.0 <= SquaredDeviations(xs, mean)[i]
      ensures xs[i] != mean ==> 0.0 < SquaredDeviations(xs, mean)[i]
    {
      SquareSign(xs[i] - mean, SquaredDeviations(xs, mean)[i]);
    }
  }

  /** A newest value off the mean makes the sum of squared deviations positive. */
  lemma DeviationSumPositive(xs: seq<real>, mean: real)
    requires |xs| > 0 && xs[|xs| - 1] != mean
    ensures Sum(SquaredDeviations(xs, mean)) > 0.0
  {
    SquaredDeviationSigns(xs, mean);
    SumAtLeastLast(SquaredDeviations(xs, mean));
  }

  /** A positive variance has a positive square root. */
  lemma SqrtOfPositive(sqrt: real -> real, variance: real)
    requires IsSqrt(sqrt) && variance > 0.0
    ensures sqrt(variance) > 0.0
  {
    assert sqrt(variance) * sqrt(variance) == variance;
  }

  /**
   * The z-score is positive exactly when the newest value is above the mean and
   * negative exactly when it is below: a non-zero deviation forces a positive variance,
   * so the zero-deviation guard cannot hide it.
   */
  lemma ZScoreSign(xs: seq<real>, sqrt: real -> real)
    requires IsSqrt(sqrt)
    requires |xs| > 0
    ensures ZScore(xs, sqrt) > 0.0 <==> xs[|xs| - 1] > Mean(xs)
    ensures ZScore(xs, sqrt) < 0.0 <==> xs[|xs| - 1] < Mean(xs)
  {
    var d := xs[|xs| - 1] - Mean(xs);
    if d != 0.0 {
      DeviationSumPositive(xs, Mean(xs));
      var variance := Sum(SquaredDeviations(xs, Mean(xs))) / |xs| as real;
      assert variance > 0.0;
      SqrtOfPositive(sqrt, variance);
      QuotientSign(d, sqrt(variance));
    }
  }

  /**
   * A series whose values are all equal has z-score 0, whatever `sqrt` returns: the newest
   * reading equals the mean, so the quotient and the stdDev === 0 branch both give 0.
   */
  lemma ZScoreOfConstant(xs: seq<real>, c: real, sqrt: real -> real)
    requires |xs| > 0
    requires forall i :: 0 <= i < |xs| ==> xs[i] == c
    ensures ZScore(xs, sqrt) == 0.0
  {
    MeanConstant(xs, c);
  }

  /** With a true square root, a series whose values are all equal has standard deviation 0. */
  lemma StdDevOfConstant(xs: seq<real>, c: real, sqrt: real -> real)
    requires IsSqrt(sqrt)
    requires |xs| > 0
    requires forall i :: 0 <= i < |xs| ==> xs[i] == c
    ensures StdDev(xs, sqrt) == 0.0
  {
    MeanConstant(xs, c);
    var ds := SquaredDeviations(xs, c);
    assert forall i :: 0 <= i < |ds| ==> ds[i] == 0.0;
    SumConstant(ds, 0.0);
    var sd := sqrt(0.0);
    assert 0.0 <= sd && sd * sd == 0.0;
    SquareSign(sd, sd * sd);
  }

  /** SPI of a zero-variance series of at least three readings is 0, 'Near Normal'. */
  lemma SpiOfConstantSeries(precipHistory: seq<real>, c: real, sqrt: real -> real)
    requires |precipHistory| >= 3
    requires forall i :: 0 <= i < |precipHistory| ==> precipHistory[i] == c
    ensures CalculateSPI(precipHistory, sqrt).value == 0.0
    ensures CalculateSPI(precipHistory, sqrt).category == "Near Normal"
  {
    ZScoreOfConstant(precipHistory, c, sqrt);
  }

  /** SPEI of a constant water balance is 0, 'Near Normal'. */
  lemma SpeiOfConstantBalance(precipHistory: seq<real>, petHistory: seq<real>, c: real, sqrt: real -> real)
    requires |precipHistory| == |petHistory| && |precipHistory| >= 3
    requires forall i :: 0 <= i < |precipHistory| ==> precipHistory[i] - petHistory[i] == c
    ensures CalculateSPEI(precipHistory, petHistory, sqrt).value == 0.0
    ensures CalculateSPEI(precipHistory, petHistory, sqrt).category == "Near Normal"
  {
    ZScoreOfConstant(WaterBalance(precipHistory, petHistory), c, sqrt);
  }

  /** SPI is dry exactly when the newest reading is below the mean, wet only when above. */
  lemma SpiSignFollowsNewestReading(precipHistory: seq<real>, sqrt: real -> real)
    requires IsSqrt(sqrt)
    requires |precipHistory| >= 3
    ensures precipHistory[|precipHistory| - 1] < Mean(precipHistory) ==> CalculateSPI(precipHistory, sqrt).value <= 0.0
    ensures precipHistory[|precipHistory| - 1] > Mean(precipHistory) ==> CalculateSPI(precipHistory, sqrt).value >= 0.0
    ensures precipHistory[|precipHistory| - 1] == Mean(precipHistory) ==> CalculateSPI(precipHistory, sqrt).category == "Near Normal"
    ensures SpiCategoryRank(CalculateSPI(precipHistory, sqrt).category) < 0 ==> precipHistory[|precipHistory| - 1] < Mean(precipHistory)
    ensures SpiCategoryRank(CalculateSPI(precipHistory, sqrt).category) > 0 ==> precipHistory[|precipHistory| - 1] > Mean(precipHistory)
  {
    ZScoreSign(precipHistory, sqrt);
  }

  /** The rounded value and the category can disagree: −0.999 shows as −1.0 yet is 'Near Normal'. */
  lemma SpiCategoryUsesUnroundedValue()
    ensures ToFixed(-0.999, 2) == -1.0
    ensures SpiCategory(-0.999) == "Near Normal"
    ensures SpiCategory(ToFixed(-0.999, 2)) == "Moderately Dry"
  {
    assert UnitsHalfUp(0.999, 100) == 100;
  }

  /** [10, 20, 30, 40, 50]: mean 30, deviation √200, z-score 20/√200 ≈ 1.41, 'Moderately Wet'. */
  lemma SpiExample(sqrt: real -> real)
    requires IsSqrt(sqrt)
    ensures CalculateSPI([10.0, 20.0, 30.0, 40.0, 50.0], sqrt).category == "Moderately Wet"
  {
    var xs := [10.0, 20.0, 30.0, 40.0, 50.0];
    assert Sum([10.0]) == 10.0 by { assert [10.0][..0] == []; }
    assert Sum([10.0, 20.0]) == 30.0 by { assert [10.0, 20.0][..1] == [10.0]; }
    assert Sum([10.0, 20.0, 30.0]) == 60.0 by { assert [10.0, 20.0, 30.0][..2] == [10.0, 20.0]; }
    assert Sum([10.0, 20.0, 30.0, 40.0]) == 100.0 by { assert [10.0, 20.0, 30.0, 40.0][..3] == [10.0, 20.0, 30.0]; }
    assert Sum(xs) == 150.0 by { assert xs[..4] == [10.0, 20.0, 30.0, 40.0]; }
    var ds := SquaredDeviations(xs, 30.0);
    assert ds == [400.0, 100.0, 0.0, 100.0, 400.0];
    assert Sum([400.0]) == 400.0 by { assert [400.0][..0] == []; }
    assert Sum([400.0, 100.0]) == 500.0 by { assert [400.0, 100.0][..1] == [400.0]; }
    assert Sum([400.0, 100.0, 0.0]) == 500.0 by { assert [400.0, 100.0, 0.0][..2] == [400.0, 100.0]; }
    assert Sum([400.0, 100.0, 0.0, 100.0]) == 600.0 by { assert [400.0, 100.0, 0.0, 100.0][..3] == [400.0, 100.0, 0.0]; }
    assert Sum(ds) == 1000.0 by { assert ds[..4] == [400.0, 100.0, 0.0, 100.0]; }
    var sd := sqrt(200.0);
    assert sd >= 0.0 && sd * sd == 200.0;
    assert StdDev(xs, sqrt) == sd;
    SqrtBetween(sd);
    assert 1.0 <= 20.0 / sd < 1.5;
  }

  /** Any non-negative square root of 200 lies in (40/3, 20]. */
  lemma SqrtBetween(sd: real)
    requires sd >= 0.0 && sd * sd == 200.0
    ensures 40.0 / 3.0 < sd <= 20.0
  {
    SquareLess(sd, 20.0);
    SquareLess(40.0 / 3.0, sd);
  }

  // ---------------------------------------------------------------------------
  // VCI

  /** VCI bands: below 20, 40 and 60 are three levels of drought, the rest is 'Normal'. */
  function VciCategory(vci: real): (c: string)
    ensures c == "Extreme Drought" <==> vci < 20.0
    ensures c == "Severe Drought" <==> 20.0 <= vci < 40.0
    ensures c == "Moderate Drought" <==> 40.0 <= vci < 60.0
    ensures c == "Normal" <==> 60.0 <= vci
  {
    if vci < 20.0 then "Extreme Drought"
    else if vci < 40.0 then "Severe Drought"
    else if vci < 60.0 then "Moderate Drought"
    else "Normal"
  }

  /** How severe a VCI category is: 0 for 'Normal' up to 3 for 'Extreme Drought'. */
  function VciCategoryRank(category: string): nat {
    if category == "Extreme Drought" then 3
    else if category == "Severe Drought" then 2
    else if category == "Moderate Drought" then 1
    else 0
  }

  /** Healthier vegetation never gets a more severe VCI category. */
  lemma VciCategoryMonotone(a: real, b: real)
    requires a <= b
    ensures VciCategoryRank(VciCategory(b)) <= VciCategoryRank(VciCategory(a))
  {
  }

  /** calculateVCI: NDVI placed in its historical range, as a percentage. */
  function CalculateVCI(ndviCurrent: real, ndviMin: real, ndviMax: real): (r: IndicatorResult)
    ensures ndviMax == ndviMin ==> r == IndicatorResult(50.0, "Normal", "N/A")
    ensures ndviMax != ndviMin ==>
              r.category == VciCategory((ndviCurrent - ndviMin) / (ndviMax - ndviMin) * 100.0)
    ensures ndviMax != ndviMin ==>
              Abs(r.value - (ndviCurrent - ndviMin) / (ndviMax - ndviMin) * 100.0) * 10.0 <= 0.5
    ensures ndviMax != ndviMin ==> WholeUnitsOf(r.value, 10)
    ensures ndviMax != ndviMin &&
            Abs(r.value - (ndviCurrent - ndviMin) / (ndviMax - ndviMin) * 100.0) * 10.0 == 0.5 ==>
              Abs((ndviCurrent - ndviMin) / (ndviMax - ndviMin) * 100.0) < Abs(r.value)
  {
    if ndviMax == ndviMin then
      IndicatorResult(50.0, "Normal", "N/A")
    else
      var vci := ((ndviCurrent - ndviMin) / (ndviMax - ndviMin)) * 100.0;
      IndicatorResult(ToFixed(vci, 1), VciCategory(vci), "Vegetation health relative to historical range.")
  }

  /** At the historical minimum VCI is 0, 'Extreme Drought'; at the maximum it is 100, 'Normal'. */
  lemma VciAtRangeEnds(ndviMin: real, ndviMax: real)
    requires ndviMin != ndviMax
    ensures CalculateVCI(ndviMin, ndviMin, ndviMax).value == 0.0
    ensures CalculateVCI(ndviMin, ndviMin, ndviMax).category == "Extreme Drought"
    ensures CalculateVCI(ndviMax, ndviMin, ndviMax).value == 100.0
    ensures CalculateVCI(ndviMax, ndviMin, ndviMax).category == "Normal"
  {
    assert (ndviMax - ndviMin) / (ndviMax - ndviMin) * 100.0 == 100.0;
    assert UnitsHalfUp(100.0, 10) == 1000;
    assert UnitsHalfUp(0.0, 10) == 0;
  }

  /** Inside its historical range, VCI lies in [0, 100] and grows with NDVI. */
  lemma VciWithinRange(ndvi1: real, ndvi2: real, ndviMin: real, ndviMax: real)
    requires ndviMin < ndviMax
    requires ndviMin <= ndvi1 <= ndvi2 <= ndviMax
    ensures 0.0 <= CalculateVCI(ndvi1, ndviMin, ndviMax).value <= 100.0
    ensures VciCategoryRank(CalculateVCI(ndvi2, ndviMin, ndviMax).category) <= VciCategoryRank(CalculateVCI(ndvi1, ndviMin, ndviMax).category)
  {
    var range := ndviMax - ndviMin;
    var v1 := (ndvi1 - ndviMin) / range * 100.0;
    var v2 := (ndvi2 - ndviMin) / range * 100.0;
    ShareOfRange(ndvi1 - ndviMin, ndvi2 - ndviMin, range);
    ToFixedWithin(v1, 1, 0, 100);
    VciCategoryMonotone(v1, v2);
  }

  /** Shares of a positive range, as percentages, lie in [0, 100] and keep their order. */
  lemma ShareOfRange(d1: real, d2: real, range: real)
    requires 0.0 <= d1 <= d2 <= range && 0.0 < range
    ensures 0.0 <= d1 / range * 100.0 <= 100.0
    ensures d1 / range * 100.0 <= d2 / range * 100.0
  {
    QuotientBounds(d1, range, d1 / range);
    QuotientBounds(d2 - d1, range, d2 / range - d1 / range);
  }

  /** A quotient q = n / d with d > 0 takes the sign of n, and is at most 1 when n <= d. */
  lemma QuotientBounds(n: real, d: real, q: real)
    requires 0.0 < d && q * d == n
    ensures 0.0 <= n ==> 0.0 <= q
    ensures n <= d ==> q <= 1.0
  {
    if q < 0.0 {
      ProductPositive(-q, d, -n);
    }
    if 1.0 < q {
      ProductPositive(q - 1.0, d, n - d);
    }
  }
}
