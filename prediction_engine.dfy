/**
 * The model-simulation rules of lib/services/prediction-engine.ts: the capitalised
 * severity scale of `mapSeverity`, the four-week short-term series, the fixed seasonal
 * prediction and the history-length gate of `generateAdvancedPredictions`.
 *
 * The enriched history is passed in instead of queried, and nothing is saved. Dates are
 * integer day offsets from today: the forecast date is 0, and the seasonal start
 * ("today + 3 months") is the parameter `seasonStart`.
 */
module PredictionEngine {
  import opened Wrappers
  import opened Numerics

  /** The capitalised scale 'Extreme' | 'Severe' | 'Moderate' | 'Mild' | 'Normal'. */
  datatype RiskLevel = Extreme | Severe | Moderate | Mild | Normal {

    function Name(): string {
      match this
      case Extreme => "Extreme"
      case Severe => "Severe"
      case Moderate => "Moderate"
      case Mild => "Mild"
      case Normal => "Normal"
    }

    /** How severe the level is: 0 for 'Normal' up to 4 for 'Extreme'. */
    function Rank(): nat {
      match this
      case Normal => 0
      case Mild => 1
      case Moderate => 2
      case Severe => 3
      case Extreme => 4
    }
  }

  datatype ModelType = LstmShortTerm | XgboostSeasonal | RandomForestRisk {
    function Name(): string {
      match this
      case LstmShortTerm => "LSTM_SHORT_TERM"
      case XgboostSeasonal => "XGBOOST_SEASONAL"
      case RandomForestRisk => "RANDOM_FOREST_RISK"
    }
  }

  /** The fixed key_factors object each model attaches. */
  datatype KeyFactors =
    | ShortTermFactors(precipAnomaly: real, soilMoistureTrend: string)
    | SeasonalFactors(elNinoIndex: real, regionalTempBaseline: string)

  datatype PredictionResult = PredictionResult(
    regionId: string,
    forecastDay: int,
    validFrom: int,
    validUntil: int,
    droughtProbabilityPercentage: real,
    predictedSeverity: RiskLevel,
    confidenceLevel: real,
    modelName: ModelType,
    keyFactors: KeyFactors)

  /** An enriched history row, as far as the models read it. */
  datatype EnrichedRow = EnrichedRow(spi3Month: Option<real>)

  const MinHistory: nat := 10
  const ShortTermWeeks: nat := 4
  const SeasonLength: nat := 90

  /** mapSeverity: strict upper bounds tried from the driest; each level is one half-open band. */
  function MapSeverity(spi: real): (r: RiskLevel)
    ensures r == Extreme <==> spi < -2.0
    ensures r == Severe <==> -2.0 <= spi < -1.5
    ensures r == Moderate <==> -1.5 <= spi < -1.0
    ensures r == Mild <==> -1.0 <= spi < 0.0
    ensures r == Normal <==> 0.0 <= spi
  {
    if spi < -2.0 then Extreme
    else if spi < -1.5 then Severe
    else if spi < -1.0 then Moderate
    else if spi < 0.0 then Mild
    else Normal
  }

  /** The boundaries belong to the milder side: −2.0 is 'Severe' and 0 is 'Normal'. */
  lemma MapSeverityBoundaries()
    ensures MapSeverity(-2.0) == Severe
    ensures MapSeverity(-1.5) == Moderate
    ensures MapSeverity(-1.0) == Mild
    ensures MapSeverity(0.0) == Normal
  {
  }

  /** A wetter SPI never maps to a more severe level. */
  lemma MapSeverityMonotone(a: real, b: real)
    requires a <= b
    ensures MapSeverity(b).Rank() <= MapSeverity(a).Rank()
  {
  }

  /** `parseFloat(history[0].spi_3month || 0)`: the newest SPI, with a missing one read as 0. */
  function LastSpi(history: seq<EnrichedRow>): real
    requires |history| > 0
  {
    history[0].spi3Month.GetOr(0.0)
  }

  /** The short-term prediction for week `week`, as the loop body builds it. */
  function ShortTermEntry(regionId: string, lastSpi: real, week: int): PredictionResult {
    PredictionResult(
      regionId, 0, 7 * week, 7 * week + 7,
      45.0 + Abs(lastSpi) * 10.0,
      MapSeverity(lastSpi - week as real * 0.1),
      0.92 - week as real * 0.05,
      LstmShortTerm,
      ShortTermFactors(-1.2, "descending"))
  }

  /** The four weeks 1..4 in order. */
  function ShortTermSeries(regionId: string, lastSpi: real): (s: seq<PredictionResult>)
    ensures |s| == ShortTermWeeks
    ensures forall k :: 0 <= k < |s| ==> s[k] == ShortTermEntry(regionId, lastSpi, k + 1)
  {
    seq(ShortTermWeeks, k requires 0 <= k < ShortTermWeeks => ShortTermEntry(regionId, lastSpi, k + 1))
  }

  /** runShortTermModel: one prediction per week i = 1..4, pushed in order. */
  method RunShortTermModel(regionId: string, history: seq<EnrichedRow>) returns (results: seq<PredictionResult>)
    requires |history| > 0
    ensures results == ShortTermSeries(regionId, LastSpi(history))
  {
    var lastSpi := history[0].spi3Month.GetOr(0.0);
    results := [];
    var i := 1;
    while i <= 4
      invariant 1 <= i <= 5
      invariant |results| == i - 1
      invariant forall k :: 0 <= k < i - 1 ==> results[k] == ShortTermEntry(regionId, lastSpi, k + 1)
    {
      var validFrom := i * 7;
      results := results + [PredictionResult(
        regionId, 0, validFrom, validFrom + 7,
        45.0 + Abs(lastSpi) * 10.0,
        MapSeverity(lastSpi - i as real * 0.1),
        0.92 - i as real * 0.05,
        LstmShortTerm,
        ShortTermFactors(-1.2, "descending"))];
      i := i + 1;
    }
  }

  /** Week i runs from day 7i to day 7i + 7, so the four windows tile days 7..35 without gaps. */
  lemma ShortTermWindowsContiguous(regionId: string, lastSpi: real)
    ensures ShortTermSeries(regionId, lastSpi)[0].validFrom == 7
    ensures ShortTermSeries(regionId, lastSpi)[ShortTermWeeks - 1].validUntil == 35
    ensures forall k :: 0 <= k < ShortTermWeeks ==>
              ShortTermSeries(regionId, lastSpi)[k].validUntil == ShortTermSeries(regionId, lastSpi)[k].validFrom + 7
    ensures forall k :: 0 <= k < ShortTermWeeks - 1 ==>
              ShortTermSeries(regionId, lastSpi)[k].validUntil == ShortTermSeries(regionId, lastSpi)[k + 1].validFrom
  {
  }

  /** Every week shows the same probability; confidence falls strictly from week to week. */
  lemma ShortTermProbabilityAndConfidence(regionId: string, lastSpi: real)
    ensures forall k :: 0 <= k < ShortTermWeeks ==>
              ShortTermSeries(regionId, lastSpi)[k].droughtProbabilityPercentage == 45.0 + Abs(lastSpi) * 10.0
    ensures forall k :: 0 <= k < ShortTermWeeks - 1 ==>
              ShortTermSeries(regionId, lastSpi)[k + 1].confidenceLevel < ShortTermSeries(regionId, lastSpi)[k].confidenceLevel
    ensures forall k :: 0 <= k < ShortTermWeeks ==>
              0.7 <= ShortTermSeries(regionId, lastSpi)[k].confidenceLevel <= 0.87
  {
  }

  /** The severity never eases from one week to the next. */
  lemma ShortTermSeverityNeverImproves(regionId: string, lastSpi: real)
    ensures forall k :: 0 <= k < ShortTermWeeks - 1 ==>
              ShortTermSeries(regionId, lastSpi)[k].predictedSeverity.Rank()
              <= ShortTermSeries(regionId, lastSpi)[k + 1].predictedSeverity.Rank()
  {
    var s := ShortTermSeries(regionId, lastSpi);
    forall k | 0 <= k < ShortTermWeeks - 1
      ensures s[k].predictedSeverity.Rank() <= s[k + 1].predictedSeverity.Rank()
    {
      MapSeverityMonotone(lastSpi - (k + 2) as real * 0.1, lastSpi - (k + 1) as real * 0.1);
    }
  }

  /** The probability is not capped: an SPI of −6 yields 105 %. */
  lemma ShortTermProbabilityUncapped(regionId: string)
    ensures ShortTermSeries(regionId, -6.0)[0].droughtProbabilityPercentage == 105.0
  {
  }

  /** A newest row without spi_3month behaves as SPI 0: probability 45 and 'Mild' every week. */
  lemma MissingSpiCountsAsZero(regionId: string, history: seq<EnrichedRow>)
    requires |history| > 0 && history[0].spi3Month.None?
    ensures forall k :: 0 <= k < ShortTermWeeks ==>
              ShortTermSeries(regionId, LastSpi(history))[k].droughtProbabilityPercentage == 45.0
    ensures forall k :: 0 <= k < ShortTermWeeks ==>
              ShortTermSeries(regionId, LastSpi(history))[k].predictedSeverity == Mild
  {
  }

  /** runSeasonalModel: one fixed prediction starting at `seasonStart` and lasting 90 days. */
  function RunSeasonalModel(regionId: string, seasonStart: int): (rs: seq<PredictionResult>)
    ensures |rs| == 1
    ensures rs[0].regionId == regionId && rs[0].modelName == XgboostSeasonal
    ensures rs[0].forecastDay == 0 && rs[0].validFrom == seasonStart
    ensures rs[0].validUntil - rs[0].validFrom == SeasonLength as int
    ensures rs[0].droughtProbabilityPercentage == 65.0 && rs[0].predictedSeverity == Severe
    ensures rs[0].confidenceLevel == 0.75
  {
    [PredictionResult(
      regionId, 0, seasonStart, seasonStart + 90,
      65.0, Severe, 0.75,
      XgboostSeasonal,
      SeasonalFactors(1.5, "+2.1C"))]
  }

  /**
   * generateAdvancedPredictions without the query and the save: nothing for fewer than
   * ten history rows, otherwise the four short-term predictions followed by the seasonal one.
   */
  method GenerateAdvancedPredictions(regionId: string, history: seq<EnrichedRow>, seasonStart: int)
    returns (predictions: seq<PredictionResult>)
    ensures |history| < MinHistory ==> predictions == []
    ensures |history| >= MinHistory ==>
              predictions == ShortTermSeries(regionId, LastSpi(history)) + RunSeasonalModel(regionId, seasonStart)
    ensures |history| >= MinHistory ==> |predictions| == ShortTermWeeks + 1
    ensures forall k :: 0 <= k < |predictions| ==>
              predictions[k].regionId == regionId
              && (predictions[k].modelName == LstmShortTerm <==> k < ShortTermWeeks)
  {
    if |history| < MinHistory {
      return [];
    }
    predictions := [];
    var shortTerm := RunShortTermModel(regionId, history);
    predictions := predictions + shortTerm;
    var seasonal := RunSeasonalModel(regionId, seasonStart);
    predictions := predictions + seasonal;
  }
}
