/**
 * Anomaly scoring, the five-band severity scale, the least-squares trend over
 * recent history and the day-by-day forecast of lib/drought-analysis.ts.
 *
 * The history is passed in (newest record first) instead of being queried, and
 * "today + i days" is the integer day offset i.
 */
module DroughtAnalysis {
  import opened Wrappers
  import opened Numerics

  /** The lowercase severity scale 'none' | 'mild' | 'moderate' | 'severe' | 'extreme'. */
  datatype Severity = NoDrought | Mild | Moderate | Severe | Extreme {

    /** The label the source stores and returns. */
    function Name(): string {
      match this
      case NoDrought => "none"
      case Mild => "mild"
      case Moderate => "moderate"
      case Severe => "severe"
      case Extreme => "extreme"
    }

    /** How severe the level is: 0 for 'none' up to 4 for 'extreme'. */
    function Rank(): nat {
      match this
      case NoDrought => 0
      case Mild => 1
      case Moderate => 2
      case Severe => 3
      case Extreme => 4
    }
  }

  /** The fields of a DroughtIndex that calculateDroughtIndex fills in. */
  datatype DroughtScore = DroughtScore(anomalyScore: real, severityLevel: Severity, confidence: real)

  /** A stored drought_indices row, as far as the trend and the forecast read it. */
  datatype HistoryRecord = HistoryRecord(anomalyScore: Option<real>)

  /** One forecast entry: `date` is today + dayOffset days. */
  datatype ForecastPoint = ForecastPoint(dayOffset: nat, predictedSeverity: Severity, probability: int)

  const TrendWindow: nat := 30
  const MinHistoryForTrend: nat := 10
  const FallbackTrend: real := -0.01

  /**
   * getSeverityLevel: strict lower bounds tried from the top, first match wins; each
   * level is exactly one half-open band of scores.
   */
  function SeverityLevel(anomalyScore: real): (s: Severity)
    ensures s == NoDrought <==> anomalyScore > 0.5
    ensures s == Mild <==> 0.2 < anomalyScore <= 0.5
    ensures s == Moderate <==> -0.2 < anomalyScore <= 0.2
    ensures s == Severe <==> -0.5 < anomalyScore <= -0.2
    ensures s == Extreme <==> anomalyScore <= -0.5
  {
    if anomalyScore > 0.5 then NoDrought
    else if anomalyScore > 0.2 then Mild
    else if anomalyScore > -0.2 then Moderate
    else if anomalyScore > -0.5 then Severe
    else Extreme
  }

  /** The boundary scores fall into the band below them. */
  lemma SeverityBoundaries()
    ensures SeverityLevel(0.5) == Mild
    ensures SeverityLevel(0.2) == Moderate
    ensures SeverityLevel(-0.2) == Severe
    ensures SeverityLevel(-0.5) == Extreme
  {
  }

  /** A higher anomaly score never maps to a more severe level. */
  lemma SeverityMonotone(a: real, b: real)
    requires a <= b
    ensures SeverityLevel(b).Rank() <= SeverityLevel(a).Rank()
  {
  }

  /**
   * calculateDroughtIndex. The moisture deficit the source computes is never used, so
   * humidity and evapotranspiration are accepted and ignored.
   */
  function CalculateDroughtIndex(precipitation: real, temperature: real, humidity: real, evapotranspiration: real): (d: DroughtScore)
    ensures d.severityLevel == SeverityLevel(d.anomalyScore)
    ensures 0.0 <= d.confidence <= 100.0
    ensures d.confidence == Min(100.0, Abs(d.anomalyScore) * 100.0)
    ensures precipitation <= 50.0 ==> d.anomalyScore == -0.3 - (temperature - 20.0) / 100.0
    ensures precipitation >= 50.0 ==> d.anomalyScore == (precipitation - temperature - 60.0) / 100.0
  {
    var normalizedPrecip := Max(0.0, (precipitation - 50.0) / 100.0);
    var tempAnomaly := (temperature - 20.0) / 10.0;
    var anomalyScore := (normalizedPrecip - 0.3) - tempAnomaly * 0.1;
    DroughtScore(anomalyScore, SeverityLevel(anomalyScore), Min(100.0, Abs(anomalyScore) * 100.0))
  }

  /** Humidity and evapotranspiration never change any field of the result. */
  lemma DroughtIndexIgnoresHumidityAndEvapotranspiration(p: real, t: real, h1: real, e1: real, h2: real, e2: real)
    ensures CalculateDroughtIndex(p, t, h1, e1) == CalculateDroughtIndex(p, t, h2, e2)
  {
  }

  /** More rain never lowers the score and more heat never raises it, so neither can ease the level wrongly. */
  lemma DroughtIndexMonotone(p1: real, t1: real, p2: real, t2: real, h: real, e: real)
    requires p1 <= p2 && t2 <= t1
    ensures CalculateDroughtIndex(p1, t1, h, e).anomalyScore <= CalculateDroughtIndex(p2, t2, h, e).anomalyScore
    ensures CalculateDroughtIndex(p2, t2, h, e).severityLevel.Rank() <= CalculateDroughtIndex(p1, t1, h, e).severityLevel.Rank()
  {
    SeverityMonotone(CalculateDroughtIndex(p1, t1, h, e).anomalyScore, CalculateDroughtIndex(p2, t2, h, e).anomalyScore);
  }

  /** 100 mm at 20 °C scores exactly 0.2, which is not above 0.2, hence 'moderate' at confidence 20. */
  lemma DroughtIndexExample()
    ensures CalculateDroughtIndex(100.0, 20.0, 50.0, 80.0) == DroughtScore(0.2, Moderate, 20.0)
  {
  }

  // ---------------------------------------------------------------------------
  // calculateTrend

  /** `record.anomaly_score || 0`: a missing score counts as 0. */
  function ScoreOf(r: HistoryRecord): real {
    r.anomalyScore.GetOr(0.0)
  }

  /** The scores of the newest min(|data|, 30) records, in the given order. */
  function WindowScores(data: seq<HistoryRecord>): (ys: seq<real>)
    ensures |ys| == if |data| < TrendWindow then |data| else TrendWindow
    ensures forall i :: 0 <= i < |ys| ==> ys[i] == ScoreOf(data[i])
  {
    var n := if |data| < TrendWindow then |data| else TrendWindow;
    seq(n, i requires 0 <= i < n => ScoreOf(data[i]))
  }

  /** Σ x over x = 0..n-1. */
  function SumX(n: nat): real {
    if n == 0 then 0.0 else SumX(n - 1) + (n - 1) as real
  }

  /** Σ x² over x = 0..n-1. */
  function SumX2(n: nat): real {
    if n == 0 then 0.0 else SumX2(n - 1) + (n - 1) as real * (n - 1) as real
  }

  /** Σ x·y with x the index of y. */
  function SumXY(ys: seq<real>): real {
    if |ys| == 0 then 0.0 else SumXY(ys[..|ys| - 1]) + (|ys| - 1) as real * ys[|ys| - 1]
  }

  /** n·Σx² − (Σx)², the denominator of the least-squares slope. */
  function SlopeDenominator(n: nat): real {
    n as real * SumX2(n) - SumX(n) * SumX(n)
  }

  /**
   * The least-squares slope from the four sums over n points. A zero denominator stands
   * for the source's NaN guard; SlopeDenominatorPositive shows it is never zero for n >= 2.
   */
  function SlopeFromSums(n: nat, sumXY: real, sumX: real, sumY: real, sumX2: real): real {
    var denominator := n as real * sumX2 - sumX * sumX;
    if denominator == 0.0 then 0.0 else (n as real * sumXY - sumX * sumY) / denominator
  }

  /** The least-squares slope of ys against x = 0..n-1. */
  function Slope(ys: seq<real>): real {
    SlopeFromSums(|ys|, SumXY(ys), SumX(|ys|), Sum(ys), SumX2(|ys|))
  }

  /** calculateTrend as a value: 0 below two records, else the slope over the window. */
  function Trend(data: seq<HistoryRecord>): real {
    if |data| < 2 then 0.0 else Slope(WindowScores(data))
  }

  /** calculateTrend: 0 below two records, else the slope formula over the accumulated sums. */
  method CalculateTrend(data: seq<HistoryRecord>) returns (slope: real)
    ensures slope == Trend(data)
  {
    if |data| < 2 {
      return 0.0;
    }
    var sumXY, sumX, sumY, sumX2 := AccumulateWindowSums(data);
    var n := if |data| < TrendWindow then |data| else TrendWindow;
    slope := SlopeFromSums(n, sumXY, sumX, sumY, sumX2);
  }

  /** The loop of calculateTrend: one pass over the window accumulating Σxy, Σx, Σy and Σx². */
  method AccumulateWindowSums(data: seq<HistoryRecord>) returns (sumXY: real, sumX: real, sumY: real, sumX2: real)
    ensures sumXY == SumXY(WindowScores(data)) && sumY == Sum(WindowScores(data))
    ensures sumX == SumX(|WindowScores(data)|) && sumX2 == SumX2(|WindowScores(data)|)
  {
    sumXY, sumX, sumY, sumX2 := 0.0, 0.0, 0.0, 0.0;
    ghost var ys := WindowScores(data);
    var i := 0;
    while i < if |data| < TrendWindow then |data| else TrendWindow
      invariant 0 <= i <= |ys|
      invariant sumXY == SumXY(ys[..i])
      invariant sumX == SumX(i)
      invariant sumY == Sum(ys[..i])
      invariant sumX2 == SumX2(i)
    {
      var x := i as real;
      var y := ScoreOf(data[i]);
      WindowSumsStep(ys, i);
      sumXY := sumXY + x * y;
      sumX := sumX + x;
      sumY := sumY + y;
      sumX2 := sumX2 + x * x;
      i := i + 1;
    }
    assert ys[..i] == ys;
  }

  /** Extending a prefix of the window by one score extends each running sum by one term. */
  lemma WindowSumsStep(ys: seq<real>, i: nat)
    requires i < |ys|
    ensures SumXY(ys[..i + 1]) == SumXY(ys[..i]) + i as real * ys[i]
    ensures Sum(ys[..i + 1]) == Sum(ys[..i]) + ys[i]
  {
    assert ys[..i + 1][..i] == ys[..i];
  }

  /** Closed forms: Σx = n(n−1)/2 and Σx² = (n−1)n(2n−1)/6. */
  lemma {:induction false} SumXClosedForm(n: nat)
    ensures SumX(n) == (n as real * (n as real - 1.0)) / 2.0
    ensures SumX2(n) == ((n as real - 1.0) * n as real * (2.0 * n as real - 1.0)) / 6.0
  {
    if n > 0 {
      SumXClosedForm(n - 1);
    }
  }

  /** For n >= 2 the denominator is n²(n−1)(n+1)/12 > 0, so the NaN guard never fires. */
  lemma SlopeDenominatorPositive(n: nat)
    requires n >= 2
    ensures SlopeDenominator(n) > 0.0
  {
    SumXClosedForm(n);
    var m := n as real;
    assert SlopeDenominator(n) == m * m * (m - 1.0) * (m + 1.0) / 12.0;
    assert m * m > 0.0;
    assert (m - 1.0) * (m + 1.0) > 0.0;
  }

  /** Sums over scores a + b·x for x = 0..n-1. */
  lemma {:induction false} LinearSums(ys: seq<real>, a: real, b: real)
    requires forall i :: 0 <= i < |ys| ==> ys[i] == a + b * i as real
    ensures Sum(ys) == |ys| as real * a + b * SumX(|ys|)
    ensures SumXY(ys) == a * SumX(|ys|) + b * SumX2(|ys|)
  {
    if |ys| > 0 {
      var k := |ys| - 1;
      LinearSums(ys[..k], a, b);
      assert ys[k] == a + b * k as real;
      assert k as real * ys[k] == a * k as real + b * (k as real * k as real);
    }
  }

  /** From the sums of a line a + b·x the slope formula gives back b. */
  lemma SlopeFromLineSums(n: nat, a: real, b: real, sx: real, sxx: real, sxy: real, sy: real)
    requires n as real * sxx - sx * sx > 0.0
    requires sxy == a * sx + b * sxx && sy == n as real * a + b * sx
    ensures SlopeFromSums(n, sxy, sx, sy, sxx) == b
  {
    var m := n as real;
    var d := m * sxx - sx * sx;
    assert m * sxy - sx * sy == b * d;
    assert (b * d) / d == b;
  }

  /** Scores a + b·x lie on a line of slope b, which the estimate recovers exactly. */
  lemma SlopeOfLine(ys: seq<real>, a: real, b: real)
    requires |ys| >= 2
    requires forall i :: 0 <= i < |ys| ==> ys[i] == a + b * i as real
    ensures Slope(ys) == b
  {
    var n := |ys|;
    var sx, sxx, sxy, sy := SumX(n), SumX2(n), SumXY(ys), Sum(ys);
    assert sxy == a * sx + b * sxx && sy == n as real * a + b * sx by {
      LinearSums(ys, a, b);
    }
    assert n as real * sxx - sx * sx > 0.0 by {
      SlopeDenominatorPositive(n);
    }
    SlopeFromLineSums(n, a, b, sx, sxx, sxy, sy);
  }

  /** calculateTrend returns exactly 0 for fewer than two records. */
  lemma TrendOfShortHistory(data: seq<HistoryRecord>)
    requires |data| < 2
    ensures Trend(data) == 0.0
  {
  }

  /** Records at index 30 and beyond never influence the trend. */
  lemma TrendIgnoresOlderRecords(data: seq<HistoryRecord>, older: seq<HistoryRecord>)
    requires |data| >= TrendWindow
    ensures Trend(data + older) == Trend(data)
  {
    assert WindowScores(data + older) == WindowScores(data);
  }

  /** A missing anomaly score is the same as a stored 0. */
  lemma TrendMissingScoreIsZero(data: seq<HistoryRecord>, k: nat)
    requires k < |data| && data[k].anomalyScore == None
    ensures Trend(data[k := HistoryRecord(Some(0.0))]) == Trend(data)
  {
    assert WindowScores(data[k := HistoryRecord(Some(0.0))]) == WindowScores(data);
  }

  /** Scores a + b·i over the window give trend b; constant scores (b = 0) give 0. */
  lemma TrendOfLinearScores(data: seq<HistoryRecord>, a: real, b: real)
    requires |data| >= 2
    requires forall i :: 0 <= i < |data| && i < TrendWindow ==> ScoreOf(data[i]) == a + b * i as real
    ensures Trend(data) == b
  {
    SlopeOfLine(WindowScores(data), a, b);
  }

  // ---------------------------------------------------------------------------
  // The forecast loop of predictDrought

  /** The newest record's score, or 0 when it has none (`latestData.anomaly_score || 0`). */
  function Baseline(history: seq<HistoryRecord>): real
    requires |history| > 0
  {
    ScoreOf(history[0])
  }

  /** The trend the forecast uses: the fitted slope from ten records on, else −0.01. */
  function TrendUsed(history: seq<HistoryRecord>): (t: real)
    ensures |history| < MinHistoryForTrend ==> t == FallbackTrend
  {
    if |history| >= MinHistoryForTrend then Trend(history) else FallbackTrend
  }

  /** The score projected `day` days ahead: the trend is a rate per 30 days. */
  function PredictedScore(baseline: real, trend: real, day: nat): real {
    baseline + trend * (day as real / 30.0)
  }

  /** Math.round(min(100, 60 + |score|·20)): always a whole percentage in [60, 100]. */
  function ForecastProbability(score: real): (p: int)
    ensures 60 <= p <= 100
  {
    MathRoundWithin(Min(100.0, 60.0 + Abs(score) * 20.0), 60, 100);
    MathRound(Min(100.0, 60.0 + Abs(score) * 20.0))
  }

  /** The entry for `day` days ahead. */
  function ForecastAt(baseline: real, trend: real, day: nat): (f: ForecastPoint)
    ensures f.dayOffset == day
    ensures 60 <= f.probability <= 100
  {
    var score := PredictedScore(baseline, trend, day);
    ForecastPoint(day, SeverityLevel(score), ForecastProbability(score))
  }

  /**
   * predictDrought after its query: nothing for an empty history, otherwise one point
   * per day 1..days projected from the newest score along the trend.
   */
  method PredictDrought(history: seq<HistoryRecord>, days: int) returns (predictions: seq<ForecastPoint>)
    ensures |history| == 0 ==> predictions == []
    ensures |history| > 0 ==> |predictions| == if days < 0 then 0 else days
    ensures forall k :: 0 <= k < |predictions| ==>
              |history| > 0 && predictions[k] == ForecastAt(Baseline(history), TrendUsed(history), k + 1)
    ensures forall j, k :: 0 <= j < k < |predictions| ==> predictions[j].dayOffset < predictions[k].dayOffset
  {
    if |history| == 0 {
      return [];
    }
    predictions := [];
    var baselineScore := ScoreOf(history[0]);
    var trend: real;
    if |history| >= MinHistoryForTrend {
      trend := CalculateTrend(history);
    } else {
      trend := FallbackTrend;
    }
    assert baselineScore == Baseline(history) && trend == TrendUsed(history);
    var i := 1;
    while i <= days
      invariant 1 <= i <= (if days < 0 then 0 else days) + 1
      invariant |predictions| == i - 1
      invariant forall k :: 0 <= k < |predictions| ==> predictions[k] == ForecastAt(baselineScore, trend, k + 1)
    {
      var predictedScore := PredictedScore(baselineScore, trend, i);
      var severity := SeverityLevel(predictedScore);
      var probability := Min(100.0, 60.0 + Abs(predictedScore) * 20.0);
      assert ForecastPoint(i, severity, MathRound(probability)) == ForecastAt(baselineScore, trend, i);
      predictions := predictions + [ForecastPoint(i, severity, MathRound(probability))];
      i := i + 1;
    }
  }

  /**
   * Along a non-positive slope (the −0.01 fallback included) the forecast severity never
   * eases. The slope is fitted against the record index, and index 0 is the newest record,
   * so a non-positive slope means the scores have not fallen over time.
   */
  lemma ForecastNeverEasesOnNonPositiveSlope(baseline: real, trend: real, d1: nat, d2: nat)
    requires trend <= 0.0 && d1 <= d2
    ensures ForecastAt(baseline, trend, d1).predictedSeverity.Rank() <= ForecastAt(baseline, trend, d2).predictedSeverity.Rank()
  {
    assert trend * (d2 as real / 30.0) <= trend * (d1 as real / 30.0);
    SeverityMonotone(PredictedScore(baseline, trend, d2), PredictedScore(baseline, trend, d1));
  }

  /**
   * The fitted slope is read backwards in time: scores that have risen by b per record
   * towards the newest one give the trend −b, and the forecast then projects them as
   * falling day after day.
   */
  lemma ImprovingHistoryForecastFalls(data: seq<HistoryRecord>, a: real, b: real, d1: nat, d2: nat)
    requires |data| >= MinHistoryForTrend && 0.0 < b && d1 < d2
    requires forall i :: 0 <= i < |data| && i < TrendWindow ==> ScoreOf(data[i]) == a - b * i as real
    ensures TrendUsed(data) == -b
    ensures PredictedScore(Baseline(data), TrendUsed(data), d2) < PredictedScore(Baseline(data), TrendUsed(data), d1)
  {
    forall i | 0 <= i < |data| && i < TrendWindow
      ensures ScoreOf(data[i]) == a + (-b) * i as real
    {
    }
    TrendOfLinearScores(data, a, -b);
    ProjectionFalls(Baseline(data), -b, d1, d2);
  }

  /** A negative trend projects a strictly lower score for a later day. */
  lemma ProjectionFalls(baseline: real, trend: real, d1: nat, d2: nat)
    requires trend < 0.0 && d1 < d2
    ensures PredictedScore(baseline, trend, d2) < PredictedScore(baseline, trend, d1)
  {
    assert trend * (d2 as real / 30.0) < trend * (d1 as real / 30.0);
  }

  /** With fewer than ten records a single score −0.3 forecasts 'severe' at 66 % for day 1. */
  lemma ForecastExample()
    ensures TrendUsed([HistoryRecord(Some(-0.3))]) == -0.01
    ensures ForecastAt(-0.3, -0.01, 1) == ForecastPoint(1, Severe, 66)
  {
    assert PredictedScore(-0.3, -0.01, 1) == -0.3 - 0.01 / 30.0;
  }
}
