/**
 * The alert-trigger rule of lib/services/alerting-system.ts: from the latest metrics row
 * of a region, at most one alert is chosen, and the stored title is the alert type with
 * underscores turned into spaces.
 *
 * The metrics row is passed in (`None` when the query returns nothing); dispatching,
 * the database insert and the channel logging are not modelled.
 */
module AlertingSystem {
  import opened Wrappers

  datatype AlertType = EarlyWarning | ExtremeHeat | CropFailureRisk | WaterShortage {
    function Name(): string {
      match this
      case EarlyWarning => "EARLY_WARNING"
      case ExtremeHeat => "EXTREME_HEAT"
      case CropFailureRisk => "CROP_FAILURE_RISK"
      case WaterShortage => "WATER_SHORTAGE"
    }
  }

  datatype AlertSeverity = Low | Medium | High | Critical {
    function Name(): string {
      match this
      case Low => "LOW"
      case Medium => "MEDIUM"
      case High => "HIGH"
      case Critical => "CRITICAL"
    }
  }

  datatype AlertTrigger = AlertTrigger(alertType: AlertType, severity: AlertSeverity, regionId: string, message: string)

  /** The three columns of the metrics row the rule reads; spi_3month may be null. */
  datatype MetricsRow = MetricsRow(spi3Month: Option<real>, droughtProbabilityPercentage: real, predictedSeverity: string)

  const WaterShortageMessage: string :=
    "Critical water shortage predicted. Strategic reserves must be activated immediately."
  const CropFailureMessage: string :=
    "High risk of crop failure detected. Farmers should switch to drought-resistant crops."

  /** `spi_3month < bound` in JavaScript: a null SPI is compared as 0. */
  predicate SpiBelow(spi: Option<real>, bound: real) {
    spi.GetOr(0.0) < bound
  }

  /** The condition of the first branch: a critical water shortage. */
  predicate WaterShortageCondition(m: MetricsRow) {
    SpiBelow(m.spi3Month, -2.0) || (m.predictedSeverity == "Extreme" && m.droughtProbabilityPercentage > 80.0)
  }

  /** The condition of the second branch: a high risk of crop failure. */
  predicate CropFailureCondition(m: MetricsRow) {
    SpiBelow(m.spi3Month, -1.5) || m.predictedSeverity == "Severe"
  }

  /**
   * The trigger decision of checkAndDispatch: no alert without metrics; otherwise a
   * CRITICAL WATER_SHORTAGE alert, else a HIGH CROP_FAILURE_RISK alert, else none.
   */
  function CheckAlert(metrics: Option<MetricsRow>, regionId: string): (a: Option<AlertTrigger>)
    ensures metrics.None? ==> a.None?
    ensures (a.Some? && a.value.alertType == WaterShortage) <==> metrics.Some? && WaterShortageCondition(metrics.value)
    ensures (a.Some? && a.value.alertType == CropFailureRisk) <==>
              metrics.Some? && !WaterShortageCondition(metrics.value) && CropFailureCondition(metrics.value)
    ensures a.None? <==>
              metrics.None? || (!WaterShortageCondition(metrics.value) && !CropFailureCondition(metrics.value))
    ensures a.Some? ==> a.value.regionId == regionId
    ensures a.Some? ==> (a.value.alertType == WaterShortage <==> a.value.severity == Critical)
    ensures a.Some? ==> (a.value.alertType == CropFailureRisk <==> a.value.severity == High)
  {
    match metrics
    case None => None
    case Some(m) =>
      if SpiBelow(m.spi3Month, -2.0) || (m.predictedSeverity == "Extreme" && m.droughtProbabilityPercentage > 80.0) then
        Some(AlertTrigger(WaterShortage, Critical, regionId, WaterShortageMessage))
      else if SpiBelow(m.spi3Month, -1.5) || m.predictedSeverity == "Severe" then
        Some(AlertTrigger(CropFailureRisk, High, regionId, CropFailureMessage))
      else
        None
  }

  /** How urgent the outcome of a check is: 0 for no alert, 1 for HIGH, 2 for CRITICAL. */
  function AlertLevel(a: Option<AlertTrigger>): nat {
    match a
    case None => 0
    case Some(t) => if t.severity == Critical then 2 else if t.severity == High then 1 else 0
  }

  /** A drier SPI never lowers the alert level, other columns being equal. */
  lemma AlertLevelMonotoneInSpi(m: MetricsRow, spi1: real, spi2: real, regionId: string)
    requires spi1 <= spi2
    ensures AlertLevel(CheckAlert(Some(m.(spi3Month := Some(spi2))), regionId))
            <= AlertLevel(CheckAlert(Some(m.(spi3Month := Some(spi1))), regionId))
  {
  }

  /** A higher probability never lowers the alert level, other columns being equal. */
  lemma AlertLevelMonotoneInProbability(m: MetricsRow, p1: real, p2: real, regionId: string)
    requires p1 <= p2
    ensures AlertLevel(CheckAlert(Some(m.(droughtProbabilityPercentage := p1)), regionId))
            <= AlertLevel(CheckAlert(Some(m.(droughtProbabilityPercentage := p2)), regionId))
  {
  }

  /** A null SPI is treated exactly like an SPI of 0. */
  lemma MissingSpiIsZero(m: MetricsRow, regionId: string)
    ensures CheckAlert(Some(m.(spi3Month := None)), regionId) == CheckAlert(Some(m.(spi3Month := Some(0.0))), regionId)
  {
  }

  /**
   * The boundaries are strict: an SPI of exactly −2.0 gives only the HIGH alert, −1.5 none by
   * itself. 'Extreme' at 80 % or less raises nothing unless the SPI is below −1.5, while any
   * 'Severe' row raises HIGH: the milder severity can alert where the worse one does not.
   */
  lemma AlertBoundaries(regionId: string)
    ensures CheckAlert(Some(MetricsRow(Some(-2.0), 0.0, "Normal")), regionId).value.alertType == CropFailureRisk
    ensures CheckAlert(Some(MetricsRow(Some(-1.5), 0.0, "Normal")), regionId).None?
    ensures CheckAlert(Some(MetricsRow(Some(0.0), 80.0, "Extreme")), regionId).None?
    ensures CheckAlert(Some(MetricsRow(Some(0.0), 0.0, "Severe")), regionId).value.alertType == CropFailureRisk
  {
  }

  /** `s.replace(/_/g, ' ')`: every underscore becomes a space, every other character stays. */
  function ReplaceUnderscores(s: string): (r: string)
    ensures |r| == |s|
    ensures forall i :: 0 <= i < |s| ==> r[i] == (if s[i] == '_' then ' ' else s[i])
  {
    seq(|s|, i requires 0 <= i < |s| => if s[i] == '_' then ' ' else s[i])
  }

  /** The replacement leaves no underscore behind, so applying it again changes nothing. */
  lemma ReplaceUnderscoresIdempotent(s: string)
    ensures '_' !in ReplaceUnderscores(s)
    ensures ReplaceUnderscores(ReplaceUnderscores(s)) == ReplaceUnderscores(s)
  {
  }

  /** The title stored with an alert. */
  function AlertTitle(alertType: AlertType): string {
    ReplaceUnderscores(alertType.Name())
  }

  /** The titles of the two alerts the rule can produce. */
  lemma AlertTitles()
    ensures AlertTitle(WaterShortage) == "WATER SHORTAGE"
    ensures AlertTitle(CropFailureRisk) == "CROP FAILURE RISK"
  {
  }
}
