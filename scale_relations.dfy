/**
 * How the severity scales and the rule engines fit together: the SPI category table and
 * `mapSeverity` classify the same number differently, and the predictions the engine
 * stores are what the recommendation and alert rules later read.
 */
module ScaleRelations {
  import opened Wrappers
  import DroughtIndicators
  import opened PredictionEngine
  import DecisionSupport
  import AlertingSystem

  /** At exactly −2.0 the SPI table already says 'Extremely Dry', while mapSeverity says only 'Severe'. */
  lemma ScalesDisagreeAtMinusTwo()
    ensures DroughtIndicators.SpiCategory(-2.0) == "Extremely Dry"
    ensures MapSeverity(-2.0) == Severe
    ensures DroughtIndicators.SpiCategory(-1.0) == "Moderately Dry" && MapSeverity(-1.0) == Mild
  {
  }

  /** The row the recommendation rules read back from a stored prediction. */
  function StoredRow(p: PredictionResult): (row: DecisionSupport.PredictionRow)
    ensures row.droughtProbabilityPercentage == p.droughtProbabilityPercentage
    ensures DecisionSupport.Dire(row.predictedSeverity) <==> p.predictedSeverity.Rank() >= Severe.Rank()
    ensures row.predictedSeverity == "Normal" <==> p.predictedSeverity == Normal
  {
    DecisionSupport.PredictionRow(p.predictedSeverity.Name(), p.droughtProbabilityPercentage)
  }

  /** The recommendation types advised for a prediction whose severity mapSeverity gave for `spi`. */
  function AdviceForSpi(spi: real, probability: real): seq<DecisionSupport.RecommendationType> {
    DecisionSupport.AdvisedKinds(DecisionSupport.PredictionRow(MapSeverity(spi).Name(), probability))
  }

  /** Rationing is advised exactly when the SPI is below −1.5, a planting advisory exactly when it is below 0. */
  lemma AdviceFollowsSpi(spi: real, probability: real)
    ensures DecisionSupport.Irrigation in AdviceForSpi(spi, probability) <==> spi < -1.5
    ensures DecisionSupport.CropAdvice in AdviceForSpi(spi, probability) <==> spi < 0.0
  {
    var row := DecisionSupport.PredictionRow(MapSeverity(spi).Name(), probability);
    DecisionSupport.IrrigationExactlyWhenDire(row);
    DecisionSupport.CropAdviceExactlyWhenNotNormal(row);
  }

  /** The stored seasonal prediction always yields rationing and a planting advisory, never livestock relocation. */
  lemma SeasonalAdvice(regionId: string, seasonStart: int)
    ensures DecisionSupport.AdvisedKinds(StoredRow(RunSeasonalModel(regionId, seasonStart)[0]))
            == [DecisionSupport.Irrigation, DecisionSupport.CropAdvice]
  {
  }

  /** Whatever the SPI, metrics carrying the seasonal prediction always raise an alert. */
  lemma SeasonalAlwaysAlerts(regionId: string, seasonStart: int, spi: Option<real>)
    ensures AlertingSystem.CheckAlert(Some(AlertingSystem.MetricsRow(
              spi,
              RunSeasonalModel(regionId, seasonStart)[0].droughtProbabilityPercentage,
              RunSeasonalModel(regionId, seasonStart)[0].predictedSeverity.Name())), regionId).Some?
  {
  }
}
