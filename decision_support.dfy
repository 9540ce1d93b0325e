/**
 * The recommendation rules of lib/services/decision-support.ts: from the latest
 * prediction row of a region, up to three recommendations are appended in a fixed order.
 *
 * The row is passed in (`None` when the region has no prediction). `Date.now()` is the
 * parameter `now`, and the text form of a number is the parameter `show`.
 */
module DecisionSupport {
  import opened Wrappers

  datatype RecommendationType = Irrigation | WaterDistribution | CropAdvice | Livestock | Policy {
    function Name(): string {
      match this
      case Irrigation => "irrigation"
      case WaterDistribution => "water_distribution"
      case CropAdvice => "crop_advice"
      case Livestock => "livestock"
      case Policy => "policy"
    }

    /** Position of the rule that produces this type; the rules run in this order. */
    function Order(): nat {
      match this
      case Irrigation => 0
      case WaterDistribution => 1
      case CropAdvice => 2
      case Livestock => 3
      case Policy => 4
    }
  }

  datatype Priority = Low | Medium | High | Critical {
    function Name(): string {
      match this
      case Low => "Low"
      case Medium => "Medium"
      case High => "High"
      case Critical => "Critical"
    }
  }

  datatype Recommendation = Recommendation(
    id: string,
    kind: RecommendationType,
    priority: Priority,
    title: string,
    message: string,
    actionItem: string,
    regionId: string)

  /** The two columns of the latest prediction row the rules read. */
  datatype PredictionRow = PredictionRow(predictedSeverity: string, droughtProbabilityPercentage: real)

  /** 'Extreme' or 'Severe': the severities that call for water rationing. */
  predicate Dire(severity: string) {
    severity == "Extreme" || severity == "Severe"
  }

  // The fixed texts of the three templates.
  const IrrigationTitle: string := "Emergency Water Rationing"
  const IrrigationAction: string :=
    "Immediately suspend non-essential irrigation and initiate water trucking to rural reservoirs."
  const CropTitle: string := "Planting Advisory"
  const CropMessage: string := "Moisture deficit predicted for the upcoming season."
  const CropAction: string :=
    "Recommend transition to drought-resistant maize varieties and millet. Suspend luxury crop planting."
  const LivestockTitle: string := "Livestock Relocation Alert"
  const LivestockMessage: string := "Grazing lands expected to deteriorate rapidly."
  const LivestockAction: string :=
    "Advise pastoralists to move livestock to northern green belts or secure fodder reserves."

  /** The irrigation message names the severity and the probability as the row has them. */
  function IrrigationMessage(row: PredictionRow, show: real -> string): string {
    row.predictedSeverity + " drought predicted with " + show(row.droughtProbabilityPercentage) + "% confidence."
  }

  function IrrigationAdvice(row: PredictionRow, regionId: string, now: int, show: real -> string): Recommendation {
    Recommendation("rec_ir_" + show(now as real), Irrigation, Critical,
      IrrigationTitle, IrrigationMessage(row, show), IrrigationAction, regionId)
  }

  function CropAdviceFor(regionId: string, now: int, show: real -> string): Recommendation {
    Recommendation("rec_cr_" + show(now as real), CropAdvice, High, CropTitle, CropMessage, CropAction, regionId)
  }

  function LivestockAdvice(regionId: string, now: int, show: real -> string): Recommendation {
    Recommendation("rec_ls_" + show(now as real), Livestock, High,
      LivestockTitle, LivestockMessage, LivestockAction, regionId)
  }

  /** The type of every recommendation, in order. */
  function Kinds(recommendations: seq<Recommendation>): (ks: seq<RecommendationType>)
    ensures |ks| == |recommendations|
    ensures forall k :: 0 <= k < |ks| ==> ks[k] == recommendations[k].kind
  {
    seq(|recommendations|, k requires 0 <= k < |recommendations| => recommendations[k].kind)
  }

  /** Each recommendation is its type's template for the row and carries the region. */
  predicate ValidAdvice(recommendations: seq<Recommendation>, row: PredictionRow, regionId: string, now: int, show: real -> string) {
    forall k :: 0 <= k < |recommendations| ==>
      recommendations[k].regionId == regionId
      && (recommendations[k].kind == Irrigation ==> recommendations[k] == IrrigationAdvice(row, regionId, now, show))
      && (recommendations[k].kind == CropAdvice ==> recommendations[k] == CropAdviceFor(regionId, now, show))
      && (recommendations[k].kind == Livestock ==> recommendations[k] == LivestockAdvice(regionId, now, show))
  }

  /** The types the three rules produce for a row, in the order the rules run. */
  function AdvisedKinds(row: PredictionRow): seq<RecommendationType> {
    (if Dire(row.predictedSeverity) then [Irrigation] else [])
    + (if row.predictedSeverity != "Normal" then [CropAdvice] else [])
    + (if row.droughtProbabilityPercentage > 70.0 && Dire(row.predictedSeverity) then [Livestock] else [])
  }

  /**
   * generateRecommendations after its query: nothing without a prediction row; otherwise
   * the irrigation rule, the crop rule and the livestock rule, each appending at most one
   * recommendation built from its fixed template.
   */
  method GenerateRecommendations(latest: Option<PredictionRow>, regionId: string, now: int, show: real -> string)
    returns (recommendations: seq<Recommendation>)
    ensures latest.None? ==> recommendations == []
    ensures latest.Some? ==> Kinds(recommendations) == AdvisedKinds(latest.value)
    ensures latest.Some? ==> ValidAdvice(recommendations, latest.value, regionId, now, show)
  {
    if latest.None? {
      return [];
    }
    var row := latest.value;
    var severity := row.predictedSeverity;
    var probability := row.droughtProbabilityPercentage;
    recommendations := [];

    if severity == "Extreme" || severity == "Severe" {
      recommendations := recommendations + [IrrigationAdvice(row, regionId, now, show)];
    }

    if severity != "Normal" {
      recommendations := recommendations + [CropAdviceFor(regionId, now, show)];
    }

    if probability > 70.0 && (severity == "Extreme" || severity == "Severe") {
      recommendations := recommendations + [LivestockAdvice(regionId, now, show)];
    }
  }

  /** Water rationing is advised exactly for 'Extreme' and 'Severe'. */
  lemma IrrigationExactlyWhenDire(row: PredictionRow)
    ensures Irrigation in AdvisedKinds(row) <==> Dire(row.predictedSeverity)
  {
  }

  /** A planting advisory is given for every severity except 'Normal'. */
  lemma CropAdviceExactlyWhenNotNormal(row: PredictionRow)
    ensures CropAdvice in AdvisedKinds(row) <==> row.predictedSeverity != "Normal"
  {
  }

  /** Livestock relocation is advised exactly above 70 % for 'Extreme' or 'Severe', and then always with rationing. */
  lemma LivestockExactlyWhenLikelyAndDire(row: PredictionRow)
    ensures Livestock in AdvisedKinds(row) <==> row.droughtProbabilityPercentage > 70.0 && Dire(row.predictedSeverity)
    ensures Livestock in AdvisedKinds(row) ==> Irrigation in AdvisedKinds(row)
  {
  }

  /** At most three recommendations, no type twice, in the order irrigation, crop, livestock. */
  lemma AdvisedKindsOrdered(row: PredictionRow)
    ensures |AdvisedKinds(row)| <= 3
    ensures forall i, j :: 0 <= i < j < |AdvisedKinds(row)| ==> AdvisedKinds(row)[i].Order() < AdvisedKinds(row)[j].Order()
  {
  }

  /** 'Normal' yields no recommendation; 'Extreme' above 70 % yields all three. */
  lemma AdvisedKindsExtremes(row: PredictionRow)
    ensures row.predictedSeverity == "Normal" ==> AdvisedKinds(row) == []
    ensures Dire(row.predictedSeverity) && row.droughtProbabilityPercentage > 70.0 ==>
              AdvisedKinds(row) == [Irrigation, CropAdvice, Livestock]
  {
  }
}
