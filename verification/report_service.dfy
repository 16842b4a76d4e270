/**
 Material cost estimation of `services/report_service.py`: each stored feature
 is priced by a fixed per-square-foot rate for its type, and a report is only
 produced for a task that has at least one feature.

 The repository query is a function parameter; the PDF generator is foreign,
 so a successful report is the document request that would be handed to it.
 */
module ReportService {

  type TaskId = string
  type TenantId = string

  /** A stored landscape feature, as far as estimation reads it. */
  datatype Feature = Feature(featureType: string, areaSqFt: real)

  /** The cost estimate of one feature: its type and its total cost. */
  datatype Estimate = Estimate(featureType: string, cost: real)

  /** The outcome of `generate_final_report`. */
  datatype ReportOutcome =
    | NoValidatedData   // the `ValueError` raised for a task without features
    | Document(taskId: TaskId, features: seq<Feature>, estimates: seq<Estimate>)

  /** Price per square foot of each known feature type. */
  const Rates: map<string, real> := map["mulch" := 3.50, "lawn" := 1.25, "patio" := 15.00]

  /** The rate of a feature type; a type missing from the table silently gets rate 0. */
  function RateOf(featureType: string): (rate: real)
    ensures featureType == "mulch" ==> rate == 3.50
    ensures featureType == "lawn" ==> rate == 1.25
    ensures featureType == "patio" ==> rate == 15.00
    ensures featureType != "mulch" && featureType != "lawn" && featureType != "patio" ==> rate == 0.0
  {
    if featureType in Rates then Rates[featureType] else 0.0
  }

  /**
   `_compute_material_estimates`: one estimate per feature, in the same order,
   carrying the feature's type and its area priced at the type's rate.
   */
  function MaterialEstimates(features: seq<Feature>): (estimates: seq<Estimate>)
    ensures |estimates| == |features|
    ensures forall i :: 0 <= i < |features| ==>
              estimates[i].featureType == features[i].featureType
              && estimates[i].cost == features[i].areaSqFt * RateOf(features[i].featureType)
  {
    if |features| == 0 then []
    else
      var f := features[0];
      [Estimate(f.featureType, f.areaSqFt * RateOf(f.featureType))] + MaterialEstimates(features[1..])
  }

  /** Estimation is computed feature by feature: it distributes over concatenation. */
  lemma {:induction false} EstimatesDistribute(a: seq<Feature>, b: seq<Feature>)
    ensures MaterialEstimates(a + b) == MaterialEstimates(a) + MaterialEstimates(b)
  {
    if |a| == 0 {
      assert a + b == b;
    } else {
      assert (a + b)[0] == a[0];
      assert (a + b)[1..] == a[1..] + b;
      EstimatesDistribute(a[1..], b);
      var head := [Estimate(a[0].featureType, a[0].areaSqFt * RateOf(a[0].featureType))];
      calc {
        MaterialEstimates(a + b);
        head + MaterialEstimates(a[1..] + b);
        head + (MaterialEstimates(a[1..]) + MaterialEstimates(b));
        (head + MaterialEstimates(a[1..])) + MaterialEstimates(b);
        MaterialEstimates(a) + MaterialEstimates(b);
      }
    }
  }

  /** Features of non-negative area never get a negative cost. */
  lemma NonNegativeCosts(features: seq<Feature>)
    requires forall i :: 0 <= i < |features| ==> features[i].areaSqFt >= 0.0
    ensures forall i :: 0 <= i < |features| ==> MaterialEstimates(features)[i].cost >= 0.0
  {
  }

  /** 100 ft² of mulch cost 350. */
  lemma MulchExample()
    ensures MaterialEstimates([Feature("mulch", 100.0)]) == [Estimate("mulch", 350.0)]
  {
  }

  /** A feature of unknown type costs 0, whatever its area. */
  lemma UnknownTypeCostsNothing(f: Feature)
    requires f.featureType !in Rates
    ensures MaterialEstimates([f]) == [Estimate(f.featureType, 0.0)]
  {
  }

  /**
   `generate_final_report`: a task with no stored features is rejected before
   any estimate or document exists; otherwise the document request carries the
   task's features and exactly their estimates.
   */
  function GenerateFinalReport(
    fetchFeatures: (TaskId, TenantId) -> seq<Feature>, taskId: TaskId, tenantId: TenantId
  ): (r: ReportOutcome)
    ensures r.NoValidatedData? <==> fetchFeatures(taskId, tenantId) == []
    ensures r.Document? ==>
              r.taskId == taskId
              && r.features == fetchFeatures(taskId, tenantId)
              && r.estimates == MaterialEstimates(r.features)
  {
    var features := fetchFeatures(taskId, tenantId);
    if |features| == 0 then NoValidatedData
    else Document(taskId, features, MaterialEstimates(features))
  }
}
