/**
 The confidence gate of `segment_map_task` in `src/services/ai_worker.py`:
 masks predicted for an image are kept only when their score exceeds 0.85;
 when none is kept the image goes to manual review, otherwise the kept masks
 go on to geospatial processing.

 The segmentation model, manual review and geospatial processing are foreign
 calls: prediction is a function parameter, and the outcome records which of
 the two downstream calls the task makes and with what argument.
 */
module AiWorker {
  import Geometry

  /** Scores must be strictly above this to be processed automatically. */
  const ConfidenceThreshold: real := 0.85

  /** A predicted mask: its confidence score and its outline. */
  datatype Mask = Mask(score: real, ring: Geometry.Ring)

  type Image = seq<bv8>

  /** Which downstream call the task returns. */
  datatype SegmentOutcome =
    | ManualReview(image: Image)        // `trigger_manual_review(image_bytes)`
    | Processing(features: seq<Mask>)   // `process_geospatial_results(validated_features)`

  predicate Confident(m: Mask) {
    m.score > ConfidenceThreshold
  }

  /** `sub` can be obtained from `s` by deleting elements, keeping the order of the rest. */
  predicate IsSubsequence(sub: seq<Mask>, s: seq<Mask>)
    decreases |s|
  {
    if |sub| == 0 then true
    else if |s| == 0 then false
    else if sub[0] == s[0] then IsSubsequence(sub[1..], s[1..])
    else IsSubsequence(sub, s[1..])
  }

  /**
   The confidence filter: every kept mask scores above the threshold, every
   such mask is kept, nothing else is, and the input order is preserved.
   */
  function ValidatedFeatures(masks: seq<Mask>): (kept: seq<Mask>)
    ensures forall i :: 0 <= i < |kept| ==> kept[i].score > 0.85
    ensures forall i :: 0 <= i < |masks| && masks[i].score > 0.85 ==> masks[i] in kept
    ensures forall m :: m in kept ==> m in masks
    ensures IsSubsequence(kept, masks)
  {
    if |masks| == 0 then []
    else if Confident(masks[0]) then [masks[0]] + ValidatedFeatures(masks[1..])
    else ValidatedFeatures(masks[1..])
  }

  /** The complementary filter: the masks the gate drops, in input order. */
  function DroppedMasks(masks: seq<Mask>): (dropped: seq<Mask>)
    ensures forall i :: 0 <= i < |dropped| ==> dropped[i].score <= 0.85
  {
    if |masks| == 0 then []
    else if Confident(masks[0]) then DroppedMasks(masks[1..])
    else [masks[0]] + DroppedMasks(masks[1..])
  }

  /** The gate loses and invents nothing: kept and dropped masks together are the input. */
  lemma {:induction false} GatePartitionsMasks(masks: seq<Mask>)
    ensures multiset(ValidatedFeatures(masks)) + multiset(DroppedMasks(masks)) == multiset(masks)
  {
    if |masks| > 0 {
      GatePartitionsMasks(masks[1..]);
      assert masks == [masks[0]] + masks[1..];
    }
  }

  /** The threshold is strict: a score of exactly 0.85 is dropped. */
  lemma ThresholdIsStrict(m: Mask)
    requires m.score == 0.85
    ensures ValidatedFeatures([m]) == []
    ensures DroppedMasks([m]) == [m]
  {
  }

  /** Nothing is kept exactly when no mask is confident. */
  lemma NothingKeptIffNoneConfident(masks: seq<Mask>)
    ensures ValidatedFeatures(masks) == [] <==> forall m :: m in masks ==> m.score <= 0.85
  {
  }

  /**
   `segment_map_task`: manual review exactly when no predicted mask passes
   the gate (with the original image); otherwise processing receives the
   non-empty filtered list and manual review is not triggered.
   */
  function SegmentMapTask(predict: Image -> seq<Mask>, image: Image): (r: SegmentOutcome)
    ensures r.ManualReview? <==> forall m :: m in predict(image) ==> m.score <= 0.85
    ensures r.ManualReview? ==> r.image == image
    ensures r.Processing? ==> r.features == ValidatedFeatures(predict(image)) && r.features != []
  {
    var masks := predict(image);
    var validated := ValidatedFeatures(masks);
    NothingKeptIffNoneConfident(masks);
    if validated == [] then ManualReview(image) else Processing(validated)
  }
}
