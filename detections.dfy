/**
 * The detection vector the callback hands to the tracker: one Detection per
 * record of the message, in message order, each tied to its detection source,
 * and for SwissRanger frames with its confidence remapped.
 */
module Detections {
  import opened Messages
  import opened Calibration

  /**
   * A tracker-side detection: the message record it was made from, its
   * current confidence, and the frame id of its detection source (the key of
   * the source in the registry).
   */
  datatype Detection = Detection(record: DetectionMsg, confidence: real, source: string)

  /** A freshly made detection carries the confidence of its record. */
  function MakeDetection(record: DetectionMsg, source: string): Detection
  {
    Detection(record, record.confidence, source)
  }

  /** The vector the push_back loop builds. */
  function DetectionsOf(records: seq<DetectionMsg>, source: string): seq<Detection>
  {
    seq(|records|, i requires 0 <= i < |records| => MakeDetection(records[i], source))
  }

  /** The vector after the remap loop: every confidence remapped, nothing else touched. */
  function RemapAll(detections: seq<Detection>, a: Anchors): seq<Detection>
    requires |detections| > 0 ==> a.Valid()
  {
    seq(|detections|, i requires 0 <= i < |detections| =>
      detections[i].(confidence := Remap(detections[i].confidence, a)))
  }

  /**
   * The remap divides by i0 - d0 only when it has a confidence to rewrite:
   * for a SwissRanger frame that carries detections.
   */
  predicate Remappable(records: seq<DetectionMsg>, frameId: string, a: Anchors)
  {
    IsSwissRangerFrame(frameId) && |records| > 0 ==> a.Valid()
  }

  /**
   * The detections the tracker receives for a message from the given frame:
   * one per record, in order, remapped exactly when the frame is a SwissRanger one.
   */
  function Normalized(records: seq<DetectionMsg>, frameId: string, a: Anchors): (r: seq<Detection>)
    requires Remappable(records, frameId, a)
    ensures |r| == |records|
    ensures forall i :: 0 <= i < |r| ==> r[i].record == records[i] && r[i].source == frameId
    ensures IsSwissRangerFrame(frameId) ==>
      forall i :: 0 <= i < |r| ==> r[i].confidence == Remap(records[i].confidence, a)
    ensures !IsSwissRangerFrame(frameId) ==>
      forall i :: 0 <= i < |r| ==> r[i].confidence == records[i].confidence
  {
    var detections := DetectionsOf(records, frameId);
    if IsSwissRangerFrame(frameId) then RemapAll(detections, a) else detections
  }

  /** The push_back loop over the message's detections. */
  method BuildDetections(records: seq<DetectionMsg>, source: string) returns (detections: seq<Detection>)
    ensures |detections| == |records|
    ensures forall i :: 0 <= i < |records| ==>
      detections[i].record == records[i] && detections[i].confidence == records[i].confidence
      && detections[i].source == source
  {
    detections := [];
    for i := 0 to |records|
      invariant |detections| == i
      invariant forall k :: 0 <= k < i ==> detections[k] == MakeDetection(records[k], source)
    {
      detections := detections + [MakeDetection(records[i], source)];
    }
  }

  /** The index loop that rewrites every confidence of the vector through the remap. */
  method RemapConfidences(detections: seq<Detection>, a: Anchors) returns (remapped: seq<Detection>)
    requires |detections| > 0 ==> a.Valid()
    ensures |remapped| == |detections|
    ensures forall i :: 0 <= i < |detections| ==>
      remapped[i].record == detections[i].record && remapped[i].source == detections[i].source
      && remapped[i].confidence == Remap(detections[i].confidence, a)
  {
    remapped := detections;
    for i := 0 to |remapped|
      invariant |remapped| == |detections|
      invariant forall k :: 0 <= k < i ==> remapped[k] == detections[k].(confidence := Remap(detections[k].confidence, a))
      invariant forall k :: i <= k < |remapped| ==> remapped[k] == detections[k]
    {
      var newConfidence := remapped[i].confidence;
      newConfidence := Remap(newConfidence, a);
      remapped := remapped[i := remapped[i].(confidence := newConfidence)];
    }
  }
}
