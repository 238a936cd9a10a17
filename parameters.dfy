/**
 * The configuration of the tracker node and the parameters main derives from
 * it before building the tracker: the reference detection threshold, the
 * gate distance, the period, the position variance and the likelihood weights.
 */
module Parameters {
  import opened Gating
  import opened Calibration

  /** The node's private parameters, one field per parameter main reads. */
  datatype NodeParameters = NodeParameters(
    worldFrameId: string,
    vertical: bool,
    extrinsicCalibration: bool,
    voxelSize: real,
    rate: real,
    numCameras: int,
    minConfidence: real,
    chiValue: real,
    accelerationVariance: real,
    detectorLikelihood: bool,
    velocityInMotionTerm: bool,
    detectorWeight: real,
    motionWeight: real,
    secBeforeOld: real,
    secBeforeFake: real,
    secRemainNew: real,
    detectionsToValidate: int,
    haarDispAdaMinConfidence: real,
    groundBasedPeopleDetectionMinConfidence: real,
    swissranger: bool,
    minConfidenceDetectionsSr: real,
    minConfidenceSr: real,
    outputHistoryPointcloud: bool,
    outputHistorySize: int,
    outputMarkers: bool,
    outputImageRgb: bool,
    outputTrackingResults: bool,
    debugMode: bool)

  /**
   * The values main falls back to for parameters that are not set. They meet
   * every precondition of the derivations: a positive rate, distinct
   * SwissRanger thresholds, and a tabulated acceptance probability.
   */
  function DefaultParameters(): (p: NodeParameters)
    ensures p.rate > 0.0
    ensures p.minConfidenceSr != p.minConfidenceDetectionsSr
    ensures p.chiValue in ChiTable(p.velocityInMotionTerm)
  {
    NodeParameters(
      worldFrameId := "/odom",
      vertical := false,
      extrinsicCalibration := false,
      voxelSize := 0.075,
      rate := 30.0,
      numCameras := 1,
      minConfidence := -2.5,
      chiValue := 0.9,
      accelerationVariance := 1.0,
      detectorLikelihood := false,
      velocityInMotionTerm := false,
      detectorWeight := -1.0,
      motionWeight := 0.5,
      secBeforeOld := 3.6,
      secBeforeFake := 2.4,
      secRemainNew := 1.2,
      detectionsToValidate := 5,
      haarDispAdaMinConfidence := -2.5,
      groundBasedPeopleDetectionMinConfidence := -2.5,
      swissranger := false,
      minConfidenceDetectionsSr := -1.5,
      minConfidenceSr := -1.1,
      outputHistoryPointcloud := false,
      outputHistorySize := 0,
      outputMarkers := true,
      outputImageRgb := true,
      outputTrackingResults := true,
      debugMode := false)
  }

  /** The arguments main passes to the tracker's constructor. */
  datatype TrackerSettings = TrackerSettings(
    gateDistance: real,
    detectorLikelihood: bool,
    likelihoodWeights: seq<real>,
    velocityInMotionTerm: bool,
    minConfidence: real,
    minConfidenceDetections: real,
    secBeforeOld: real,
    secBeforeFake: real,
    secRemainNew: real,
    detectionsToValidate: int,
    period: real,
    positionVariance: real,
    accelerationVariance: real,
    worldFrameId: string,
    debugMode: bool,
    vertical: bool)

  /** The configuration the callback reads: output switches, remap thresholds and the world frame. */
  datatype NodeConfig = NodeConfig(
    worldFrameId: string,
    anchors: Anchors,
    outputTrackingResults: bool,
    outputMarkers: bool,
    outputHistoryPointcloud: bool,
    outputHistorySize: int,
    tracker: TrackerSettings)

  /** The reference detection threshold: the ground-based detector's with SwissRangers, HaarDispAda's otherwise. */
  function ReferenceDetectionThreshold(p: NodeParameters): real
  {
    if p.swissranger then p.groundBasedPeopleDetectionMinConfidence else p.haarDispAdaMinConfidence
  }

  /** The frame period, one over the rate. */
  function Period(rate: real): (period: real)
    requires rate != 0.0
    ensures period * rate == 1.0
    ensures period > 0.0 <==> rate > 0.0
  {
    1.0 / rate
  }

  /** The measurement variance: thirty times the variance of a uniform error over two voxels. */
  function PositionVariance(voxelSize: real): (variance: real)
    ensures variance == 10.0 * voxelSize * voxelSize
    ensures variance >= 0.0
  {
    30.0 * ((2.0 * voxelSize) * (2.0 * voxelSize)) / 12.0
  }

  /** The two likelihood weights: the detector weight rescaled to the 0.999 entry, then the motion weight. */
  function LikelihoodWeights(detectorWeight: real, motionWeight: real, chiMap: map<real, real>): (w: seq<real>)
    requires FallbackProbability in chiMap
    ensures |w| == 2 && w[1] == motionWeight
    ensures w[0] * ReferenceChiSquare == detectorWeight * chiMap[FallbackProbability]
  {
    [detectorWeight * chiMap[FallbackProbability] / ReferenceChiSquare, motionWeight]
  }

  /**
   * With velocity in the motion term the detector weight is passed on as it
   * is; without, it is scaled by 13.816 / 18.467.
   */
  lemma LikelihoodWeightsByDimension(detectorWeight: real, motionWeight: real, velocityInMotionTerm: bool)
    ensures FallbackProbability in ChiTable(velocityInMotionTerm)
    ensures LikelihoodWeights(detectorWeight, motionWeight, ChiTable(velocityInMotionTerm))[0]
         == if velocityInMotionTerm then detectorWeight else detectorWeight * 13.816 / 18.467
  {
    ChiTableAt(velocityInMotionTerm, |Rows| - 1);
  }

  /** The tracker's constructor arguments as main computes them. */
  function Settings(p: NodeParameters): (s: TrackerSettings)
    requires p.rate != 0.0
    ensures s.period * p.rate == 1.0 && s.positionVariance >= 0.0 && |s.likelihoodWeights| == 2
  {
    ChiTableAt(p.velocityInMotionTerm, |Rows| - 1);
    var chiMap := ChiTable(p.velocityInMotionTerm);
    TrackerSettings(
      gateDistance := GateDistance(chiMap, p.chiValue),
      detectorLikelihood := p.detectorLikelihood,
      likelihoodWeights := LikelihoodWeights(p.detectorWeight, p.motionWeight, chiMap),
      velocityInMotionTerm := p.velocityInMotionTerm,
      minConfidence := p.minConfidence,
      minConfidenceDetections := ReferenceDetectionThreshold(p),
      secBeforeOld := p.secBeforeOld,
      secBeforeFake := p.secBeforeFake,
      secRemainNew := p.secRemainNew,
      detectionsToValidate := p.detectionsToValidate,
      period := Period(p.rate),
      positionVariance := PositionVariance(p.voxelSize),
      accelerationVariance := p.accelerationVariance,
      worldFrameId := p.worldFrameId,
      debugMode := p.debugMode,
      vertical := p.vertical)
  }

  /** The remap thresholds: (d0, i0) of the SwissRanger scale, (d1, i1) of the reference scale. */
  function AnchorsOf(p: NodeParameters): (a: Anchors)
    ensures a.sourceDetection == p.minConfidenceDetectionsSr
    ensures a.sourceInitialization == p.minConfidenceSr
    ensures a.referenceDetection == (if p.swissranger then p.groundBasedPeopleDetectionMinConfidence else p.haarDispAdaMinConfidence)
    ensures a.referenceInitialization == p.minConfidence
    ensures a.Valid() <==> p.minConfidenceSr != p.minConfidenceDetectionsSr
  {
    Anchors(p.minConfidenceDetectionsSr, p.minConfidenceSr, ReferenceDetectionThreshold(p), p.minConfidence)
  }

  /** Everything the callback needs, as main leaves it in the node's globals. */
  function Configure(p: NodeParameters): (cfg: NodeConfig)
    requires p.rate != 0.0
    ensures cfg.anchors.referenceDetection == cfg.tracker.minConfidenceDetections
    ensures cfg.anchors.referenceInitialization == cfg.tracker.minConfidence
    ensures cfg.worldFrameId == cfg.tracker.worldFrameId == p.worldFrameId
    ensures cfg.outputTrackingResults == p.outputTrackingResults && cfg.outputMarkers == p.outputMarkers
    ensures cfg.outputHistoryPointcloud == p.outputHistoryPointcloud && cfg.outputHistorySize == p.outputHistorySize
  {
    NodeConfig(
      worldFrameId := p.worldFrameId,
      anchors := AnchorsOf(p),
      outputTrackingResults := p.outputTrackingResults,
      outputMarkers := p.outputMarkers,
      outputHistoryPointcloud := p.outputHistoryPointcloud,
      outputHistorySize := p.outputHistorySize,
      tracker := Settings(p))
  }

  /**
   * The SwissRanger thresholds land exactly on the thresholds the tracker is
   * built with: min_confidence_detections_sr on its detection threshold (the
   * ground-based detector's with SwissRangers, HaarDispAda's otherwise) and
   * min_confidence_sr on min_confidence.
   */
  lemma RemapOntoTrackerScale(p: NodeParameters)
    requires p.rate != 0.0 && p.minConfidenceSr != p.minConfidenceDetectionsSr
    ensures Remap(p.minConfidenceDetectionsSr, AnchorsOf(p)) == Settings(p).minConfidenceDetections
    ensures Remap(p.minConfidenceSr, AnchorsOf(p)) == Settings(p).minConfidence
    ensures Settings(p).minConfidenceDetections
         == if p.swissranger then p.groundBasedPeopleDetectionMinConfidence else p.haarDispAdaMinConfidence
  {
    RemapAnchors(AnchorsOf(p));
  }

  /**
   * With every parameter at its default: gate 4.605 (probability 0.9, dimension
   * 2), period 1/30, position variance 0.05625, weights [-13.816/18.467, 0.5]
   * and reference detection threshold -2.5.
   */
  lemma DefaultSettings()
    ensures Settings(DefaultParameters()).gateDistance == 4.605
    ensures Settings(DefaultParameters()).period == 1.0 / 30.0
    ensures Settings(DefaultParameters()).positionVariance == 0.05625
    ensures Settings(DefaultParameters()).likelihoodWeights == [-13.816 / 18.467, 0.5]
    ensures Settings(DefaultParameters()).minConfidenceDetections == -2.5
  {
    ChiTableAt(false, 3);
    LikelihoodWeightsByDimension(-1.0, 0.5, false);
  }

  /**
   * With the default thresholds the reference detection and initialisation
   * thresholds coincide (-2.5), so every SwissRanger confidence is sent to -2.5.
   */
  lemma DefaultRemapIsConstant(c: real)
    ensures AnchorsOf(DefaultParameters()).Valid()
    ensures Remap(c, AnchorsOf(DefaultParameters())) == -2.5
  {
    RemapCollapses(c, AnchorsOf(DefaultParameters()));
  }
}
