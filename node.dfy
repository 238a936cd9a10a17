/**
 * The tracker node's per-frame callback (detection_cb) and its start-up (main):
 * the global state is a TrackerNode object holding the registry, the history
 * start index and the trace of what was asked of the tracker and published.
 */
module Node {
  import opened Wrappers
  import opened Messages
  import opened Gating
  import opened Calibration
  import opened Detections
  import opened Registry
  import opened Parameters

  /** The calls the callback makes on the tracker, whose behaviour is not part of this model. */
  datatype TrackerCall =
    | NewFrame(detections: seq<Detection>)
    | UpdateTracks
    | ToMsg
    | ToMarkerArray
    | AppendToPointCloud(startingIndex: nat, historySize: int)

  /** The messages the callback publishes; fromTracker tells a filled track list from an empty one. */
  datatype Message =
    | TrackArray(stamp: real, frameId: string, fromTracker: bool)
    | MarkerArray
    | HistoryCloud(frameId: string)

  /** One observable step of the callback, in the order it happens. */
  datatype Event = Call(call: TrackerCall) | Publish(message: Message)

  datatype Outcome = Processed | TransformUnavailable

  /**
   * One invocation of the callback: the message, the results of the two
   * transform lookups (world from sensor, sensor from world), and the index
   * appendToPointCloud returns should it be called.
   */
  datatype FrameInput = FrameInput(
    msg: DetectionArrayMsg,
    transform: Option<Pose>,
    inverseTransform: Option<Pose>,
    historyIndex: nat)

  /** The node's mutable state: the registry, starting_index and the event trace. */
  datatype NodeState = NodeState(
    sources: map<string, DetectionSource>,
    startingIndex: nat,
    events: seq<Event>)

  predicate LookupsSucceed(f: FrameInput)
  {
    f.transform.Some? && f.inverseTransform.Some?
  }

  /**
   * A frame whose lookups succeed reaches the remap, so its confidences must
   * be remappable with the configured thresholds; a frame whose lookups fail
   * is skipped before it.
   */
  predicate Admissible(cfg: NodeConfig, f: FrameInput)
  {
    LookupsSucceed(f) ==> Remappable(f.msg.detections, f.msg.frameId, cfg.anchors)
  }

  /** Every frame of the sequence is admissible. */
  predicate AllAdmissible(cfg: NodeConfig, frames: seq<FrameInput>)
  {
    forall i :: 0 <= i < |frames| ==> Admissible(cfg, frames[i])
  }

  /** The events of a frame with at least one detection. */
  function TrackingEvents(cfg: NodeConfig, detections: seq<Detection>, stamp: real, startingIndex: nat): seq<Event>
  {
    [Call(NewFrame(detections)), Call(UpdateTracks)]
    + (if cfg.outputTrackingResults then [Call(ToMsg), Publish(TrackArray(stamp, cfg.worldFrameId, true))] else [])
    + (if cfg.outputMarkers then [Call(ToMarkerArray), Publish(MarkerArray)] else [])
    + (if cfg.outputHistoryPointcloud
       then [Call(AppendToPointCloud(startingIndex, cfg.outputHistorySize)), Publish(HistoryCloud(cfg.worldFrameId))]
       else [])
  }

  /** The events of a frame without detections: at most an empty track list. */
  function EmptyFrameEvents(cfg: NodeConfig, stamp: real): seq<Event>
  {
    if cfg.outputTrackingResults then [Publish(TrackArray(stamp, cfg.worldFrameId, false))] else []
  }

  /**
   * The frame dispatch: the new starting_index and the events a frame with
   * the given detections adds.
   */
  function Dispatch(cfg: NodeConfig, startingIndex: nat, detections: seq<Detection>, stamp: real, historyIndex: nat): (nat, seq<Event>)
  {
    if |detections| > 0 then
      (if cfg.outputHistoryPointcloud then historyIndex else startingIndex,
       TrackingEvents(cfg, detections, stamp, startingIndex))
    else
      (startingIndex, EmptyFrameEvents(cfg, stamp))
  }

  /**
   * The state after one callback and its outcome. A failed lookup leaves the
   * state as it was; otherwise the registry takes the message, and the
   * tracker is driven only when the message has detections.
   */
  function Step(cfg: NodeConfig, s: NodeState, f: FrameInput): (r: (NodeState, Outcome))
    requires Admissible(cfg, f)
    ensures !LookupsSucceed(f) ==> r == (s, TransformUnavailable)
    ensures LookupsSucceed(f) ==> r.1 == Processed
    ensures LookupsSucceed(f) ==> r.0.sources == Registered(s.sources, f.msg.frameId,
      f.transform.value, f.inverseTransform.value, IntrinsicMatrix(f.msg.intrinsics), f.msg.stamp)
    ensures s.sources.Keys <= r.0.sources.Keys && |r.0.sources| <= |s.sources| + 1
    ensures s.events <= r.0.events
    ensures |f.msg.detections| == 0 ==>
      r.0.startingIndex == s.startingIndex && forall k :: |s.events| <= k < |r.0.events| ==> r.0.events[k].Publish?
    ensures LookupsSucceed(f) && |f.msg.detections| > 0 ==>
      |r.0.events| >= |s.events| + 2
      && r.0.events[|s.events|] == Call(NewFrame(Normalized(f.msg.detections, f.msg.frameId, cfg.anchors)))
      && r.0.events[|s.events| + 1] == Call(UpdateTracks)
    ensures r.0.startingIndex != s.startingIndex ==>
      LookupsSucceed(f) && |f.msg.detections| > 0 && cfg.outputHistoryPointcloud
  {
    if !LookupsSucceed(f) then (s, TransformUnavailable)
    else
      var msg := f.msg;
      var sources := Registered(s.sources, msg.frameId, f.transform.value, f.inverseTransform.value,
        IntrinsicMatrix(msg.intrinsics), msg.stamp);
      var detections := Normalized(msg.detections, msg.frameId, cfg.anchors);
      var (index, added) := Dispatch(cfg, s.startingIndex, detections, msg.stamp, f.historyIndex);
      (NodeState(sources, index, s.events + added), Processed)
  }

  /**
   * A frame whose lookups fail is taken whatever its thresholds and
   * detections, and changes nothing: not the registry, not starting_index,
   * not the trace.
   */
  lemma FailedLookupSkipped(cfg: NodeConfig, s: NodeState, f: FrameInput)
    requires !LookupsSucceed(f)
    ensures Admissible(cfg, f)
    ensures Step(cfg, s, f) == (s, TransformUnavailable)
  {
  }

  /** The state after a sequence of callbacks. */
  function Run(cfg: NodeConfig, s: NodeState, frames: seq<FrameInput>): NodeState
    requires AllAdmissible(cfg, frames)
    decreases |frames|
  {
    if |frames| == 0 then s else Run(cfg, Step(cfg, s, frames[0]).0, frames[1..])
  }

  /** The frame ids of the frames whose lookups succeeded. */
  function RegisteredIds(frames: seq<FrameInput>): set<string>
    decreases |frames|
  {
    if |frames| == 0 then {}
    else (if LookupsSucceed(frames[0]) then {frames[0].msg.frameId} else {}) + RegisteredIds(frames[1..])
  }

  /**
   * Over any sequence of callbacks the registry gains exactly the ids of the
   * frames that got through the lookups, loses none, and keeps the entry of
   * every id it did not hear from.
   */
  lemma {:induction false} RunRegistry(cfg: NodeConfig, s: NodeState, frames: seq<FrameInput>)
    requires AllAdmissible(cfg, frames)
    decreases |frames|
    ensures Run(cfg, s, frames).sources.Keys == s.sources.Keys + RegisteredIds(frames)
    ensures forall k :: k in s.sources && k !in RegisteredIds(frames) ==> Run(cfg, s, frames).sources[k] == s.sources[k]
  {
    if |frames| > 0 {
      RunRegistry(cfg, Step(cfg, s, frames[0]).0, frames[1..]);
    }
  }

  /** The registry grows by at most one entry per callback. */
  lemma {:induction false} RunRegistryBound(cfg: NodeConfig, s: NodeState, frames: seq<FrameInput>)
    requires AllAdmissible(cfg, frames)
    decreases |frames|
    ensures |Run(cfg, s, frames).sources| <= |s.sources| + |frames|
  {
    if |frames| > 0 {
      RunRegistryBound(cfg, Step(cfg, s, frames[0]).0, frames[1..]);
    }
  }

  /** The trace only grows: nothing a callback did is undone by a later one. */
  lemma {:induction false} RunExtendsEvents(cfg: NodeConfig, s: NodeState, frames: seq<FrameInput>)
    requires AllAdmissible(cfg, frames)
    decreases |frames|
    ensures s.events <= Run(cfg, s, frames).events
  {
    if |frames| > 0 {
      RunExtendsEvents(cfg, Step(cfg, s, frames[0]).0, frames[1..]);
    }
  }

  /**
   * Callbacks whose messages carry no detections never call the tracker and
   * never move starting_index.
   */
  lemma {:induction false} RunWithoutDetections(cfg: NodeConfig, s: NodeState, frames: seq<FrameInput>)
    requires forall i :: 0 <= i < |frames| ==> |frames[i].msg.detections| == 0
    decreases |frames|
    ensures Run(cfg, s, frames).startingIndex == s.startingIndex
    ensures |s.events| <= |Run(cfg, s, frames).events|
    ensures forall k :: |s.events| <= k < |Run(cfg, s, frames).events| ==> Run(cfg, s, frames).events[k].Publish?
  {
    if |frames| > 0 {
      var s' := Step(cfg, s, frames[0]).0;
      RunWithoutDetections(cfg, s', frames[1..]);
      RunExtendsEvents(cfg, s', frames[1..]);
    }
  }

  /** Without history output starting_index never moves. */
  lemma {:induction false} RunWithoutHistory(cfg: NodeConfig, s: NodeState, frames: seq<FrameInput>)
    requires AllAdmissible(cfg, frames) && !cfg.outputHistoryPointcloud
    decreases |frames|
    ensures Run(cfg, s, frames).startingIndex == s.startingIndex
  {
    if |frames| > 0 {
      RunWithoutHistory(cfg, Step(cfg, s, frames[0]).0, frames[1..]);
    }
  }

  /** The node: its configuration, fixed by main, and its mutable globals. */
  class TrackerNode {
    const config: NodeConfig
    var sources: map<string, DetectionSource>
    var startingIndex: nat
    var events: seq<Event>

    function State(): NodeState
      reads this
    {
      NodeState(sources, startingIndex, events)
    }

    /** main: derive the parameters, fill the gate table, start with an empty registry and index 0. */
    constructor (params: NodeParameters)
      requires params.rate != 0.0
      ensures config == Configure(params)
      ensures config.anchors.Valid() <==> params.minConfidenceSr != params.minConfidenceDetectionsSr
      ensures State() == NodeState(map[], 0, [])
    {
      var minConfidenceDetections: real;
      if params.swissranger {
        minConfidenceDetections := params.groundBasedPeopleDetectionMinConfidence;
      } else {
        minConfidenceDetections := params.haarDispAdaMinConfidence;
      }
      var chiMap := FillChiMap(map[], params.velocityInMotionTerm);
      assert chiMap == ChiTable(params.velocityInMotionTerm);
      ChiTableAt(params.velocityInMotionTerm, |Rows| - 1);
      var period := 1.0 / params.rate;
      var gateDistance := if params.chiValue in chiMap then chiMap[params.chiValue] else chiMap[FallbackProbability];
      var positionVariance := 30.0 * ((2.0 * params.voxelSize) * (2.0 * params.voxelSize)) / 12.0;
      var likelihoodWeights := [];
      likelihoodWeights := likelihoodWeights + [params.detectorWeight * chiMap[FallbackProbability] / ReferenceChiSquare];
      likelihoodWeights := likelihoodWeights + [params.motionWeight];
      assert gateDistance == GateDistance(ChiTable(params.velocityInMotionTerm), params.chiValue);
      assert likelihoodWeights == LikelihoodWeights(params.detectorWeight, params.motionWeight, ChiTable(params.velocityInMotionTerm));
      assert positionVariance == PositionVariance(params.voxelSize);
      assert period == Period(params.rate);
      assert minConfidenceDetections == ReferenceDetectionThreshold(params);
      var settings := TrackerSettings(
        gateDistance, params.detectorLikelihood, likelihoodWeights, params.velocityInMotionTerm,
        params.minConfidence, minConfidenceDetections, params.secBeforeOld, params.secBeforeFake,
        params.secRemainNew, params.detectionsToValidate, period, positionVariance,
        params.accelerationVariance, params.worldFrameId, params.debugMode, params.vertical);
      assert settings == Settings(params);
      config := NodeConfig(
        params.worldFrameId,
        Anchors(params.minConfidenceDetectionsSr, params.minConfidenceSr, minConfidenceDetections, params.minConfidence),
        params.outputTrackingResults, params.outputMarkers, params.outputHistoryPointcloud,
        params.outputHistorySize, settings);
      sources := map[];
      startingIndex := 0;
      events := [];
    }

    /**
     * The resolve-or-create step of detection_cb: add a new detection source
     * for an unseen frame id, update the existing one otherwise.
     */
    method ResolveOrCreate(frameId: string, transform: Pose, inverseTransform: Pose, intrinsics: seq<seq<real>>, stamp: real)
      modifies this`sources
      ensures sources == Registered(old(sources), frameId, transform, inverseTransform, intrinsics, stamp)
    {
      if frameId !in sources {
        sources := sources[frameId := DetectionSource(frameId, transform, inverseTransform, intrinsics, stamp, None)];
      } else {
        var previous := sources[frameId].stamp;
        sources := sources[frameId := DetectionSource(frameId, transform, inverseTransform, intrinsics, stamp, Some(previous))];
      }
    }

    /**
     * The dispatch step of detection_cb: drive the tracker and publish its
     * output when there are detections, publish an empty track list otherwise.
     */
    method DispatchFrame(detections: seq<Detection>, stamp: real, historyIndex: nat)
      modifies this`events, this`startingIndex
      ensures startingIndex == Dispatch(config, old(startingIndex), detections, stamp, historyIndex).0
      ensures events == old(events) + Dispatch(config, old(startingIndex), detections, stamp, historyIndex).1
    {
      if |detections| > 0 {
        ghost var start := startingIndex;
        events := events + [Call(NewFrame(detections))];
        events := events + [Call(UpdateTracks)];
        if config.outputTrackingResults {
          events := events + [Call(ToMsg), Publish(TrackArray(stamp, config.worldFrameId, true))];
        }
        if config.outputMarkers {
          events := events + [Call(ToMarkerArray), Publish(MarkerArray)];
        }
        if config.outputHistoryPointcloud {
          events := events + [Call(AppendToPointCloud(startingIndex, config.outputHistorySize))];
          startingIndex := historyIndex;
          events := events + [Publish(HistoryCloud(config.worldFrameId))];
        }
        assert events == old(events) + TrackingEvents(config, detections, stamp, start);
      } else {
        if config.outputTrackingResults {
          events := events + [Publish(TrackArray(stamp, config.worldFrameId, false))];
        }
      }
    }

    /** detection_cb: one message, with the two lookups' results and the history append's result. */
    method DetectionCallback(input: FrameInput) returns (outcome: Outcome)
      requires Admissible(config, input)
      modifies this
      ensures (State(), outcome) == Step(config, old(State()), input)
    {
      var msg := input.msg;
      var frameId := msg.frameId;
      if input.transform.None? || input.inverseTransform.None? {
        // the lookup threw: the frame is skipped and reported
        return TransformUnavailable;
      }
      var transform, inverseTransform := input.transform.value, input.inverseTransform.value;
      var intrinsics := ReadIntrinsics(msg.intrinsics);
      forall i | 0 <= i < 3 ensures intrinsics[i] == IntrinsicMatrix(msg.intrinsics)[i] {
        assert forall j :: 0 <= j < 3 ==> intrinsics[i][j] == IntrinsicMatrix(msg.intrinsics)[i][j];
      }
      assert intrinsics == IntrinsicMatrix(msg.intrinsics);
      ResolveOrCreate(frameId, transform, inverseTransform, intrinsics, msg.stamp);

      var detections := BuildDetections(msg.detections, frameId);
      if IsSwissRangerFrame(frameId) {
        detections := RemapConfidences(detections, config.anchors);
      }
      assert detections == Normalized(msg.detections, frameId, config.anchors);

      DispatchFrame(detections, msg.stamp, input.historyIndex);
      outcome := Processed;
    }
  }
}
