# Tracker node decision layer (open_ptrack)

This project models, in Dafny, the decision layer that the open_ptrack tracker
node (`tracking/apps/tracker_node.cpp`) runs in front of the people tracker:

- **Gate table** (`Gating`): `fillChiMap` writes ten chi-square critical values
  keyed by acceptance probability (state dimension 4 when velocity is in the
  motion term, 2 otherwise); `main` looks the configured probability up and
  falls back to the 0.999 entry.
- **Confidence calibration** (`Calibration`, `Detections`): a frame whose id
  starts with `SR` (tested through `substr(0, 2)` and `strcmp`, so `""` and
  `"S"` do not match) has every detection confidence sent through the affine
  map `c' = (c - d0)/(i0 - d0)*(i1 - d1) + d1`, which takes `d0` to `d1` and
  `i0` to `i1` and extrapolates without clamping.
- **Detection-source registry** (`Registry`): a map from sensor frame id to the
  source's pose, inverse pose, intrinsics and stamp; an unseen id is added, a
  known one updated, none removed.
- **Derived parameters** (`Parameters`): reference detection threshold chosen by
  the `swissranger` flag, `period = 1/rate`, `position_variance =
  30*(2*voxel_size)^2/12 = 10*voxel_size^2`, likelihood weights
  `[detector_weight*chi[0.999]/18.467, motion_weight]`, and the defaults.
- **Per-frame callback** (`Node`): `Step` is the specification of one call of
  `detection_cb` on the node's state (registry, `starting_index`, and the
  ordered trace of tracker calls and published messages); `Run` folds it over a
  sequence of frames. The class `TrackerNode` holds that state as fields; its
  constructor is `main`'s start-up and `DetectionCallback` is proved to produce
  exactly the state and outcome `Step` gives.

Transform lookups are inputs of type `Option<Pose>`; a failed lookup
(`None`) skips the frame with `TransformUnavailable` and changes nothing. The
tracker itself is not modelled: its calls are recorded in the trace, and the
index `appendToPointCloud` returns is an input of the frame.

Two consequences of the code are worth stating directly:

- A frame without detections calls nothing on the tracker: existing tracks
  are neither aged nor reported, and an empty track list is published when
  tracking results are output
  (`Node.Step`, `Node.RunWithoutDetections`).
- With the default thresholds the reference detection and initialisation
  thresholds are both -2.5, so every SwissRanger confidence is sent to -2.5
  (`Parameters.DefaultRemapIsConstant`). The remap is a bijection only when
  the two reference thresholds differ (`Calibration.RemapBijective`).

## Model

| member | source | states |
|---|---|---|
| `Gating.FillChiMap` | tracking/apps/tracker_node.cpp:245-274 | the filled map is the given map with the ten probability keys of the chosen dimension overwritten by the tabulated values and every other key kept |
| `Gating.ChiTableAt` | tracking/apps/tracker_node.cpp:248-273 | each tabulated probability is a key of the table and maps to that row's value for the chosen dimension |
| `Gating.ChiTableKeys` | tracking/apps/tracker_node.cpp:250-272 | the keys are exactly 0.5, 0.75, 0.8, 0.9, 0.95, 0.98, 0.99, 0.995, 0.998, 0.999 for both dimensions |
| `Gating.GateDistance` | tracking/apps/tracker_node.cpp:372 | the gate distance is always one of the table's values, and the configured probability's own entry when it is a key |
| `Gating.GateDistanceTabulated` | tracking/apps/tracker_node.cpp:372 | for each of the ten keys the gate distance is exactly the tabulated value of the chosen dimension |
| `Gating.GateDistanceFallback` | tracking/apps/tracker_node.cpp:372 | any probability that is not a key yields the 0.999 entry: 18.467 with velocity, 13.816 without |
| `Gating.ChiTableIncreasing` | tracking/apps/tracker_node.cpp:250-272 | within a table a larger probability has a strictly larger critical value |
| `Gating.Dim4ExceedsDim2` | tracking/apps/tracker_node.cpp:248-273 | both tables have the same keys and the dimension-4 value exceeds the dimension-2 value at each |
| `Calibration.Substr` | tracking/apps/tracker_node.cpp:153 | `substr(pos, n)` yields the characters from pos on, n of them or up to the end if fewer remain |
| `Calibration.CString` | tracking/apps/tracker_node.cpp:153 | what `c_str()` shows `strcmp` is the longest NUL-free prefix, ended by the end of the string or a NUL |
| `Calibration.IsSwissRangerFrame` | tracking/apps/tracker_node.cpp:153 | a frame id passes the SwissRanger test if and only if it has at least two characters and they are 'S' and 'R' |
| `Calibration.Remap` | tracking/apps/tracker_node.cpp:157-159 | the remapped confidence stands to d1 and i1 as the input stands to d0 and i0: (c' - d1)(i0 - d0) = (c - d0)(i1 - d1) |
| `Calibration.RemapAnchors` | tracking/apps/tracker_node.cpp:158-159 | d0 is sent to d1 and i0 to i1 |
| `Calibration.RemapBijective` | tracking/apps/tracker_node.cpp:158-159 | when i1 differs from d1 the remap and its inverse undo each other in both directions |
| `Calibration.RemapExtrapolates` | tracking/apps/tracker_node.cpp:155-161 | with both scales increasing the remap is strictly increasing and does not clamp: above i0 lands above i1, below d0 lands below d1 |
| `Calibration.RemapCollapses` | tracking/apps/tracker_node.cpp:158-159 | when i1 equals d1 every confidence is sent to d1 |
| `Detections.BuildDetections` | tracking/apps/tracker_node.cpp:144-150 | one detection per message record, in message order, carrying the record, its confidence and the frame's source |
| `Detections.RemapConfidences` | tracking/apps/tracker_node.cpp:155-161 | same length and order; every confidence is remapped and record and source are untouched |
| `Detections.Normalized` | tracking/apps/tracker_node.cpp:144-162 | defined whenever the remap has no confidence to rewrite or the SwissRanger thresholds differ; the tracker's detections keep the records' order and source; confidences are remapped exactly for SwissRanger frames and unchanged otherwise |
| `Registry.ReadIntrinsics` | tracking/apps/tracker_node.cpp:123-127 | the 3x3 matrix has entry (i, j) equal to message entry 3i + j |
| `Registry.IntrinsicRoundTrip` | tracking/apps/tracker_node.cpp:123-127 | reading the matrix from the message and writing it back row by row are mutually inverse |
| `Registry.Registered` | tracking/apps/tracker_node.cpp:129-142 | the registry then holds the frame id, grows by one key exactly when the id was new, keeps every other entry, and the id's entry carries the new pose, inverse, intrinsics and stamp (and the replaced stamp when it was known) |
| `Parameters.RemapOntoTrackerScale` | tracking/apps/tracker_node.cpp:158-159 | min_confidence_detections_sr is remapped onto the tracker's detection threshold (the ground-based detector's with SwissRangers, HaarDispAda's otherwise, :360-364, :392) and min_confidence_sr onto min_confidence |
| `Parameters.Period` | tracking/apps/tracker_node.cpp:370 | period times rate is one, and the period is positive exactly when the rate is |
| `Parameters.PositionVariance` | tracking/apps/tracker_node.cpp:374-376 | the variance equals 10 voxel_size squared and is never negative |
| `Parameters.LikelihoodWeights` | tracking/apps/tracker_node.cpp:377-379 | two weights; the second is the motion weight; the first times 18.467 equals the detector weight times the 0.999 entry |
| `Parameters.LikelihoodWeightsByDimension` | tracking/apps/tracker_node.cpp:377-379 | with velocity in the motion term the first weight is the detector weight itself; without, it is scaled by 13.816/18.467 |
| `Parameters.Settings` | tracking/apps/tracker_node.cpp:366-379 | the tracker's constructor arguments: period times rate is one, position variance non-negative, two likelihood weights |
| `Parameters.AnchorsOf` | tracking/apps/tracker_node.cpp:158-159 | d0 is min_confidence_detections_sr, i0 min_confidence_sr, d1 the reference detection threshold chosen by the swissranger flag (:360-364), i1 min_confidence; the anchors are usable exactly when d0 and i0 differ |
| `Parameters.Configure` | tracking/apps/tracker_node.cpp:342-404 | what main leaves for the callback: the remap's reference thresholds are the tracker's detection threshold and min_confidence, the world frame and output switches are the parameters' |
| `Parameters.DefaultParameters` | tracking/apps/tracker_node.cpp:295-358 | the defaults main falls back to have a positive rate, distinct SwissRanger thresholds and a tabulated acceptance probability, so every derivation is defined on them |
| `Parameters.DefaultSettings` | tracking/apps/tracker_node.cpp:294-379 | with the default parameters: gate 4.605, period 1/30, position variance 0.05625, weights [-13.816/18.467, 0.5], detection threshold -2.5 |
| `Parameters.DefaultRemapIsConstant` | tracking/apps/tracker_node.cpp:342-364 | with the default thresholds every SwissRanger confidence is remapped to -2.5 |
| `Node.Step` | tracking/apps/tracker_node.cpp:96-243 | a failed lookup leaves the state unchanged and reports it; otherwise the registry takes the message, no key is lost and at most one is added, the trace only grows, an empty frame neither calls the tracker nor moves starting_index, a non-empty one calls newFrame with the normalized detections and then updateTracks, and starting_index moves only for a non-empty frame with history output on |
| `Node.FailedLookupSkipped` | tracking/apps/tracker_node.cpp:118-119 | a frame whose transform lookups fail is accepted whatever its thresholds and detections, and leaves registry, starting_index and trace unchanged, reporting the failed lookup |
| `Node.RunRegistry` | tracking/apps/tracker_node.cpp:129-142 | over any sequence of frames the registry's keys are the initial ones plus the ids of the frames whose lookups succeeded, and entries of ids not heard from are unchanged |
| `Node.RunRegistryBound` | tracking/apps/tracker_node.cpp:129-142 | the registry grows by at most one entry per frame |
| `Node.RunExtendsEvents` | tracking/apps/tracker_node.cpp:164-233 | the trace of tracker calls and publications only grows |
| `Node.RunWithoutDetections` | tracking/apps/tracker_node.cpp:224-233 | frames without detections never call the tracker and never move starting_index |
| `Node.RunWithoutHistory` | tracking/apps/tracker_node.cpp:214-222 | without history output starting_index never moves |
| `Node.TrackerNode.constructor` | tracking/apps/tracker_node.cpp:360-404 | the node starts with the configuration main derives, an empty registry, starting_index 0 and no events; its remap thresholds are usable exactly when min_confidence_sr differs from min_confidence_detections_sr |
| `Node.TrackerNode.ResolveOrCreate` | tracking/apps/tracker_node.cpp:129-142 | the registry field becomes the registry after the message |
| `Node.TrackerNode.DispatchFrame` | tracking/apps/tracker_node.cpp:164-233 | starting_index and the trace become what the frame dispatch specifies for the detections |
| `Node.TrackerNode.DetectionCallback` | tracking/apps/tracker_node.cpp:96-243 | the node's new state and the outcome are exactly those of Step on the old state |

## Left out

- ROS plumbing: subscribers, publishers, `ros::spin`, `ros::Rate` (built from `num_cameras*rate`) and reading the parameters through `nh.param`; `DefaultParameters` records only the defaults.
- The transform broadcaster that publishes a fixed camera transform when extrinsic calibration is off, and the fixed quaternions main sets up: foreign calls with no effect on the modelled state.
- The transform lookups: each is an `Option<Pose>` input; which of the two failed and the logged message are not modelled.
- The tracker (`newFrame`, `updateTracks`, `toMsg`, `toMarkerArray`, `appendToPointCloud`): its source is not part of this model, so its calls are events in a trace and the index `appendToPointCloud` returns is an input.
- `DetectionSource` and `Detection`: their source is not part of this model. A registry entry is a value (not a shared pointer), an update is modelled as replacing pose, inverse pose, intrinsics and stamp while keeping the replaced stamp, and a detection refers to its source by frame id; the world-frame position a `Detection` computes is not modelled, and a new detection is taken to start with its record's confidence.
- The `lostFrames` value computed after an update: it rounds a floating-point duration and is never used.
- The conversion of the history cloud's stamp to microseconds and the commented-out image display; the empty image handed to each source.
- IEEE floating point: all quantities are reals, so no rounding, infinity or NaN is modelled.
- Parameters.Period: requires a non-zero rate; the source divides by zero to infinity. Parameters.Settings and Parameters.Configure inherit this requirement.
- Calibration.Remap: requires min_confidence_sr to differ from min_confidence_detections_sr; the source would produce infinity or NaN.
- Node.TrackerNode.constructor: requires a non-zero rate, for the reason above.
- Detections.Normalized: requires distinct SwissRanger thresholds only for a SwissRanger frame with at least one detection, where the source would divide by zero to infinity or NaN.
- Node.Step: requires a frame whose lookups succeed to satisfy Detections.Normalized's condition, for the same reason (a frame whose lookups fail is always accepted); Node.Run and the Run lemmas require it of every frame.
- Node.TrackerNode.DetectionCallback: requires a frame whose lookups succeed to satisfy Detections.Normalized's condition, as Node.Step does.
- Parameters.LikelihoodWeightsByDimension: over reals `detector_weight*18.467/18.467` is exactly `detector_weight`; in doubles it may differ in the last bit.
- The `std::map<double, double>` lookup compares keys for exact equality; over reals this is the same test, assuming the configured probability parses to the same double as the literal key.
