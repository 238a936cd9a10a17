/** The records the tracker node receives: a DetectionArray message and its detections. */
module Messages {

  datatype Point3 = Point3(x: real, y: real, z: real)

  /** A rigid transform as the transform listener returns it: a translation and a quaternion. */
  datatype Pose = Pose(translation: Point3, qx: real, qy: real, qz: real, qw: real)

  /** The intrinsic calibration matrix of a message: nine numbers, row by row. */
  type IntrinsicArray = s: seq<real> | |s| == 9 witness [0.0, 0.0, 0.0, 0.0, 0.0, 0.0, 0.0, 0.0, 0.0]

  /** One detection of a message; the fields the node does not read are not modelled. */
  datatype DetectionMsg = DetectionMsg(centroid: Point3, confidence: real)

  /** A DetectionArray message: header (frame id, stamp), intrinsics and the detections. */
  datatype DetectionArrayMsg = DetectionArrayMsg(
    frameId: string,
    stamp: real,
    intrinsics: IntrinsicArray,
    detections: seq<DetectionMsg>)
}
