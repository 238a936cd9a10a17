/**
 * The detection-source registry of the tracker node: a map from sensor frame
 * id to the DetectionSource of that sensor, resolved or created on every
 * message, never shrunk.
 */
module Registry {
  import opened Wrappers
  import opened Messages

  /** The 3x3 intrinsic matrix the callback reads out of the message, row i, column j = entry 3i + j. */
  function IntrinsicMatrix(flat: IntrinsicArray): seq<seq<real>>
  {
    seq(3, i requires 0 <= i < 3 => seq(3, j requires 0 <= j < 3 => flat[i * 3 + j]))
  }

  predicate Is3x3(m: seq<seq<real>>)
  {
    |m| == 3 && forall i :: 0 <= i < 3 ==> |m[i]| == 3
  }

  /** The nine entries of a 3x3 matrix, row by row. */
  function RowMajor(m: seq<seq<real>>): seq<real>
    requires Is3x3(m)
  {
    m[0] + m[1] + m[2]
  }

  /** Reading the matrix out of the message and writing it back row by row are inverse. */
  lemma IntrinsicRoundTrip(flat: IntrinsicArray, m: seq<seq<real>>)
    requires Is3x3(m)
    ensures Is3x3(IntrinsicMatrix(flat)) && RowMajor(IntrinsicMatrix(flat)) == flat
    ensures |RowMajor(m)| == 9 && IntrinsicMatrix(RowMajor(m)) == m
  {
    var back := RowMajor(IntrinsicMatrix(flat));
    assert |back| == 9;
    forall k | 0 <= k < 9 ensures back[k] == flat[k] {
      assert back[k] == IntrinsicMatrix(flat)[k / 3][k % 3];
    }
    var flat' := RowMajor(m);
    var m' := IntrinsicMatrix(flat');
    forall i | 0 <= i < 3 ensures m'[i] == m[i] {
      forall j | 0 <= j < 3 ensures m'[i][j] == m[i][j] {
        assert flat'[i * 3 + j] == m[i][j];
      }
    }
  }

  /** The nested loop that copies the message's intrinsics into the matrix. */
  method ReadIntrinsics(flat: IntrinsicArray) returns (m: seq<seq<real>>)
    ensures Is3x3(m)
    ensures forall i, j :: 0 <= i < 3 && 0 <= j < 3 ==> m[i][j] == flat[i * 3 + j]
  {
    m := [[0.0, 0.0, 0.0], [0.0, 0.0, 0.0], [0.0, 0.0, 0.0]];
    for i := 0 to 3
      invariant Is3x3(m)
      invariant forall r, c :: 0 <= r < i && 0 <= c < 3 ==> m[r][c] == flat[r * 3 + c]
    {
      for j := 0 to 3
        invariant Is3x3(m)
        invariant forall r, c :: 0 <= r < i && 0 <= c < 3 ==> m[r][c] == flat[r * 3 + c]
        invariant forall c :: 0 <= c < j ==> m[i][c] == flat[i * 3 + c]
      {
        m := m[i := m[i][j := flat[i * 3 + j]]];
      }
    }
  }

  /**
   * What the registry keeps of a sensor: its frame id, the sensor-to-world
   * transform and its inverse, the intrinsics, the stamp of the last message
   * and, once updated, the stamp that message replaced.
   */
  datatype DetectionSource = DetectionSource(
    frameId: string,
    transform: Pose,
    inverseTransform: Pose,
    intrinsics: seq<seq<real>>,
    stamp: real,
    previousStamp: Option<real>)

  /**
   * The registry after a message from frameId: a new source for an unseen id,
   * the existing one updated for a known id.
   */
  function Registered(
    registry: map<string, DetectionSource>,
    frameId: string, transform: Pose, inverseTransform: Pose,
    intrinsics: seq<seq<real>>, stamp: real): (r: map<string, DetectionSource>)
    ensures r.Keys == registry.Keys + {frameId}
    ensures |r| == if frameId in registry then |registry| else |registry| + 1
    ensures forall k :: k in registry && k != frameId ==> r[k] == registry[k]
    ensures r[frameId].frameId == frameId && r[frameId].stamp == stamp && r[frameId].intrinsics == intrinsics
    ensures r[frameId].transform == transform && r[frameId].inverseTransform == inverseTransform
    ensures r[frameId].previousStamp == if frameId in registry then Some(registry[frameId].stamp) else None
  {
    var previous := if frameId in registry then Some(registry[frameId].stamp) else None;
    var r := registry[frameId := DetectionSource(frameId, transform, inverseTransform, intrinsics, stamp, previous)];
    assert r.Keys == registry.Keys + {frameId};
    r
  }
}
