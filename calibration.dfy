/**
 * Confidence recalibration of the tracker node: the SwissRanger frame test
 * (first two characters of the frame id compared with "SR" through
 * std::string::substr and strcmp) and the affine map that carries a
 * SwissRanger confidence onto the reference detector's scale.
 */
module Calibration {

  /** std::string::substr(pos, count): at most count characters starting at pos. */
  function Substr(s: string, pos: nat, count: nat): (r: string)
    requires pos <= |s|
    ensures |r| <= count && pos + |r| <= |s|
    ensures |r| == count || pos + |r| == |s|
    ensures r == s[pos..pos + |r|]
  {
    if pos + count <= |s| then s[pos..pos + count] else s[pos..]
  }

  /** What strcmp sees of a std::string through c_str(): the characters before the first NUL. */
  function CString(s: string): (r: string)
    ensures |r| <= |s| && r == s[..|r|]
    ensures forall k :: 0 <= k < |r| ==> r[k] != '\0'
    ensures |r| < |s| ==> s[|r|] == '\0'
  {
    if |s| == 0 || s[0] == '\0' then "" else [s[0]] + CString(s[1..])
  }

  /** strcmp(a.c_str(), b.c_str()) == 0. */
  predicate StrcmpEqual(a: string, b: string)
  {
    CString(a) == CString(b)
  }

  /**
   * The test at the head of the remap, !strcmp(frame_id.substr(0, 2).c_str(), "SR"):
   * it holds exactly when the first two characters are 'S' and 'R', so in
   * particular "" and "S" do not pass.
   */
  predicate IsSwissRangerFrame(frameId: string)
    ensures IsSwissRangerFrame(frameId) <==> |frameId| >= 2 && frameId[0] == 'S' && frameId[1] == 'R'
  {
    var sub := Substr(frameId, 0, 2);
    assert CString("SR") == "SR" by {
      assert "SR"[1..] == "R";
      assert "R"[1..] == "";
    }
    assert |frameId| >= 2 && frameId[0] == 'S' && frameId[1] == 'R' ==> sub == "SR";
    assert CString(sub) == "SR" ==> |sub| == 2;
    StrcmpEqual(sub, "SR")
  }

  /**
   * The four thresholds of the remap: the SwissRanger detection and
   * initialisation thresholds (d0, i0) and the reference ones (d1, i1).
   */
  datatype Anchors = Anchors(
    sourceDetection: real,
    sourceInitialization: real,
    referenceDetection: real,
    referenceInitialization: real)
  {
    /** The remap divides by i0 - d0. */
    predicate Valid()
    {
      sourceInitialization != sourceDetection
    }
  }

  /**
   * The remapped confidence c' = (c - d0) / (i0 - d0) * (i1 - d1) + d1: the
   * point of the reference scale that lies where c lies relative to d0 and i0.
   */
  function Remap(c: real, a: Anchors): (r: real)
    requires a.Valid()
    ensures (r - a.referenceDetection) * (a.sourceInitialization - a.sourceDetection)
         == (c - a.sourceDetection) * (a.referenceInitialization - a.referenceDetection)
  {
    var q := (c - a.sourceDetection) / (a.sourceInitialization - a.sourceDetection);
    assert q * (a.sourceInitialization - a.sourceDetection) == c - a.sourceDetection;
    q * (a.referenceInitialization - a.referenceDetection) + a.referenceDetection
  }

  /** The remap sends d0 to d1 and i0 to i1. */
  lemma RemapAnchors(a: Anchors)
    requires a.Valid()
    ensures Remap(a.sourceDetection, a) == a.referenceDetection
    ensures Remap(a.sourceInitialization, a) == a.referenceInitialization
  {
  }

  /** The inverse affine map, defined when the reference thresholds differ. */
  function Unmap(r: real, a: Anchors): real
    requires a.referenceInitialization != a.referenceDetection
  {
    (r - a.referenceDetection) / (a.referenceInitialization - a.referenceDetection)
      * (a.sourceInitialization - a.sourceDetection) + a.sourceDetection
  }

  /** With distinct reference thresholds the remap is a bijection of the reals. */
  lemma RemapBijective(c: real, r: real, a: Anchors)
    requires a.Valid() && a.referenceInitialization != a.referenceDetection
    ensures Unmap(Remap(c, a), a) == c
    ensures Remap(Unmap(r, a), a) == r
  {
    var di := a.sourceInitialization - a.sourceDetection;
    var dr := a.referenceInitialization - a.referenceDetection;
    var x := Remap(c, a);
    assert (x - a.referenceDetection) * di == (c - a.sourceDetection) * dr;
    assert (x - a.referenceDetection) / dr == (c - a.sourceDetection) / di;
    var y := Unmap(r, a);
    assert (y - a.sourceDetection) / di == (r - a.referenceDetection) / dr;
  }

  /**
   * When both scales run the same way the remap is strictly increasing and it
   * does not clamp: confidences beyond the anchors stay beyond them.
   */
  lemma RemapExtrapolates(c: real, c': real, a: Anchors)
    requires a.sourceInitialization > a.sourceDetection
    requires a.referenceInitialization > a.referenceDetection
    ensures c < c' ==> Remap(c, a) < Remap(c', a)
    ensures c > a.sourceInitialization ==> Remap(c, a) > a.referenceInitialization
    ensures c < a.sourceDetection ==> Remap(c, a) < a.referenceDetection
  {
    var k := (a.referenceInitialization - a.referenceDetection) / (a.sourceInitialization - a.sourceDetection);
    assert k > 0.0;
    RemapOnLine(c, a);
    RemapOnLine(c', a);
    RemapOnLine(a.sourceInitialization, a);
    RemapAnchors(a);
    if c < c' {
      ScaleMonotone(c - a.sourceDetection, c' - a.sourceDetection, k);
    }
    if c > a.sourceInitialization {
      ScaleMonotone(a.sourceInitialization - a.sourceDetection, c - a.sourceDetection, k);
    }
    if c < a.sourceDetection {
      ScaleMonotone(c - a.sourceDetection, 0.0, k);
    }
  }

  /** The remap as a line through (d0, d1) with slope (i1 - d1) / (i0 - d0). */
  lemma RemapOnLine(c: real, a: Anchors)
    requires a.Valid()
    ensures Remap(c, a) == a.referenceDetection
      + (c - a.sourceDetection) * ((a.referenceInitialization - a.referenceDetection) / (a.sourceInitialization - a.sourceDetection))
  {
  }

  lemma ScaleMonotone(x: real, y: real, k: real)
    requires x < y && k > 0.0
    ensures x * k < y * k
  {
  }

  /** When the reference thresholds coincide every confidence is sent to that one value. */
  lemma RemapCollapses(c: real, a: Anchors)
    requires a.Valid() && a.referenceInitialization == a.referenceDetection
    ensures Remap(c, a) == a.referenceDetection
  {
  }
}
