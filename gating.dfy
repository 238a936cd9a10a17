/**
 * The chi-square gate table of the tracker node (fillChiMap) and the gate
 * distance lookup done in main: an acceptance probability and the state
 * dimension select the squared Mahalanobis distance a detection may lie from
 * a track's prediction.
 */
module Gating {

  /** One row of the chi-square table: a probability and its critical values. */
  datatype ChiRow = ChiRow(probability: real, dim2: real, dim4: real)

  /** The table as published, in increasing order of probability. */
  const Rows: seq<ChiRow> := [
    ChiRow(0.5,   1.386,  3.357),
    ChiRow(0.75,  2.773,  5.385),
    ChiRow(0.8,   3.219,  5.989),
    ChiRow(0.9,   4.605,  7.779),
    ChiRow(0.95,  5.991,  9.488),
    ChiRow(0.98,  7.824, 11.668),
    ChiRow(0.99,  9.210, 13.277),
    ChiRow(0.995, 10.597, 14.860),
    ChiRow(0.998, 12.429, 16.924),
    ChiRow(0.999, 13.816, 18.467)
  ]

  /** The probability whose entry is used when the configured one is not a key. */
  const FallbackProbability: real := 0.999

  /** The divisor main uses to rescale the detector weight. */
  const ReferenceChiSquare: real := 18.467

  /** The critical value of a row for the chosen state dimension (4 with velocity, 2 without). */
  function Critical(row: ChiRow, velocityInMotionTerm: bool): real
  {
    if velocityInMotionTerm then row.dim4 else row.dim2
  }

  /** The map fillChiMap writes, built from the rows. */
  function ChiTable(velocityInMotionTerm: bool): map<real, real>
  {
    var v := velocityInMotionTerm;
    map[Rows[0].probability := Critical(Rows[0], v), Rows[1].probability := Critical(Rows[1], v),
        Rows[2].probability := Critical(Rows[2], v), Rows[3].probability := Critical(Rows[3], v),
        Rows[4].probability := Critical(Rows[4], v), Rows[5].probability := Critical(Rows[5], v),
        Rows[6].probability := Critical(Rows[6], v), Rows[7].probability := Critical(Rows[7], v),
        Rows[8].probability := Critical(Rows[8], v), Rows[9].probability := Critical(Rows[9], v)]
  }

  /**
   * fillChiMap: writes the ten entries of the chosen dimension into the given
   * map, overwriting those keys and leaving every other key as it was.
   */
  method FillChiMap(chiMap: map<real, real>, velocityInMotionTerm: bool) returns (filled: map<real, real>)
    ensures filled == chiMap + ChiTable(velocityInMotionTerm)
  {
    filled := chiMap;
    if velocityInMotionTerm {
      // chi-square values with state dimension 4
      filled := filled[0.5 := 3.357];
      filled := filled[0.75 := 5.385];
      filled := filled[0.8 := 5.989];
      filled := filled[0.9 := 7.779];
      filled := filled[0.95 := 9.488];
      filled := filled[0.98 := 11.668];
      filled := filled[0.99 := 13.277];
      filled := filled[0.995 := 14.860];
      filled := filled[0.998 := 16.924];
      filled := filled[0.999 := 18.467];
    } else {
      // chi-square values with state dimension 2
      filled := filled[0.5 := 1.386];
      filled := filled[0.75 := 2.773];
      filled := filled[0.8 := 3.219];
      filled := filled[0.9 := 4.605];
      filled := filled[0.95 := 5.991];
      filled := filled[0.98 := 7.824];
      filled := filled[0.99 := 9.210];
      filled := filled[0.995 := 10.597];
      filled := filled[0.998 := 12.429];
      filled := filled[0.999 := 13.816];
    }
  }

  /** The gate distance main computes: the entry for the configured probability, else the 0.999 entry. */
  function GateDistance(chiMap: map<real, real>, chiValue: real): (g: real)
    requires FallbackProbability in chiMap
    ensures g in chiMap.Values
    ensures chiValue in chiMap ==> g == chiMap[chiValue]
  {
    if chiValue in chiMap then chiMap[chiValue] else chiMap[FallbackProbability]
  }

  /** Every row's probability is a key of the table, mapped to that row's value. */
  lemma ChiTableAt(velocityInMotionTerm: bool, i: int)
    requires 0 <= i < |Rows|
    ensures Rows[i].probability in ChiTable(velocityInMotionTerm)
    ensures ChiTable(velocityInMotionTerm)[Rows[i].probability] == Critical(Rows[i], velocityInMotionTerm)
  {
  }

  /** The keys fillChiMap writes, whichever dimension is chosen. */
  lemma ChiTableKeys(velocityInMotionTerm: bool)
    ensures ChiTable(velocityInMotionTerm).Keys == {0.5, 0.75, 0.8, 0.9, 0.95, 0.98, 0.99, 0.995, 0.998, 0.999}
  {
  }

  /** A tabulated probability selects exactly its tabulated value. */
  lemma GateDistanceTabulated(velocityInMotionTerm: bool, i: int)
    requires 0 <= i < |Rows|
    ensures FallbackProbability in ChiTable(velocityInMotionTerm)
    ensures GateDistance(ChiTable(velocityInMotionTerm), Rows[i].probability) == Critical(Rows[i], velocityInMotionTerm)
  {
    ChiTableAt(velocityInMotionTerm, i);
    ChiTableAt(velocityInMotionTerm, |Rows| - 1);
  }

  /** Any other probability falls back to the 0.999 entry: 18.467 with velocity, 13.816 without. */
  lemma GateDistanceFallback(velocityInMotionTerm: bool, chiValue: real)
    requires forall i :: 0 <= i < |Rows| ==> Rows[i].probability != chiValue
    ensures FallbackProbability in ChiTable(velocityInMotionTerm)
    ensures GateDistance(ChiTable(velocityInMotionTerm), chiValue) == if velocityInMotionTerm then 18.467 else 13.816
  {
    ChiTableAt(velocityInMotionTerm, |Rows| - 1);
  }

  /** Within each table the critical value strictly increases with the probability. */
  lemma ChiTableIncreasing(velocityInMotionTerm: bool, p: real, q: real)
    requires p in ChiTable(velocityInMotionTerm) && q in ChiTable(velocityInMotionTerm)
    requires p < q
    ensures ChiTable(velocityInMotionTerm)[p] < ChiTable(velocityInMotionTerm)[q]
  {
  }

  /** The dimension-4 table has the same keys as the dimension-2 one and a larger value at each. */
  lemma Dim4ExceedsDim2(p: real)
    ensures p in ChiTable(true) <==> p in ChiTable(false)
    ensures p in ChiTable(true) ==> ChiTable(true)[p] > ChiTable(false)[p]
  {
  }
}
