/**
 * The material-removal stub of src/wedm/modules/material.py: every fresh
 * spark advances the workpiece face by a fixed 0.0005.
 */
module Material {
  import opened EdmState

  /** Workpiece advance per fresh spark. */
  const REMOVAL_PER_SPARK: real := 0.0005

  /** How far one update moves the workpiece face, given the spark status it sees. */
  function Advance(status: SparkStatus): (r: real)
    ensures IsFreshSpark(status) <==> r > 0.0
    ensures r == 0.0 || r == REMOVAL_PER_SPARK
  {
    if IsFreshSpark(status) then REMOVAL_PER_SPARK else 0.0
  }

  /** The number of fresh sparks among successive statuses. */
  function FreshSparkCount(statuses: seq<SparkStatus>): (n: nat)
    ensures n <= |statuses|
  {
    if statuses == [] then 0
    else (if IsFreshSpark(statuses[0]) then 1 else 0) + FreshSparkCount(statuses[1..])
  }

  /** The workpiece position after one update per status, in order. */
  function PositionAfter(position: real, statuses: seq<SparkStatus>): real
    decreases |statuses|
  {
    if statuses == [] then position
    else PositionAfter(position + Advance(statuses[0]), statuses[1..])
  }

  /**
   * Over any run the workpiece advances by exactly 0.0005 per fresh spark and
   * never moves back.
   */
  lemma {:induction false} RemovalAccumulates(position: real, statuses: seq<SparkStatus>)
    ensures PositionAfter(position, statuses) ==
            position + REMOVAL_PER_SPARK * FreshSparkCount(statuses) as real
    ensures PositionAfter(position, statuses) >= position
    decreases |statuses|
  {
    if statuses != [] {
      RemovalAccumulates(position + Advance(statuses[0]), statuses[1..]);
    }
  }

  class MaterialRemovalModule {
    constructor () {}

    /** update: only a spark of duration 0 removes material. */
    method Update(state: EDMState)
      modifies state`workpiecePosition
      ensures state.workpiecePosition == old(state.workpiecePosition) + Advance(state.sparkStatus)
    {
      if state.sparkStatus.tag == SPARK && state.sparkStatus.duration == 0 {
        state.workpiecePosition := state.workpiecePosition + REMOVAL_PER_SPARK;
      }
    }
  }
}
