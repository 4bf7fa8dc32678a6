/**
 * The shared simulation record (`EDMState`) that every physics module reads
 * and writes in place, plus the spark-status triple and the short-circuit
 * test on it.
 */
module EdmState {
  import opened Wrappers

  /** Spark-status tags of the ignition state machine. */
  const IDLE: int := 0
  const SPARK: int := 1
  const SHORT: int := -1
  const REST: int := -2

  /** The triple (state tag, spark y-location or none, duration in state). */
  datatype SparkStatus = SparkStatus(tag: int, location: Option<real>, duration: nat)

  /** The status an idle generator is in: [0, None, 0]. */
  function IdleStatus(): (s: SparkStatus)
    ensures s.tag == IDLE && s.location.None? && s.duration == 0
  {
    SparkStatus(IDLE, None, 0)
  }

  predicate IsLegalTag(tag: int) {
    tag == IDLE || tag == SPARK || tag == SHORT || tag == REST
  }

  /** A spark that has just ignited: tag 1 with duration 0. */
  predicate IsFreshSpark(s: SparkStatus) {
    s.tag == SPARK && s.duration == 0
  }

  /** The dielectric's ionised channel: (y-location, remaining microseconds). */
  datatype IonChannel = IonChannel(location: Option<real>, remaining: int)

  class EDMState {
    // time bookkeeping, microseconds
    var time: int
    var timeSinceServo: int
    var timeSinceOpenVoltage: int
    var timeSinceSparkIgnition: int
    var timeSinceSparkEnd: int

    // electrical
    var voltage: Option<real>
    var current: Option<real>

    // generator commands
    var targetVoltage: Option<real>
    var peakCurrent: Option<real>
    var offTime: Option<real>
    var onTime: Option<real>

    // positions and motion
    var workpiecePosition: real
    var wirePosition: real
    var wireVelocity: real
    var wireUnwindingVelocity: real

    // wire thermal field
    var wireTemperature: array<real>
    var timeInCriticalTemp: int
    var wireAverageTemperature: Option<real>

    var sparkStatus: SparkStatus

    // dielectric
    var dielectricConductivity: real
    var dielectricTemperature: real
    var debrisConcentration: real
    var dielectricFlowRate: real
    var ionizedChannel: Option<IonChannel>

    // servo commands
    var targetDelta: real
    var targetPosition: real

    // process flags
    var isWireBroken: bool
    var isWireColliding: bool
    var isTargetDistanceReached: bool

    // Attributes the record does not declare but the modules set or read
    // dynamically: the ignition module writes `is_short_circuit`, the
    // dielectric writes `flow_rate`, and the ignition reads `current_mode`
    // and `debris_density`. For `debris_density`, read through a getattr
    // default, None stands for "never set"; for `current_mode`, read
    // directly, None is a mode explicitly set to None.
    // The record starts `is_short_circuit` at false, where a getattr before
    // the first ignition update would give None.
    var isShortCircuit: bool
    var flowRate: Option<real>
    var currentMode: Option<string>
    var debrisDensity: Option<real>

    /** The field values a freshly created record holds. */
    ghost predicate HasDefaults()
      reads this, wireTemperature
    {
      HasDefaultValues() && wireTemperature.Length == 0
    }

    /** The defaults of every field but the temperature array's contents. */
    ghost predicate HasDefaultValues()
      reads this
    {
      && time == 0 && timeSinceServo == 0 && timeSinceOpenVoltage == 0
      && timeSinceSparkIgnition == 0 && timeSinceSparkEnd == 0
      && voltage == None && current == None
      && targetVoltage == None && peakCurrent == None && offTime == None && onTime == None
      && workpiecePosition == 0.0 && wirePosition == 0.0 && wireVelocity == 0.0
      && wireUnwindingVelocity == 0.1
      && timeInCriticalTemp == 0
      && wireAverageTemperature == None
      && sparkStatus == IdleStatus()
      && dielectricConductivity == 0.0 && dielectricTemperature == 0.0
      && debrisConcentration == 0.0 && dielectricFlowRate == 0.0
      && ionizedChannel == None
      && targetDelta == 0.0 && targetPosition == 500.0
      && !isWireBroken && !isWireColliding && !isTargetDistanceReached
      && !isShortCircuit && flowRate == None && currentMode == None && debrisDensity == None
    }

    constructor ()
      ensures HasDefaults() && fresh(wireTemperature)
    {
      time, timeSinceServo, timeSinceOpenVoltage := 0, 0, 0;
      timeSinceSparkIgnition, timeSinceSparkEnd := 0, 0;
      voltage, current := None, None;
      targetVoltage, peakCurrent, offTime, onTime := None, None, None, None;
      workpiecePosition, wirePosition, wireVelocity := 0.0, 0.0, 0.0;
      wireUnwindingVelocity := 0.1;
      wireTemperature := new real[0];
      timeInCriticalTemp := 0;
      wireAverageTemperature := None;
      sparkStatus := IdleStatus();
      dielectricConductivity, dielectricTemperature := 0.0, 0.0;
      debrisConcentration, dielectricFlowRate := 0.0, 0.0;
      ionizedChannel := None;
      targetDelta, targetPosition := 0.0, 500.0;
      isWireBroken, isWireColliding, isTargetDistanceReached := false, false, false;
      isShortCircuit := false;
      flowRate, currentMode, debrisDensity := None, None, None;
    }
  }

  /** Gap between workpiece face and wire, in micrometres. */
  function Gap(state: EDMState): real
    reads state`workpiecePosition, state`wirePosition
  {
    state.workpiecePosition - state.wirePosition
  }

  /**
   * state_utils.is_short_circuited: the wire has reached or passed the
   * workpiece face. Reads only the two position fields.
   */
  function IsShortCircuited(state: EDMState): (r: bool)
    reads state`wirePosition, state`workpiecePosition
    ensures r <==> Gap(state) <= 0.0
    ensures state.wirePosition == state.workpiecePosition ==> r
  {
    state.wirePosition >= state.workpiecePosition
  }
}
