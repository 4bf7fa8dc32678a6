/**
 * The main-cut environment of src/wedm/envs/wire_edm.py: one shared record,
 * five physics modules updated in a fixed order every microsecond, and a
 * control step (new generator and servo commands) every 1000 microseconds.
 * The random draws the ignition module takes from the environment's
 * generator are parameters of Step.
 */
module Orchestrator {
  import opened Wrappers
  import opened EdmState
  import Ig = Ignition
  import Mat = Material
  import Diel = Dielectric
  import W = Wire
  import Mech = Mechanics

  /** Base step in microseconds, and control period in base steps. */
  const DT: int := 1
  const SERVO_INTERVAL: int := 1000

  /** The action's servo command and four generator settings, as floats. */
  datatype Action = Action(servo: real, targetVoltage: real, peakCurrent: real, onTime: real, offTime: real)

  /** The observation placeholder (an empty dict). */
  datatype Obs = EmptyObs

  /** The info dict: a broken wire reports only that. */
  datatype Info =
    | BrokenInfo
    | StepInfo(wireBroken: bool, targetReached: bool, sparkState: int, time: int, controlStep: bool)

  datatype StepResult = StepResult(obs: Option<Obs>, reward: real, terminated: bool, truncated: bool, info: Info)

  // ------------------------------------------------------------------------
  // The servo counter
  // ------------------------------------------------------------------------

  /** A step is a control step when the counter has reached the servo interval. */
  predicate IsControlStep(timeSinceServo: int) {
    timeSinceServo >= SERVO_INTERVAL
  }

  /** The counter after one completed step: reset on a control step, then advanced. */
  function CounterNext(timeSinceServo: int): int {
    (if IsControlStep(timeSinceServo) then 0 else timeSinceServo) + DT
  }

  /** The counter after k completed steps of a fresh episode. */
  function CounterAfter(k: nat): int {
    if k == 0 then 0 else CounterNext(CounterAfter(k - 1))
  }

  /**
   * The control schedule: in an episode that never breaks the wire, step k
   * (counted from 0) is a control step exactly when k is a positive multiple
   * of 1000, so the first command is applied at the 1001st step and every
   * 1000th step after it.
   */
  lemma {:induction false} ControlSchedule(k: nat)
    ensures CounterAfter(k) == if k == 0 then 0 else (k - 1) % SERVO_INTERVAL + 1
    ensures IsControlStep(CounterAfter(k)) <==> k > 0 && k % SERVO_INTERVAL == 0
  {
    if k > 0 {
      ControlSchedule(k - 1);
      if k - 1 > 0 {
        var c := CounterAfter(k - 1);
        assert c == (k - 2) % 1000 + 1;
        if c >= 1000 {
          assert (k - 2) % 1000 == 999;
          assert (k - 1) % 1000 == 0;
        } else {
          assert (k - 1) % 1000 == (k - 2) % 1000 + 1;
        }
      }
    }
  }

  // ------------------------------------------------------------------------
  // The spark clocks
  // ------------------------------------------------------------------------

  /** time_since_spark_ignition and time_since_spark_end. */
  datatype Clocks = Clocks(sinceIgnition: int, sinceEnd: int)

  /** One step of bookkeeping after the modules ran, given the spark tag they left. */
  function ClockStep(c: Clocks, tag: int): Clocks {
    if tag == SPARK then Clocks(c.sinceIgnition + DT, 0) else Clocks(0, c.sinceEnd + DT)
  }

  /** The clocks after one step per tag, in order. */
  function ClocksAfter(c: Clocks, tags: seq<int>): Clocks
    decreases |tags|
  {
    if tags == [] then c else ClockStep(ClocksAfter(c, tags[..|tags| - 1]), tags[|tags| - 1])
  }

  /** How many of the last tags are SPARK. */
  function SparkRun(tags: seq<int>): (n: nat)
    ensures n <= |tags|
    decreases |tags|
  {
    if tags == [] || tags[|tags| - 1] != SPARK then 0 else 1 + SparkRun(tags[..|tags| - 1])
  }

  /** How many of the last tags are not SPARK. */
  function QuietRun(tags: seq<int>): (n: nat)
    ensures n <= |tags|
    decreases |tags|
  {
    if tags == [] || tags[|tags| - 1] == SPARK then 0 else 1 + QuietRun(tags[..|tags| - 1])
  }

  /**
   * The ignition clock counts the steps of the current spark and the end
   * clock the steps since the last spark: each equals the length of the
   * trailing run (plus its start value when the run covers every step), and
   * the clock of the other kind is then 0.
   */
  lemma {:induction false} SparkClocksCountRuns(c: Clocks, tags: seq<int>)
    ensures ClocksAfter(c, tags).sinceIgnition ==
            SparkRun(tags) + (if SparkRun(tags) == |tags| then c.sinceIgnition else 0)
    ensures ClocksAfter(c, tags).sinceEnd ==
            QuietRun(tags) + (if QuietRun(tags) == |tags| then c.sinceEnd else 0)
    decreases |tags|
  {
    if tags != [] {
      SparkClocksCountRuns(c, tags[..|tags| - 1]);
    }
  }

  // ------------------------------------------------------------------------
  // Termination
  // ------------------------------------------------------------------------

  /** Whether the wire, this far along, breaks or reaches the target: breaking is checked first. */
  datatype Verdict = Running | Broken | Reached

  function VerdictOf(wirePosition: real, workpiecePosition: real, targetPosition: real): Verdict {
    if wirePosition > workpiecePosition + 100.0 then Broken
    else if workpiecePosition >= targetPosition then Reached
    else Running
  }

  // ------------------------------------------------------------------------
  // The environment
  // ------------------------------------------------------------------------

  /**
   * What the physics microsecond starts from: the electrical fields, the
   * gap, the ignition module's latch and caches, the workpiece, the
   * dielectric's debris and channel, the wire field and its zone mean, and
   * whether the wire was already broken.
   */
  datatype PhysicsStart = PhysicsStart(
    electrical: Ig.Electrical, gap: real, randomShortRemaining: int, lambdaCache: map<real, real>,
    cachedMode: Option<string>, cachedValue: real, workpiece: real, debris: real,
    ionChannel: Option<IonChannel>, field: seq<real>, zoneMean: Option<real>, broken: bool)

  /** The record fields the modules read but never write: the commands and the injected attributes. */
  datatype Inputs = Inputs(
    targetVoltage: Option<real>, onTime: Option<real>, offTime: Option<real>,
    currentMode: Option<string>, debrisDensity: Option<real>, unwindingVelocity: real)

  /** The inputs after the commands of step: a control step writes the action's voltage and pulse times. */
  function Commanded(inp: Inputs, action: Action, ctrl: bool): Inputs
  {
    if ctrl then inp.(targetVoltage := Some(action.targetVoltage), onTime := Some(action.onTime),
                      offTime := Some(action.offTime))
    else inp
  }

  /** The five values a control step writes: the servo command and the four generator settings. */
  datatype Commands = Commands(
    servo: real, targetVoltage: Option<real>, peakCurrent: Option<real>, onTime: Option<real>, offTime: Option<real>)

  /** The commands of an action, as _apply_action writes them. */
  function CommandsOf(action: Action): Commands {
    Commands(action.servo, Some(action.targetVoltage), Some(action.peakCurrent), Some(action.onTime),
             Some(action.offTime))
  }

  /** What the end of step writes: the clocks, the wire axis and the two termination flags. */
  datatype Motion = Motion(
    time: int, timeSinceOpenVoltage: int, clocks: Clocks, wirePosition: real, wireVelocity: real,
    prevAccel: real, isWireBroken: bool, isTargetDistanceReached: bool)

  /** What the ignition update leaves: the short flag, the electrical fields, the latch and the caches. */
  datatype IgnitionOut = IgnitionOut(
    isShort: bool, electrical: Ig.Electrical, randomShortRemaining: int, lambdaCache: map<real, real>,
    cachedMode: Option<string>, cachedValue: real)

  /** What material removal and the dielectric leave in the record and the dielectric module. */
  datatype RemovalOut = RemovalOut(
    workpiece: real, debris: real, ionChannel: Option<IonChannel>, dielectricTemperature: real,
    debrisConcentration: real, flowRate: Option<real>, ionizedChannel: Option<IonChannel>)

  /** What the wire update leaves: the temperature field and the work-zone mean. */
  datatype WireOut = WireOut(field: seq<real>, zoneMean: Option<real>)

  /** What the physics microsecond leaves, module by module. */
  datatype PhysicsOut = PhysicsOut(ignition: IgnitionOut, removal: RemovalOut, wire: WireOut)

  /**
   * The ignition update from `s`: the short decision on the clamped gap, the
   * state-machine transition, the lambda memo touched only from idle without
   * a short, and the current-mode cache refilled only when the peak current
   * was read.
   */
  function IgnitionNext(p: Ig.ShortParams, currentsData: map<string, real>, s: PhysicsStart, inp: Inputs,
                        shortRoll: real, igniteRoll: real, sparkLocation: real): IgnitionOut
    requires "I5" in currentsData
  {
    var d := Ig.ShortStep(p, s.randomShortRemaining, Ig.Max(0.0, s.gap), inp.debrisDensity.GetOr(0.0), shortRoll);
    var ignite := igniteRoll < Ig.LambdaFormula(s.gap);
    var peak := Ig.CurrentFromMode(currentsData, inp.currentMode, s.cachedMode, s.cachedValue);
    var read := Ig.ReadsPeak(s.electrical.status, d.isShort, ignite, Ig.OnTimeOf(inp.onTime));
    IgnitionOut(
      d.isShort,
      Ig.Transition(s.electrical, d.isShort, ignite, sparkLocation, Ig.TargetVoltageOf(inp.targetVoltage),
                    peak, Ig.OnTimeOf(inp.onTime), Ig.OffTimeOf(inp.offTime)),
      d.remaining,
      if s.electrical.status.tag == IDLE && !d.isShort then s.lambdaCache[s.gap := Ig.LambdaFormula(s.gap)]
      else s.lambdaCache,
      Ig.CacheNext(currentsData, inp.currentMode, s.cachedMode, read),
      if read then peak else s.cachedValue)
  }

  /**
   * Material removal and the dielectric from `s`, both driven by the status
   * ignition left: 0.0005 of removal and a debris jump only on a fresh
   * spark, the channel step, and the mirroring into the record.
   */
  function RemovalNext(s: PhysicsStart, status: SparkStatus): RemovalOut {
    var debris := Diel.DebrisNext(s.debris, Diel.FLOW_RATE, status);
    var channel := Diel.ChannelNext(s.ionChannel, status);
    RemovalOut(s.workpiece + Mat.Advance(status), debris, channel, Diel.DIELECTRIC_TEMPERATURE, debris,
               Some(Diel.FLOW_RATE), channel)
  }

  /**
   * The wire update from `s`: a broken wire keeps its field and mean;
   * otherwise the 60-segment field (refilled at spool temperature when the
   * record's array was not one entry per segment) takes one heat step and
   * segments 30..39 are averaged.
   */
  function WireNext(g: W.Geometry, s: PhysicsStart, heat: W.HeatInputs): WireOut
    requires W.WellFormed(g) && g.nSegments == 60
  {
    if s.broken then WireOut(s.field, s.zoneMean)
    else
      var before := if |s.field| == 60 then s.field else W.Uniform(60, g.spoolT);
      var field := W.NextField(g, heat, before);
      WireOut(field, Some(W.Mean(field[30..40])))
  }

  /** The heat inputs the wire sees after ignition and the dielectric ran. */
  function HeatOf(ig: IgnitionOut, inp: Inputs): W.HeatInputs {
    W.HeatInputs(ig.electrical.current.GetOr(0.0), ig.electrical.voltage.GetOr(0.0), ig.electrical.status,
                 inp.unwindingVelocity, Diel.DIELECTRIC_TEMPERATURE)
  }

  /** The physics microsecond from `s`: ignition, then removal and dielectric, then the wire. */
  function PhysicsNext(p: Ig.ShortParams, currentsData: map<string, real>, g: W.Geometry, s: PhysicsStart,
                       inp: Inputs, shortRoll: real, igniteRoll: real, sparkLocation: real): PhysicsOut
    requires "I5" in currentsData
    requires W.WellFormed(g) && g.nSegments == 60
  {
    var ig := IgnitionNext(p, currentsData, s, inp, shortRoll, igniteRoll, sparkLocation);
    PhysicsOut(ig, RemovalNext(s, ig.electrical.status), WireNext(g, s, HeatOf(ig, inp)))
  }

  /**
   * What one physics microsecond promises, whatever the rolls: the spark tag
   * stays legal and moves only along the state machine's edges, the
   * workpiece face never moves back and advances by at most one spark's
   * removal, the record mirrors the dielectric's debris, a broken wire keeps
   * its field and mean, an intact one ends with 60 segments and a defined
   * work-zone mean, and the lambda memo only ever holds the formula's values.
   */
  lemma PhysicsNextFacts(p: Ig.ShortParams, currentsData: map<string, real>, g: W.Geometry, s: PhysicsStart,
                         inp: Inputs, shortRoll: real, igniteRoll: real, sparkLocation: real)
    requires "I5" in currentsData
    requires W.WellFormed(g) && g.nSegments == 60
    requires IsLegalTag(s.electrical.status.tag)
    ensures var out := PhysicsNext(p, currentsData, g, s, inp, shortRoll, igniteRoll, sparkLocation);
            && IsLegalTag(out.ignition.electrical.status.tag)
            && Ig.LegalMove(s.electrical.status.tag, out.ignition.electrical.status.tag)
            && (out.removal.workpiece == s.workpiece || out.removal.workpiece == s.workpiece + Mat.REMOVAL_PER_SPARK)
            && out.removal.debrisConcentration == out.removal.debris
            && (s.broken ==> out.wire == WireOut(s.field, s.zoneMean))
            && (!s.broken ==> |out.wire.field| == 60 && out.wire.zoneMean == Some(W.Mean(out.wire.field[30..40])))
            && ((forall x :: x in s.lambdaCache ==> s.lambdaCache[x] == Ig.LambdaFormula(x)) ==>
                forall x :: x in out.ignition.lambdaCache ==> out.ignition.lambdaCache[x] == Ig.LambdaFormula(x))
  {
  }

  class WireEDMEnv {
    var state: EDMState
    const ignition: Ig.IgnitionModule
    const material: Mat.MaterialRemovalModule
    const dielectric: Diel.DielectricModule
    const wire: W.WireModule
    const mechanics: Mech.MechanicsModule

    /**
     * The modules' own invariants, the default wire geometry (60 segments,
     * work zone [30, 40)), the position-mode servo at 1 microsecond, and a
     * legal spark tag in the record.
     */
    ghost predicate Valid()
      reads this, state, ignition, dielectric, mechanics
    {
      && ignition.Valid() && dielectric.Valid() && wire.Valid() && mechanics.Valid()
      && wire.geometry.nSegments == 60 && wire.geometry.zoneStart == 30 && wire.geometry.zoneEnd == 40
      && mechanics.controlMode == Mech.Position && mechanics.dt == 0.000001
      && IsLegalTag(state.sparkStatus.tag)
    }

    /** The values the physics microsecond starts from. */
    ghost function Start(): PhysicsStart
      reads this`state, state`sparkStatus, state`voltage, state`current, state`workpiecePosition, state`wirePosition
      reads state`wireTemperature, state.wireTemperature, state`wireAverageTemperature, state`isWireBroken
      reads ignition`randomShortRemaining, ignition`lambdaCache, ignition`cachedCurrentMode, ignition`cachedCurrentValue
      reads dielectric`debris, dielectric`ionChannel
    {
      PhysicsStart(Ig.Electrical(state.sparkStatus, state.voltage, state.current), Gap(state),
                   ignition.randomShortRemaining, ignition.lambdaCache,
                   ignition.cachedCurrentMode, ignition.cachedCurrentValue, state.workpiecePosition,
                   dielectric.debris, dielectric.ionChannel, state.wireTemperature[..],
                   state.wireAverageTemperature, state.isWireBroken)
    }

    /** The record's inputs to the physics, as they are now. */
    ghost function InputsNow(): Inputs
      reads this`state, state`targetVoltage, state`onTime, state`offTime, state`currentMode, state`debrisDensity
      reads state`wireUnwindingVelocity
    {
      Inputs(state.targetVoltage, state.onTime, state.offTime, state.currentMode, state.debrisDensity, state.wireUnwindingVelocity)
    }

    /** The record's commands, as they are now. */
    ghost function CommandsNow(): Commands
      reads this`state, state`targetDelta, state`targetVoltage, state`peakCurrent, state`onTime, state`offTime
    {
      Commands(state.targetDelta, state.targetVoltage, state.peakCurrent, state.onTime, state.offTime)
    }

    /** The clocks, the wire axis and the termination flags, as they are now. */
    ghost function MotionNow(): Motion
      reads this`state, mechanics`prevAccel, state`time, state`timeSinceOpenVoltage
      reads state`timeSinceSparkIgnition, state`timeSinceSparkEnd, state`wirePosition, state`wireVelocity
      reads state`isWireBroken, state`isTargetDistanceReached
    {
      Motion(state.time, state.timeSinceOpenVoltage, Clocks(state.timeSinceSparkIgnition, state.timeSinceSparkEnd),
             state.wirePosition, state.wireVelocity, mechanics.prevAccel, state.isWireBroken,
             state.isTargetDistanceReached)
    }

    /** The ignition module's results, as they are now. */
    ghost function IgnitionNow(): IgnitionOut
      reads this`state, state`isShortCircuit, state`sparkStatus, state`voltage, state`current
      reads ignition`randomShortRemaining, ignition`lambdaCache, ignition`cachedCurrentMode, ignition`cachedCurrentValue
    {
      IgnitionOut(state.isShortCircuit, Ig.Electrical(state.sparkStatus, state.voltage, state.current),
                  ignition.randomShortRemaining, ignition.lambdaCache,
                  ignition.cachedCurrentMode, ignition.cachedCurrentValue)
    }

    /** The removal and dielectric results, as they are now. */
    ghost function RemovalNow(): RemovalOut
      reads this`state, state`workpiecePosition, dielectric`debris, dielectric`ionChannel, state`dielectricTemperature
      reads state`debrisConcentration, state`flowRate, state`ionizedChannel
    {
      RemovalOut(state.workpiecePosition, dielectric.debris, dielectric.ionChannel, state.dielectricTemperature,
                 state.debrisConcentration, state.flowRate, state.ionizedChannel)
    }

    /** The wire results, as they are now. */
    ghost function WireNow(): WireOut
      reads this`state, state`wireTemperature, state.wireTemperature, state`wireAverageTemperature
    {
      WireOut(state.wireTemperature[..], state.wireAverageTemperature)
    }

    /** Everything the physics microsecond writes, as it is now. */
    ghost function PhysicsNow(): PhysicsOut
      reads this`state, state`isShortCircuit, state`sparkStatus, state`voltage, state`current
      reads ignition`randomShortRemaining, ignition`lambdaCache, ignition`cachedCurrentMode, ignition`cachedCurrentValue
      reads state`workpiecePosition, dielectric`debris, dielectric`ionChannel, state`dielectricTemperature
      reads state`debrisConcentration, state`flowRate, state`ionizedChannel
      reads state`wireTemperature, state.wireTemperature, state`wireAverageTemperature
    {
      PhysicsOut(IgnitionNow(), RemovalNow(), WireNow())
    }

    /**
     * __init__ with the current table injected: a default record whose wire
     * field the wire module fills with 60 segments at spool temperature.
     */
    constructor (currentsData: map<string, real>)
      requires "I5" in currentsData
      ensures Valid()
      ensures fresh(state) && state.HasDefaultValues()
      ensures state.wireTemperature[..] == W.Uniform(60, 293.15)
      ensures ignition.params == Ig.DEFAULT_SHORT_PARAMS && wire.config == W.DEFAULT_CONFIG
    {
      var s := new EDMState();
      var w := W.WireModule.Create(s, W.DEFAULT_CONFIG);
      W.DefaultGeometry();
      var m := Mech.MechanicsModule.Create("position", 1.0);
      state := s;
      ignition := new Ig.IgnitionModule(Ig.DEFAULT_SHORT_PARAMS, currentsData);
      material := new Mat.MaterialRemovalModule();
      dielectric := new Diel.DielectricModule();
      wire := w.value;
      mechanics := m.value;
    }

    /** reset: a fresh record; the modules keep their internal state. */
    method Reset() returns (obs: Obs)
      requires Valid()
      modifies this`state
      ensures Valid()
      ensures fresh(state) && state.HasDefaults()
      ensures dielectric.debris == old(dielectric.debris)
      ensures ignition.randomShortRemaining == old(ignition.randomShortRemaining)
      ensures mechanics.prevAccel == old(mechanics.prevAccel)
    {
      state := new EDMState();
      obs := EmptyObs;
    }

    /**
     * The start of step: on a control step (_apply_action) the action's
     * five fields are written and the servo counter restarts.
     */
    method Command(action: Action) returns (ctrl: bool)
      modifies state`targetDelta, state`targetVoltage, state`peakCurrent, state`onTime, state`offTime
      modifies state`timeSinceServo
      ensures ctrl == IsControlStep(old(state.timeSinceServo))
      ensures CommandsNow() == if ctrl then CommandsOf(action) else old(CommandsNow())
      ensures state.timeSinceServo == if ctrl then 0 else old(state.timeSinceServo)
      ensures InputsNow() == Commanded(old(InputsNow()), action, ctrl)
      ensures MotionNow() == old(MotionNow())
    {
      ctrl := state.timeSinceServo >= SERVO_INTERVAL;
      if ctrl {
        state.targetDelta := action.servo;
        state.targetVoltage := Some(action.targetVoltage);
        state.peakCurrent := Some(action.peakCurrent);
        state.onTime := Some(action.onTime);
        state.offTime := Some(action.offTime);
        state.timeSinceServo := 0;
      }
    }

    /** Commands on a control step, then the physics microsecond under the new commands. */
    method Begin(action: Action, shortRoll: real, igniteRoll: real, sparkLocation: real) returns (ctrl: bool)
      requires Valid()
      modifies state`targetDelta, state`targetVoltage, state`peakCurrent, state`onTime, state`offTime
      modifies state`timeSinceServo
      modifies ignition, dielectric, state.wireTemperature
      modifies state`isShortCircuit, state`sparkStatus, state`voltage, state`current
      modifies state`workpiecePosition
      modifies state`dielectricTemperature, state`debrisConcentration, state`flowRate, state`ionizedChannel
      modifies state`wireTemperature, state`wireAverageTemperature
      ensures Valid()
      ensures ctrl == IsControlStep(old(state.timeSinceServo))
      ensures CommandsNow() == if ctrl then CommandsOf(action) else old(CommandsNow())
      ensures state.timeSinceServo == if ctrl then 0 else old(state.timeSinceServo)
      ensures MotionNow() == old(MotionNow())
      ensures PhysicsNow() ==
              PhysicsNext(ignition.params, ignition.currentsData, wire.geometry, old(Start()),
                          Commanded(old(InputsNow()), action, IsControlStep(old(state.timeSinceServo))),
                          shortRoll, igniteRoll, sparkLocation)
    {
      ghost var s := Start();
      ctrl := Command(action);
      Physics(s, InputsNow(), shortRoll, igniteRoll, sparkLocation);
    }

    /**
     * The physics microsecond: ignition, material, dielectric and wire in
     * that order, each seeing what the previous one wrote.
     */
    method Physics(ghost s: PhysicsStart, ghost inp: Inputs, shortRoll: real, igniteRoll: real, sparkLocation: real)
      requires Valid()
      requires s == Start() && inp == InputsNow()
      modifies ignition, dielectric, state.wireTemperature
      modifies state`isShortCircuit, state`sparkStatus, state`voltage, state`current
      modifies state`workpiecePosition
      modifies state`dielectricTemperature, state`debrisConcentration, state`flowRate, state`ionizedChannel
      modifies state`wireTemperature, state`wireAverageTemperature
      ensures Valid()
      ensures PhysicsNow() == PhysicsNext(ignition.params, ignition.currentsData, wire.geometry, s, inp,
                                          shortRoll, igniteRoll, sparkLocation)
      ensures CommandsNow() == old(CommandsNow()) && MotionNow() == old(MotionNow())
      ensures state.timeSinceServo == old(state.timeSinceServo)
    {
      IgnitionPhase(s, inp, shortRoll, igniteRoll, sparkLocation);
      ghost var ig := IgnitionNow();
      RemovalPhase(s);
      WirePhase(s);
      assert IgnitionNow() == ig;
      assert W.InputsOf(state) == HeatOf(ig, inp);
    }

    /** The ignition module's update, which keeps the spark tag legal. */
    method IgnitionPhase(ghost s: PhysicsStart, ghost inp: Inputs, shortRoll: real, igniteRoll: real, sparkLocation: real)
      requires Valid()
      requires inp == InputsNow()
      requires s.electrical == Ig.Electrical(state.sparkStatus, state.voltage, state.current) && s.gap == Gap(state)
      requires s.randomShortRemaining == ignition.randomShortRemaining && s.lambdaCache == ignition.lambdaCache
      requires s.cachedMode == ignition.cachedCurrentMode && s.cachedValue == ignition.cachedCurrentValue
      modifies ignition, state`isShortCircuit, state`sparkStatus, state`voltage, state`current
      ensures Valid()
      ensures IgnitionNow() == IgnitionNext(ignition.params, ignition.currentsData, s, inp,
                                            shortRoll, igniteRoll, sparkLocation)
      ensures unchanged(state`targetDelta, state`targetVoltage, state`peakCurrent, state`onTime, state`offTime)
      ensures unchanged(this`state, mechanics`prevAccel, state`time, state`timeSinceOpenVoltage)
      ensures unchanged(state`timeSinceSparkIgnition, state`timeSinceSparkEnd, state`wirePosition, state`wireVelocity)
      ensures unchanged(state`isWireBroken, state`isTargetDistanceReached, state`timeSinceServo)
    {
      ghost var e0 := Ig.Electrical(state.sparkStatus, state.voltage, state.current);
      ghost var cachedMode, cachedValue := ignition.cachedCurrentMode, ignition.cachedCurrentValue;
      ignition.Update(state, shortRoll, igniteRoll, sparkLocation);
      Ig.TransitionInvariants(e0, state.isShortCircuit, igniteRoll < Ig.LambdaFormula(Gap(state)), sparkLocation,
                              Ig.TargetVoltageOf(state.targetVoltage),
                              Ig.CurrentFromMode(ignition.currentsData, state.currentMode, cachedMode, cachedValue),
                              Ig.OnTimeOf(state.onTime), Ig.OffTimeOf(state.offTime));
    }

    /** Material removal, then the dielectric, both driven by the status ignition left. */
    method RemovalPhase(ghost s: PhysicsStart)
      requires Valid()
      requires s.workpiece == state.workpiecePosition
      requires s.debris == dielectric.debris && s.ionChannel == dielectric.ionChannel
      modifies dielectric, state`workpiecePosition
      modifies state`dielectricTemperature, state`debrisConcentration, state`flowRate, state`ionizedChannel
      ensures Valid()
      ensures RemovalNow() == RemovalNext(s, state.sparkStatus)
      ensures IgnitionNow() == old(IgnitionNow()) && InputsNow() == old(InputsNow())
      ensures unchanged(state`targetDelta, state`targetVoltage, state`peakCurrent, state`onTime, state`offTime)
      ensures unchanged(this`state, mechanics`prevAccel, state`time, state`timeSinceOpenVoltage)
      ensures unchanged(state`timeSinceSparkIgnition, state`timeSinceSparkEnd, state`wirePosition, state`wireVelocity)
      ensures unchanged(state`isWireBroken, state`isTargetDistanceReached, state`timeSinceServo)
    {
      material.Update(state);
      dielectric.Update(state);
    }

    /** The wire module's update, whose work-zone average is always defined here. */
    method WirePhase(ghost s: PhysicsStart)
      requires Valid()
      requires s.field == state.wireTemperature[..] && s.zoneMean == state.wireAverageTemperature
      requires s.broken == state.isWireBroken
      modifies state.wireTemperature, state`wireTemperature, state`wireAverageTemperature
      ensures Valid()
      ensures WireNow() == WireNext(wire.geometry, s, W.InputsOf(state))
      ensures IgnitionNow() == old(IgnitionNow()) && RemovalNow() == old(RemovalNow())
      ensures unchanged(state`targetDelta, state`targetVoltage, state`peakCurrent, state`onTime, state`offTime)
      ensures unchanged(this`state, mechanics`prevAccel, state`time, state`timeSinceOpenVoltage)
      ensures unchanged(state`timeSinceSparkIgnition, state`timeSinceSparkEnd, state`wirePosition, state`wireVelocity)
      ensures unchanged(state`isWireBroken, state`isTargetDistanceReached, state`timeSinceServo)
    {
      var outcome := wire.Update(state);
      if !state.isWireBroken {
        W.ZoneAverageOfValidZone(state.wireTemperature[..], 30, 40);
      }
      assert outcome == Pass;
    }

    /**
     * What follows the physics when the wire is intact: one servo update,
     * the time bookkeeping, then _check_termination.
     */
    method Advance() returns (terminated: bool)
      requires Valid()
      modifies mechanics, state`wirePosition, state`wireVelocity
      modifies state`time, state`timeSinceServo, state`timeSinceOpenVoltage
      modifies state`timeSinceSparkIgnition, state`timeSinceSparkEnd
      modifies state`isWireBroken, state`isTargetDistanceReached
      ensures Valid()
      ensures Mech.Axis(state.wirePosition, state.wireVelocity, mechanics.prevAccel) ==
              Mech.ServoStep(Mech.Position,
                             Mech.Axis(old(state.wirePosition), old(state.wireVelocity), old(mechanics.prevAccel)),
                             state.targetDelta, 0.000001, mechanics.maxJerkDt)
      ensures -Mech.MAX_SPEED <= state.wireVelocity <= Mech.MAX_SPEED
      ensures state.time == old(state.time) + DT
      ensures state.timeSinceServo == old(state.timeSinceServo) + DT
      ensures state.timeSinceOpenVoltage == old(state.timeSinceOpenVoltage) + DT
      ensures Clocks(state.timeSinceSparkIgnition, state.timeSinceSparkEnd) ==
              ClockStep(Clocks(old(state.timeSinceSparkIgnition), old(state.timeSinceSparkEnd)), state.sparkStatus.tag)
      ensures var v := VerdictOf(state.wirePosition, state.workpiecePosition, state.targetPosition);
              && terminated == (v != Running)
              && state.isWireBroken == (old(state.isWireBroken) || v == Broken)
              && state.isTargetDistanceReached == (old(state.isTargetDistanceReached) || v == Reached)
    {
      mechanics.Update(state);
      Mech.ServoLimits(Mech.Position, Mech.Axis(old(state.wirePosition), old(state.wireVelocity), old(mechanics.prevAccel)),
                       state.targetDelta, 0.000001, mechanics.maxJerkDt);
      Bookkeeping();
      terminated := CheckTermination();
    }

    /** The time bookkeeping of a step that did not stop at a broken wire. */
    method Bookkeeping()
      modifies state`time, state`timeSinceServo, state`timeSinceOpenVoltage
      modifies state`timeSinceSparkIgnition, state`timeSinceSparkEnd
      ensures state.time == old(state.time) + DT
      ensures state.timeSinceServo == old(state.timeSinceServo) + DT
      ensures state.timeSinceOpenVoltage == old(state.timeSinceOpenVoltage) + DT
      ensures Clocks(state.timeSinceSparkIgnition, state.timeSinceSparkEnd) ==
              ClockStep(Clocks(old(state.timeSinceSparkIgnition), old(state.timeSinceSparkEnd)), state.sparkStatus.tag)
    {
      state.time := state.time + DT;
      state.timeSinceServo := state.timeSinceServo + DT;
      state.timeSinceOpenVoltage := state.timeSinceOpenVoltage + DT;
      if state.sparkStatus.tag == SPARK {
        state.timeSinceSparkIgnition := state.timeSinceSparkIgnition + DT;
        state.timeSinceSparkEnd := 0;
      } else {
        state.timeSinceSparkEnd := state.timeSinceSparkEnd + DT;
        state.timeSinceSparkIgnition := 0;
      }
    }

    /** _check_termination: breaking is checked before reaching the target. */
    method CheckTermination() returns (terminated: bool)
      modifies state`isWireBroken, state`isTargetDistanceReached
      ensures var v := VerdictOf(state.wirePosition, state.workpiecePosition, state.targetPosition);
              && terminated == (v != Running)
              && state.isWireBroken == (old(state.isWireBroken) || v == Broken)
              && state.isTargetDistanceReached == (old(state.isTargetDistanceReached) || v == Reached)
    {
      if state.wirePosition > state.workpiecePosition + 100.0 {
        state.isWireBroken := true;
        return true;
      }
      if state.workpiecePosition >= state.targetPosition {
        state.isTargetDistanceReached := true;
        return true;
      }
      return false;
    }

    /**
     * The end of step: nothing more on a broken wire (the early return),
     * otherwise the servo move, the clocks and the termination verdict.
     */
    method Finish(ctrl: bool) returns (r: StepResult)
      requires Valid()
      modifies mechanics, state`wirePosition, state`wireVelocity
      modifies state`time, state`timeSinceServo, state`timeSinceOpenVoltage
      modifies state`timeSinceSparkIgnition, state`timeSinceSparkEnd
      modifies state`isWireBroken, state`isTargetDistanceReached
      ensures Valid()
      ensures PhysicsNow() == old(PhysicsNow()) && CommandsNow() == old(CommandsNow())
      ensures old(state.isWireBroken) ==>
                && r == StepResult(None, 0.0, true, false, BrokenInfo)
                && MotionNow() == old(MotionNow()) && state.timeSinceServo == old(state.timeSinceServo)
      ensures !old(state.isWireBroken) ==>
                var v := VerdictOf(state.wirePosition, state.workpiecePosition, state.targetPosition);
                && state.time == old(state.time) + DT
                && state.timeSinceServo == old(state.timeSinceServo) + DT
                && state.timeSinceOpenVoltage == old(state.timeSinceOpenVoltage) + DT
                && Clocks(state.timeSinceSparkIgnition, state.timeSinceSparkEnd) ==
                   ClockStep(Clocks(old(state.timeSinceSparkIgnition), old(state.timeSinceSparkEnd)), state.sparkStatus.tag)
                && Mech.Axis(state.wirePosition, state.wireVelocity, mechanics.prevAccel) ==
                   Mech.ServoStep(Mech.Position,
                                  Mech.Axis(old(state.wirePosition), old(state.wireVelocity), old(mechanics.prevAccel)),
                                  state.targetDelta, 0.000001, mechanics.maxJerkDt)
                && state.isWireBroken == (v == Broken)
                && state.isTargetDistanceReached == (old(state.isTargetDistanceReached) || v == Reached)
                && r == StepResult(if ctrl then Some(EmptyObs) else None, 0.0, v != Running, false,
                                   StepInfo(state.isWireBroken, state.isTargetDistanceReached,
                                            state.sparkStatus.tag, state.time, ctrl))
    {
      if state.isWireBroken {
        return StepResult(None, 0.0, true, false, BrokenInfo);
      }
      var terminated := Advance();
      var obs := if ctrl then Some(EmptyObs) else None;
      r := StepResult(obs, 0.0, terminated, false,
                      StepInfo(state.isWireBroken, state.isTargetDistanceReached, state.sparkStatus.tag, state.time, ctrl));
    }

    /**
     * One simulated microsecond (step): the commands, the physics, then the
     * servo, the clocks and the termination check; a wire already broken
     * after the physics returns at once with the broken-wire info, before
     * the servo moves and before time advances. Observation and reward exist
     * on control steps only.
     */
    method Step(action: Action, shortRoll: real, igniteRoll: real, sparkLocation: real) returns (r: StepResult)
      requires Valid()
      modifies state`targetDelta, state`targetVoltage, state`peakCurrent, state`onTime, state`offTime
      modifies ignition, dielectric, mechanics, state.wireTemperature
      modifies state`isShortCircuit, state`sparkStatus, state`voltage, state`current, state`workpiecePosition
      modifies state`dielectricTemperature, state`debrisConcentration, state`flowRate, state`ionizedChannel
      modifies state`wireTemperature, state`wireAverageTemperature, state`wirePosition, state`wireVelocity
      modifies state`time, state`timeSinceServo, state`timeSinceOpenVoltage
      modifies state`timeSinceSparkIgnition, state`timeSinceSparkEnd
      modifies state`isWireBroken, state`isTargetDistanceReached
      ensures Valid()
      ensures CommandsNow() == if IsControlStep(old(state.timeSinceServo)) then CommandsOf(action) else old(CommandsNow())
      ensures PhysicsNow() ==
              PhysicsNext(ignition.params, ignition.currentsData, wire.geometry, old(Start()),
                          Commanded(old(InputsNow()), action, IsControlStep(old(state.timeSinceServo))),
                          shortRoll, igniteRoll, sparkLocation)
      ensures old(state.isWireBroken) ==>
                && r == StepResult(None, 0.0, true, false, BrokenInfo)
                && MotionNow() == old(MotionNow())
                && state.timeSinceServo == if IsControlStep(old(state.timeSinceServo)) then 0 else old(state.timeSinceServo)
      ensures !old(state.isWireBroken) ==>
                var ctrl := IsControlStep(old(state.timeSinceServo));
                var v := VerdictOf(state.wirePosition, state.workpiecePosition, state.targetPosition);
                && state.time == old(state.time) + DT
                && state.timeSinceServo == CounterNext(old(state.timeSinceServo))
                && state.timeSinceOpenVoltage == old(state.timeSinceOpenVoltage) + DT
                && Clocks(state.timeSinceSparkIgnition, state.timeSinceSparkEnd) ==
                   ClockStep(Clocks(old(state.timeSinceSparkIgnition), old(state.timeSinceSparkEnd)), state.sparkStatus.tag)
                && Mech.Axis(state.wirePosition, state.wireVelocity, mechanics.prevAccel) ==
                   Mech.ServoStep(Mech.Position,
                                  Mech.Axis(old(state.wirePosition), old(state.wireVelocity), old(mechanics.prevAccel)),
                                  state.targetDelta, 0.000001, mechanics.maxJerkDt)
                && state.isWireBroken == (v == Broken)
                && state.isTargetDistanceReached == (old(state.isTargetDistanceReached) || v == Reached)
                && r == StepResult(if ctrl then Some(EmptyObs) else None, 0.0, v != Running, false,
                                   StepInfo(state.isWireBroken, state.isTargetDistanceReached,
                                            state.sparkStatus.tag, state.time, ctrl))
    {
      var ctrl := Begin(action, shortRoll, igniteRoll, sparkLocation);
      r := Finish(ctrl);
    }
  }
}
