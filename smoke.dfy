/**
 * The helpers of the smoke-test script: the proportional gap controller it
 * drives the environment with, the logger configuration it builds per
 * temperature-logging strategy, and the reason it reports for the end of
 * an episode.
 */
module SmokeTest {
  import opened Wrappers
  import Mech = Mechanics
  import Logger
  import Orch = Orchestrator

  const DEFAULT_DESIRED_GAP := 15.0

  /** The action dictionary the controller returns (before the float32/int32 casts). */
  datatype Command = Command(servo: real, targetVoltage: real, currentMode: int, onTime: real, offTime: real)

  /**
   * The controller closure: the gap error times 0.1 as a position
   * increment in position mode, otherwise times 50 clipped to +-1000 as a
   * target velocity; the generator settings never change.
   */
  function GapController(desiredGap: real, mode: Mech.ControlMode, workpiece: real, wire: real): (r: Command)
    ensures r.targetVoltage == 80.0 && r.currentMode == 9 && r.onTime == 2.0 && r.offTime == 33.0
    ensures mode == Mech.Position ==> r.servo == 0.1 * (workpiece - wire - desiredGap)
    ensures mode == Mech.Velocity ==> -1000.0 <= r.servo <= 1000.0
    ensures mode == Mech.Velocity && workpiece - wire - desiredGap > 20.0 ==> r.servo == 1000.0
    ensures mode == Mech.Velocity && workpiece - wire - desiredGap < -20.0 ==> r.servo == -1000.0
    ensures mode == Mech.Velocity && -20.0 <= workpiece - wire - desiredGap <= 20.0 ==>
              r.servo == 50.0 * (workpiece - wire - desiredGap)
  {
    var error := workpiece - wire - desiredGap;
    var delta := match mode
      case Position => error * 0.1
      case Velocity => Mech.Clip(error * 50.0, 1000.0);
    Command(delta, 80.0, 9, 2.0, 33.0)
  }

  /**
   * The controller always pushes toward the desired gap: the command is
   * positive exactly when the gap is too wide, zero exactly at the desired
   * gap, and never decreases as the gap widens, in either mode.
   */
  lemma ControllerTracksGap(desiredGap: real, mode: Mech.ControlMode, workpiece: real, wire: real, wire': real)
    ensures var r := GapController(desiredGap, mode, workpiece, wire);
            && (r.servo > 0.0 <==> workpiece - wire > desiredGap)
            && (r.servo == 0.0 <==> workpiece - wire == desiredGap)
    ensures wire' <= wire ==>
              GapController(desiredGap, mode, workpiece, wire').servo >= GapController(desiredGap, mode, workpiece, wire).servo
  {
  }

  /** The signals every strategy logs. */
  const BASE_SIGNALS := ["time", "voltage", "current", "wire_position", "wire_velocity", "workpiece_position",
                         "target_delta", "debris_concentration", "dielectric_flow_rate", "is_short_circuit", "flow_rate"]

  /** The temperature signals a strategy adds to the base ones. */
  function StrategySignals(strategy: string): (r: Option<seq<string>>)
    ensures r.None? <==> strategy != "full_field" && strategy != "zone_mean" && strategy != "both"
  {
    if strategy == "full_field" then Some(["wire_temperature"])
    else if strategy == "zone_mean" then Some(["wire_average_temperature"])
    else if strategy == "both" then Some(["wire_temperature", "wire_average_temperature"])
    else None
  }

  /**
   * setup_logger: an unknown strategy raises ValueError even when nothing
   * goes to a file; a file logs the base signals plus the strategy's at
   * every step to a compressed npz named after the control mode; otherwise
   * only "time" is logged, in memory, at control steps.
   */
  function SetupLogger(controlMode: string, logToFile: bool, strategy: string): (r: Result<Logger.RawConfig, string>)
    ensures r.Err? <==> StrategySignals(strategy).None?
    ensures r.Ok? && logToFile ==>
              && r.value.signals == Some(BASE_SIGNALS + StrategySignals(strategy).value)
              && r.value.frequency == Some(Logger.RawFrequency(Some("every_step"), None))
              && r.value.backend == Some(Logger.RawBackend(Some("numpy"),
                                                           Some(Logger.StrPath("logs/smoke_test_" + controlMode + "_control.npz")),
                                                           Some(true)))
    ensures r.Ok? && !logToFile ==>
              r.value == Logger.RawConfig(Some(["time"]), Some(Logger.RawFrequency(Some("control_step"), None)),
                                          Some(Logger.RawBackend(Some("memory"), None, None)))
  {
    match StrategySignals(strategy)
    case None => Err("ValueError")
    case Some(extra) =>
      if logToFile then
        Ok(Logger.RawConfig(Some(BASE_SIGNALS + extra), Some(Logger.RawFrequency(Some("every_step"), None)),
                            Some(Logger.RawBackend(Some("numpy"),
                                                   Some(Logger.StrPath("logs/smoke_test_" + controlMode + "_control.npz")),
                                                   Some(true)))))
      else
        Ok(Logger.RawConfig(Some(["time"]), Some(Logger.RawFrequency(Some("control_step"), None)),
                            Some(Logger.RawBackend(Some("memory"), None, None))))
  }

  /**
   * Every configuration the script builds passes the logger's validation:
   * the file configurations become compressed numpy backends, the other a
   * memory backend logging only "time".
   */
  lemma SetupLoggerValidates(controlMode: string, logToFile: bool, strategy: string)
    requires SetupLogger(controlMode, logToFile, strategy).Ok?
    ensures var v := Logger.Validate(SetupLogger(controlMode, logToFile, strategy).value);
            && v.Ok?
            && (logToFile ==> v.value.backend == Logger.Numpy("logs/smoke_test_" + controlMode + "_control.npz", true))
            && (!logToFile ==> v.value.backend == Logger.Memory && v.value.signals == ["time"])
  {
    var raw := SetupLogger(controlMode, logToFile, strategy).value;
    assert raw.signals.value != [];
    if logToFile {
      assert raw.backend.value.kind == Some("numpy");
    } else {
      assert raw.backend.value.kind == Some("memory");
    }
  }

  /**
   * Per strategy, a file configuration logs the temperature field unless
   * the strategy is zone_mean, and the zone mean unless it is full_field.
   */
  lemma StrategyTemperatures(strategy: string)
    requires StrategySignals(strategy).Some?
    ensures var signals := BASE_SIGNALS + StrategySignals(strategy).value;
            && ("wire_temperature" in signals <==> strategy != "zone_mean")
            && ("wire_average_temperature" in signals <==> strategy != "full_field")
  {
    var extra := StrategySignals(strategy).value;
    assert "wire_temperature" !in BASE_SIGNALS && "wire_average_temperature" !in BASE_SIGNALS;
    assert forall x :: x in BASE_SIGNALS + extra <==> x in BASE_SIGNALS || x in extra;
  }

  /**
   * get_termination_reason: the target outranks a broken wire, which
   * outranks plain termination, which outranks truncation. A missing info
   * key counts as false; the broken-wire info carries only "wire_broken".
   */
  function TerminationReason(info: Orch.Info, terminated: bool, truncated: bool): (r: string)
    ensures r == "target reached" <==> info.StepInfo? && info.targetReached
    ensures r == "wire broken" <==> !(info.StepInfo? && info.targetReached) && (info.BrokenInfo? || info.wireBroken)
    ensures r == "unknown" <==> !(info.StepInfo? && info.targetReached) && !info.BrokenInfo? && !info.wireBroken
                                && !terminated && !truncated
    ensures !(info.StepInfo? && info.targetReached) && !info.BrokenInfo? && !info.wireBroken && terminated ==>
              r == "terminated"
    ensures (!(info.StepInfo? && info.targetReached) && !info.BrokenInfo? && !info.wireBroken && !terminated
             && truncated) ==> r == "truncated"
  {
    var targetReached := info.StepInfo? && info.targetReached;
    var wireBroken := info.BrokenInfo? || info.wireBroken;
    if targetReached then "target reached"
    else if wireBroken then "wire broken"
    else if terminated then "terminated"
    else if truncated then "truncated"
    else "unknown"
  }

  /**
   * For what the environment's step returns, the reason is never "unknown"
   * once the episode terminated, and a step that returned early on a
   * broken wire always reads as "wire broken".
   */
  lemma StepReasons(r: Orch.StepResult)
    ensures r.terminated ==> TerminationReason(r.info, r.terminated, r.truncated) != "unknown"
    ensures r.info.BrokenInfo? ==> TerminationReason(r.info, r.terminated, r.truncated) == "wire broken"
  {
  }
}
