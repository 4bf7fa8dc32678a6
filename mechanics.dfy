/**
 * The servo axis of src/wedm/modules/mechanics.py: a second-order control law
 * (position or velocity mode) followed by acceleration, jerk and speed limits
 * and an explicit Euler step of velocity and position.
 */
module Mechanics {
  import opened Wrappers
  import opened EdmState

  const OMEGA_N: real := 200.0
  const ZETA: real := 0.55
  const MAX_ACCEL: real := 300000.0
  const MAX_JERK: real := 100000000.0
  const MAX_SPEED: real := 30000.0

  datatype ControlMode = Position | Velocity

  /** The constructor's validation of the control-mode string. */
  function ParseControlMode(s: string): (r: Result<ControlMode, string>)
    ensures r.Ok? <==> s == "position" || s == "velocity"
    ensures r.Ok? ==> (r.value == Position <==> s == "position")
  {
    if s == "position" then Ok(Position)
    else if s == "velocity" then Ok(Velocity)
    else Err("control_mode must be 'position' or 'velocity', got " + s)
  }

  /**
   * The nominal acceleration, with the damping coefficient -2 zeta omega_n =
   * -220 and the stiffness -omega_n^2 = -40000. In position mode the error x - (x + delta) is
   * the negated target delta, so the law pulls the wire toward a target
   * `delta` ahead of where it is now.
   */
  function NominalAccel(mode: ControlMode, x: real, v: real, targetDelta: real): real {
    match mode
    case Position => -220.0 * v + -40000.0 * (x - (x + targetDelta))
    case Velocity => -200.0 * (v - targetDelta)
  }

  function Clip(x: real, bound: real): (r: real)
    ensures bound >= 0.0 ==> -bound <= r <= bound
    ensures bound >= 0.0 && -bound <= x <= bound ==> r == x
    ensures x > bound ==> r == bound
    ensures x <= bound && x < -bound ==> r == -bound
  {
    if x > bound then bound else if x < -bound then -bound else x
  }

  /** Position, velocity and the remembered acceleration of the axis. */
  datatype Axis = Axis(position: real, velocity: real, prevAccel: real)

  /** One explicit Euler step: value + rate * dt. */
  function Integrate(value: real, rate: real, dt: real): real {
    value + rate * dt
  }

  /** One servo update with time step dt and jerk budget maxJerkDt = max_jerk * dt. */
  function ServoStep(mode: ControlMode, axis: Axis, targetDelta: real, dt: real, maxJerkDt: real): Axis {
    var aNom := Clip(NominalAccel(mode, axis.position, axis.velocity, targetDelta), MAX_ACCEL);
    var da := Clip(aNom - axis.prevAccel, maxJerkDt);
    var a := axis.prevAccel + da;
    var v := Clip(Integrate(axis.velocity, a, dt), MAX_SPEED);
    Axis(Integrate(axis.position, v, dt), v, a)
  }

  /**
   * The limits hold after every update: speed within 30000, acceleration
   * within 3e5 whenever it was before, and the acceleration changes by at
   * most the jerk budget; position moves by exactly the new velocity times dt.
   */
  lemma ServoLimits(mode: ControlMode, axis: Axis, targetDelta: real, dt: real, maxJerkDt: real)
    requires maxJerkDt >= 0.0
    ensures var next := ServoStep(mode, axis, targetDelta, dt, maxJerkDt);
            && -MAX_SPEED <= next.velocity <= MAX_SPEED
            && (-MAX_ACCEL <= axis.prevAccel <= MAX_ACCEL ==> -MAX_ACCEL <= next.prevAccel <= MAX_ACCEL)
            && -maxJerkDt <= next.prevAccel - axis.prevAccel <= maxJerkDt
            && next.position == axis.position + next.velocity * dt
  {
  }

  /** The position law ignores where the wire is: only velocity and target delta matter. */
  lemma PositionLawIsTranslationInvariant(x1: real, x2: real, v: real, targetDelta: real)
    ensures NominalAccel(Position, x1, v, targetDelta) == NominalAccel(Position, x2, v, targetDelta)
    ensures NominalAccel(Position, x1, v, targetDelta) == -220.0 * v + 40000.0 * targetDelta
  {
  }

  /**
   * Equilibria: in position mode an axis at rest with a zero target stays put;
   * in velocity mode an axis already at the commanded (attainable) speed keeps
   * it and advances by speed times dt.
   */
  lemma ServoEquilibria(axis: Axis, targetDelta: real, dt: real, maxJerkDt: real)
    requires maxJerkDt >= 0.0
    requires axis.prevAccel == 0.0
    ensures axis.velocity == 0.0 && targetDelta == 0.0 ==>
              ServoStep(Position, axis, targetDelta, dt, maxJerkDt) == axis
    ensures axis.velocity == targetDelta && -MAX_SPEED <= targetDelta <= MAX_SPEED ==>
              ServoStep(Velocity, axis, targetDelta, dt, maxJerkDt) ==
              Axis(axis.position + targetDelta * dt, targetDelta, 0.0)
  {
    if axis.velocity == 0.0 && targetDelta == 0.0 {
      assert NominalAccel(Position, axis.position, axis.velocity, targetDelta) == 0.0;
      assert Clip(0.0 - axis.prevAccel, maxJerkDt) == 0.0;
      assert 0.0 * dt == 0.0;
    }
    if axis.velocity == targetDelta && -MAX_SPEED <= targetDelta <= MAX_SPEED {
      assert NominalAccel(Velocity, axis.position, axis.velocity, targetDelta) == 0.0;
      var a := axis.prevAccel + Clip(0.0 - axis.prevAccel, maxJerkDt);
      assert a == 0.0;
      assert a * dt == 0.0;
      var v := Clip(axis.velocity + a * dt, MAX_SPEED);
      assert v == targetDelta;
      assert v * dt == targetDelta * dt;
    }
  }

  /** From rest, a positive target delta makes the position law push the wire forward. */
  lemma PositionLawPushesTowardTarget(axis: Axis, targetDelta: real, dt: real, maxJerkDt: real)
    requires maxJerkDt > 0.0
    requires axis.velocity == 0.0 && axis.prevAccel == 0.0 && targetDelta > 0.0
    ensures ServoStep(Position, axis, targetDelta, dt, maxJerkDt).prevAccel > 0.0
  {
  }

  class MechanicsModule {
    const controlMode: ControlMode
    const dt: real
    const maxJerkDt: real
    var prevAccel: real

    ghost predicate Valid()
      reads this
    {
      && maxJerkDt == 100000000.0 * dt
      && (dt >= 0.0 ==> -MAX_ACCEL <= prevAccel <= MAX_ACCEL)
    }

    constructor (mode: ControlMode, envDt: real)
      ensures Valid()
      ensures controlMode == mode && dt == envDt * 0.000001 && prevAccel == 0.0
    {
      controlMode := mode;
      dt := envDt * 0.000001;
      maxJerkDt := 100000000.0 * (envDt * 0.000001);
      prevAccel := 0.0;
    }

    /** __init__: reject an unknown control-mode string. */
    static method Create(mode: string, envDt: real) returns (r: Result<MechanicsModule, string>)
      ensures r.Ok? <==> ParseControlMode(mode).Ok?
      ensures r.Ok? ==> fresh(r.value) && r.value.Valid()
                        && r.value.controlMode == ParseControlMode(mode).value
                        && r.value.dt == envDt * 0.000001 && r.value.prevAccel == 0.0
    {
      var parsed := ParseControlMode(mode);
      match parsed {
        case Err(e) => r := Err(e);
        case Ok(m) =>
          var mechanics := new MechanicsModule(m, envDt);
          r := Ok(mechanics);
      }
    }

    /** update: one servo step written back to the wire's velocity and position. */
    method Update(state: EDMState)
      requires Valid()
      modifies this`prevAccel, state`wireVelocity, state`wirePosition
      ensures Valid()
      ensures Axis(state.wirePosition, state.wireVelocity, prevAccel) ==
              ServoStep(controlMode, Axis(old(state.wirePosition), old(state.wireVelocity), old(prevAccel)),
                        state.targetDelta, dt, maxJerkDt)
    {
      var x := state.wirePosition;
      var v := state.wireVelocity;
      // nominal acceleration, then the acceleration and jerk limits
      var aNom := Clip(NominalAccel(controlMode, x, v, state.targetDelta), MAX_ACCEL);
      var da := Clip(aNom - prevAccel, maxJerkDt);
      var a := prevAccel + da;
      if dt >= 0.0 {
        ServoLimits(controlMode, Axis(x, v, prevAccel), state.targetDelta, dt, maxJerkDt);
      }
      prevAccel := a;
      // Euler step with the speed limit
      v := Clip(Integrate(v, a, dt), MAX_SPEED);
      x := Integrate(x, v, dt);
      state.wireVelocity := v;
      state.wirePosition := x;
    }
  }
}
