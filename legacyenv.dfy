/**
 * The first gym environment, edm_environments/envs/wire_edm.py: a wire
 * driven by a discrete motor command, sparks sampled each microsecond from
 * the gap-dependent rate, recorded sparks that age and move down the
 * unwinding wire, and a break rule on adjacent close sparks.
 *
 * Every random draw of one microsecond is a `Draw` parameter. The dynamics
 * are stated once on the value `Sim` (functions Generate, Micro, MoveRun,
 * ServoRun); the class's methods are proved to act on its fields exactly
 * as those functions say.
 */
module LegacyEnv {
  import opened Wrappers
  import opened SparkRules
  import Ig = Ignition

  /** Constructor parameters (break_timeout is stored but never read). */
  datatype Config = Config(
    servoInterval: int, minStepSize: real, maxSteps: int, craterDiameter: real, craterDepth: real,
    pulseDuration: int, dissipationTime: int, restTime: int, workpieceHeight: int,
    unwindingSpeed: real, targetDistance: real, wireStart: real, workpieceStart: real, maxTimeSteps: int)

  /** A real with no fractional part: what a Python int in a real-valued field stands for. */
  predicate IsWhole(x: real) {
    x.Floor as real == x
  }

  const DEFAULT_CONFIG := Config(1000, 1.0, 1, 100.0, 5.0, 2, 100, 10, 10000, 0.17, 10000.0, 50.0, 100.0, 1000)

  /** Microseconds the generator stays off after a spark: rest time plus pulse duration. */
  function Downtime(c: Config): nat {
    Times(c.restTime + c.pulseDuration)
  }

  /** A spark of the current frame, for rendering: midpoint of the gap and height. */
  datatype FrameSpark = FrameSpark(x: real, y: real)

  /** The environment's changing fields as one value. */
  datatype Sim = Sim(
    workpiece: real, wire: real, sparks: seq<Spark>,
    timeCounter: int, timeCounterGlobal: int, sparkCounter: int, frame: seq<FrameSpark>,
    broken: bool, colliding: bool, reached: bool)

  /** `is_done`. */
  predicate Done(s: Sim) {
    s.broken || s.reached || s.colliding
  }

  /** The spark test: the roll against lambda at the signed distance wire - workpiece. */
  predicate Ignites(s: Sim, d: Draw) {
    d.sparkRoll < Ig.LambdaFormula(s.wire - s.workpiece)
  }

  /**
   * The bookkeeping of a spark in `_generate_sparks`: the time counter
   * restarts, the spark and global counters advance, the workpiece moves by
   * the increment and the spark is recorded with the full dissipation
   * lifetime; the global counter also covers the generator's downtime.
   */
  function Advanced(c: Config, increment: real, s: Sim, d: Draw): (r: Sim)
    ensures r.timeCounter == 0 && r.sparkCounter == s.sparkCounter + 1
    ensures r.timeCounterGlobal == s.timeCounterGlobal + 1 + Downtime(c)
    ensures r.workpiece == s.workpiece + increment && r.wire == s.wire
    ensures r.sparks == s.sparks + [Spark(d.sparkY as real, c.dissipationTime)]
    ensures r.frame == s.frame + [FrameSpark((r.wire + r.workpiece) / 2.0, d.sparkY as real)]
    ensures (r.broken, r.colliding, r.reached) == (s.broken, s.colliding, s.reached)
  {
    var workpiece := s.workpiece + increment;
    s.(workpiece := workpiece, sparks := s.sparks + [Spark(d.sparkY as real, c.dissipationTime)],
       timeCounter := 0, timeCounterGlobal := s.timeCounterGlobal + 1 + Downtime(c),
       sparkCounter := s.sparkCounter + 1,
       frame := s.frame + [FrameSpark((s.wire + workpiece) / 2.0, d.sparkY as real)])
  }

  /** The break rule applied to the recorded sparks' positions, with the draw's break roll. */
  predicate Breaks(c: Config, sparks: seq<Spark>, d: Draw) {
    d.breakRoll < BreakProbabilityHaz(Positions(sparks), 2.0 * c.craterDiameter) as real
  }

  /** The three flags recomputed after a spark; nothing else changes. */
  function Flagged(c: Config, s: Sim, d: Draw): (r: Sim)
    ensures r.broken == Breaks(c, s.sparks, d)
    ensures r.colliding == (s.wire >= s.workpiece) && r.reached == (s.workpiece >= c.targetDistance)
    ensures r.(broken := s.broken, colliding := s.colliding, reached := s.reached) == s
  {
    s.(broken := Breaks(c, s.sparks, d), colliding := s.wire >= s.workpiece, reached := s.workpiece >= c.targetDistance)
  }

  /** The spark branch of `_generate_sparks`. */
  function Sparked(c: Config, increment: real, s: Sim, d: Draw): Sim {
    Flagged(c, Advanced(c, increment, s, d), d)
  }

  /** `_generate_sparks`: the spark branch, or else only the two time counters advance. */
  function Generate(c: Config, increment: real, s: Sim, d: Draw): (r: Sim)
    ensures !Ignites(s, d) ==>
              r == s.(timeCounter := s.timeCounter + 1, timeCounterGlobal := s.timeCounterGlobal + 1)
    ensures Ignites(s, d) ==> r == Sparked(c, increment, s, d)
  {
    if Ignites(s, d) then Sparked(c, increment, s, d)
    else s.(timeCounter := s.timeCounter + 1, timeCounterGlobal := s.timeCounterGlobal + 1)
  }

  /** One microsecond: sparks, then the wire unwinds under the recorded ones. */
  function Micro(c: Config, increment: real, s: Sim, d: Draw): Sim {
    var g := Generate(c, increment, s, d);
    g.(sparks := Unwound(g.sparks, c.unwindingSpeed))
  }

  /** One motor step: the wire moves by direction * min_step_size. */
  function Moved(c: Config, s: Sim, direction: int): (r: Sim)
    ensures r.wire == s.wire + direction as real * c.minStepSize
    ensures r.(wire := s.wire) == s
  {
    s.(wire := s.wire + direction as real * c.minStepSize)
  }

  /** `_move_motor`: per motor step the wire moves by direction * min_step_size, then one microsecond. */
  function MoveRun(c: Config, increment: real, s: Sim, direction: int, draws: seq<Draw>): Sim
    decreases |draws|
  {
    if draws == [] then s
    else MoveRun(c, increment, Micro(c, increment, Moved(c, s, direction), draws[0]),
                 direction, draws[1..])
  }

  /** The first motor step of a run, unfolded. */
  lemma MoveRunUnfold(c: Config, increment: real, s: Sim, direction: int, draws: seq<Draw>)
    requires draws != []
    ensures MoveRun(c, increment, s, direction, draws)
            == MoveRun(c, increment, Micro(c, increment, Moved(c, s, direction), draws[0]),
                       direction, draws[1..])
  {
  }

  /** The servo interval of a step: microseconds until the draws run out or the episode is done. */
  function ServoRun(c: Config, increment: real, s: Sim, draws: seq<Draw>): Sim
    decreases |draws|
  {
    if draws == [] then s
    else
      var next := Micro(c, increment, s, draws[0]);
      if Done(next) then next else ServoRun(c, increment, next, draws[1..])
  }

  /** Microseconds without the early stop, as a reference for ServoRun. */
  function MicroRun(c: Config, increment: real, s: Sim, draws: seq<Draw>): Sim
    decreases |draws|
  {
    if draws == [] then s else MicroRun(c, increment, Micro(c, increment, s, draws[0]), draws[1..])
  }

  /** How many microseconds ServoRun executes. */
  function ServoTicks(c: Config, increment: real, s: Sim, draws: seq<Draw>): nat
    decreases |draws|
  {
    if draws == [] then 0
    else
      var next := Micro(c, increment, s, draws[0]);
      if Done(next) then 1 else 1 + ServoTicks(c, increment, next, draws[1..])
  }

  /**
   * The servo loop is the reference run over a prefix of the draws: all of
   * them unless it stopped early, and it stops early only once the episode
   * is done.
   */
  lemma {:induction false} ServoRunIsPrefix(c: Config, increment: real, s: Sim, draws: seq<Draw>)
    ensures var j := ServoTicks(c, increment, s, draws);
            && j <= |draws|
            && (draws != [] ==> j >= 1)
            && ServoRun(c, increment, s, draws) == MicroRun(c, increment, s, draws[..j])
            && (j < |draws| ==> Done(ServoRun(c, increment, s, draws)))
    decreases |draws|
  {
    if draws != [] {
      var next := Micro(c, increment, s, draws[0]);
      var j := ServoTicks(c, increment, s, draws);
      if Done(next) {
        assert draws[..1][1..] == [];
      } else {
        ServoRunIsPrefix(c, increment, next, draws[1..]);
        assert draws[..j][0] == draws[0];
        assert draws[..j][1..] == draws[1..][..j - 1];
      }
    }
  }

  /** One microsecond either records no spark or exactly one, and never moves the wire. */
  lemma MicroAccounting(c: Config, increment: real, s: Sim, d: Draw)
    ensures var n := Micro(c, increment, s, d);
            && n.wire == s.wire
            && ((n.sparkCounter == s.sparkCounter && n.timeCounterGlobal == s.timeCounterGlobal + 1
                 && n.workpiece == s.workpiece)
                || (n.sparkCounter == s.sparkCounter + 1 && n.timeCounterGlobal == s.timeCounterGlobal + 1 + Downtime(c)
                    && n.workpiece == s.workpiece + increment))
  {
  }

  /**
   * From `s` to `r` over `n` motor steps: between 0 and `n` sparks, each
   * costing its downtime on the global clock and one increment of the
   * workpiece, and a wire moved by `n` steps.
   */
  predicate Accounted(c: Config, increment: real, s: Sim, r: Sim, direction: int, n: nat) {
    var k := r.sparkCounter - s.sparkCounter;
    && 0 <= k <= n
    && r.timeCounterGlobal == s.timeCounterGlobal + n + k * Downtime(c)
    && r.workpiece == s.workpiece + k as real * increment
    && r.wire == s.wire + n as real * (direction as real * c.minStepSize)
  }

  /** One motor step and its microsecond account for themselves. */
  lemma MoveStepAccounted(c: Config, increment: real, s: Sim, direction: int, d: Draw)
    ensures Accounted(c, increment, s, Micro(c, increment, Moved(c, s, direction), d),
                      direction, 1)
  {
    var moved := Moved(c, s, direction);
    MicroAccounting(c, increment, moved, d);
    AccountedOne(c, increment, s, Micro(c, increment, moved, d), direction);
  }

  lemma AccountedOne(c: Config, increment: real, s: Sim, n: Sim, direction: int)
    requires n.wire == s.wire + direction as real * c.minStepSize
    requires || (n.sparkCounter == s.sparkCounter && n.timeCounterGlobal == s.timeCounterGlobal + 1
                 && n.workpiece == s.workpiece)
             || (n.sparkCounter == s.sparkCounter + 1 && n.timeCounterGlobal == s.timeCounterGlobal + 1 + Downtime(c)
                 && n.workpiece == s.workpiece + increment)
    ensures Accounted(c, increment, s, n, direction, 1)
  {
    if n.sparkCounter == s.sparkCounter {
      assert 0 * Downtime(c) == 0;
    }
  }

  lemma AccountedChain(c: Config, increment: real, s: Sim, m: Sim, r: Sim, direction: int, n: nat)
    requires Accounted(c, increment, s, m, direction, 1)
    requires Accounted(c, increment, m, r, direction, n)
    ensures Accounted(c, increment, s, r, direction, n + 1)
  {
    var j, k := m.sparkCounter - s.sparkCounter, r.sparkCounter - m.sparkCounter;
    MulSucc(n, direction as real * c.minStepSize);
    assert (j + k) * Downtime(c) == j * Downtime(c) + k * Downtime(c);
    assert (j + k) as real * increment == j as real * increment + k as real * increment;
  }

  /**
   * Bookkeeping of a motor move: every microsecond adds one to the global
   * counter and every spark adds the downtime on top; the workpiece moves
   * by one increment per spark and the wire by one step per microsecond.
   */
  lemma {:induction false} MoveRunAccounting(c: Config, increment: real, s: Sim, direction: int, draws: seq<Draw>)
    ensures Accounted(c, increment, s, MoveRun(c, increment, s, direction, draws), direction, |draws|)
    decreases |draws|
  {
    if draws != [] {
      var next := Micro(c, increment, Moved(c, s, direction), draws[0]);
      MoveStepAccounted(c, increment, s, direction, draws[0]);
      var r := MoveRun(c, increment, next, direction, draws[1..]);
      MoveRunUnfold(c, increment, s, direction, draws);
      MoveRunAccounting(c, increment, next, direction, draws[1..]);
      AccountedChain(c, increment, s, next, r, direction, |draws[1..]|);
    }
  }

  /**
   * The flags describe the last spark only: after a spark, with a break roll
   * in [0, 1) as `np.random.rand()` draws it, a broken flag set by an earlier
   * spark (which the motor move, having no done check, can reach) is cleared
   * exactly when the hazard rule over the sparks including the new one gives
   * probability 0.
   */
  lemma FlagsFollowLastSpark(c: Config, increment: real, s: Sim, d: Draw)
    requires s.broken && Ignites(s, d) && 0.0 <= d.breakRoll < 1.0
    ensures (!Generate(c, increment, s, d).broken)
        <==> BreakProbabilityHaz(Positions(Advanced(c, increment, s, d).sparks), 2.0 * c.craterDiameter) == 0
  {
  }

  /** What `get_info` reports. */
  datatype Info = Info(workpiece: real, wire: real, timeCounter: int, timeCounterGlobal: int, broken: bool)

  class LegacyWireEDMEnv {
    const config: Config
    /** crater_depth * crater_diameter / workpiece_height. */
    const increment: real
    var workpiecePosition: real
    var wirePosition: real
    var sparks: seq<Spark>
    var timeCounter: int
    var timeCounterGlobal: int
    var sparkCounter: int
    var sparksFrame: seq<FrameSpark>
    var isWireBroken: bool
    var isWireColliding: bool
    var isTargetDistanceReached: bool
    var timeStepCount: int
    var truncated: bool
    /** Lambda per signed distance already computed. */
    var lambdaCache: map<real, real>

    function Snap(): Sim
      reads this`workpiecePosition, this`wirePosition, this`sparks, this`timeCounter, this`timeCounterGlobal
      reads this`sparkCounter, this`sparksFrame, this`isWireBroken, this`isWireColliding, this`isTargetDistanceReached
    {
      Sim(workpiecePosition, wirePosition, sparks, timeCounter, timeCounterGlobal, sparkCounter, sparksFrame,
          isWireBroken, isWireColliding, isTargetDistanceReached)
    }

    ghost predicate Valid()
      reads this`lambdaCache
    {
      && config.workpieceHeight != 0
      && increment == config.craterDepth * config.craterDiameter / config.workpieceHeight as real
      && forall d :: d in lambdaCache ==> lambdaCache[d] == Ig.LambdaFormula(d)
    }

    constructor (c: Config)
      requires c.workpieceHeight != 0
      ensures Valid() && config == c
      ensures Snap() == Sim(c.workpieceStart, c.wireStart, [], 0, 0, 0, [], false, false, false)
      ensures timeStepCount == 0 && !truncated && lambdaCache == map[]
    {
      config := c;
      increment := c.craterDepth * c.craterDiameter / c.workpieceHeight as real;
      workpiecePosition, wirePosition := c.workpieceStart, c.wireStart;
      sparks, sparksFrame := [], [];
      timeCounter, timeCounterGlobal, sparkCounter := 0, 0, 0;
      isWireBroken, isWireColliding, isTargetDistanceReached := false, false, false;
      timeStepCount, truncated := 0, false;
      lambdaCache := map[];
    }

    /**
     * __init__: the derived increment divides by the workpiece height, and
     * the gap-average buffer repeats [0] initial_gap times, which needs a
     * whole initial gap.
     */
    static method Create(c: Config) returns (r: Result<LegacyWireEDMEnv, string>)
      ensures r.Err? <==> c.workpieceHeight == 0 || !IsWhole(c.workpieceStart - c.wireStart)
      ensures c.workpieceHeight == 0 ==> r == Err("ZeroDivisionError")
      ensures c.workpieceHeight != 0 && !IsWhole(c.workpieceStart - c.wireStart) ==> r == Err("TypeError")
      ensures r.Ok? ==> fresh(r.value) && r.value.Valid() && r.value.config == c
                        && r.value.Snap() == Sim(c.workpieceStart, c.wireStart, [], 0, 0, 0, [], false, false, false)
    {
      if c.workpieceHeight == 0 {
        return Err("ZeroDivisionError");
      }
      if !IsWhole(c.workpieceStart - c.wireStart) {
        return Err("TypeError");
      }
      var env := new LegacyWireEDMEnv(c);
      r := Ok(env);
    }

    /** _get_lambda: the closed form at the signed distance, memoised under it. */
    method GetLambda() returns (lambda: real)
      requires Valid()
      modifies this`lambdaCache
      ensures Valid()
      ensures var d := wirePosition - workpiecePosition;
              && lambda == Ig.LambdaFormula(d)
              && lambdaCache == old(lambdaCache)[d := lambda]
    {
      var d := wirePosition - workpiecePosition;
      if d in lambdaCache {
        assert lambdaCache == lambdaCache[d := lambdaCache[d]];
        return lambdaCache[d];
      }
      lambda := Ig.LambdaFormula(d);
      lambdaCache := lambdaCache[d := lambda];
    }

    /** _generate_sparks. */
    method GenerateSparks(d: Draw)
      requires Valid()
      modifies this`workpiecePosition, this`wirePosition, this`sparks, this`timeCounter, this`timeCounterGlobal
      modifies this`sparkCounter, this`sparksFrame, this`isWireBroken, this`isWireColliding, this`isTargetDistanceReached
      modifies this`lambdaCache
      ensures Valid()
      ensures Snap() == Generate(config, increment, old(Snap()), d)
    {
      ghost var s0 := Snap();
      var lambda := GetLambda();
      assert Snap() == s0;
      if d.sparkRoll < lambda {
        assert Ignites(s0, d);
        RecordSpark(d);
      } else {
        assert !Ignites(s0, d);
        timeCounter, timeCounterGlobal := timeCounter + 1, timeCounterGlobal + 1;
      }
    }

    /** The spark branch: the bookkeeping, then the flags. */
    method RecordSpark(d: Draw)
      modifies this`timeCounter, this`timeCounterGlobal, this`sparkCounter, this`workpiecePosition
      modifies this`sparks, this`sparksFrame, this`isWireBroken, this`isWireColliding, this`isTargetDistanceReached
      ensures Snap() == Sparked(config, increment, old(Snap()), d)
    {
      AdvanceSpark(d);
      UpdateFlags(d);
    }

    /** The spark's bookkeeping, including the loop that counts the generator's downtime. */
    method AdvanceSpark(d: Draw)
      modifies this`timeCounter, this`timeCounterGlobal, this`sparkCounter, this`workpiecePosition
      modifies this`sparks, this`sparksFrame
      ensures Snap() == Advanced(config, increment, old(Snap()), d)
    {
      var workpiece := workpiecePosition + increment;
      var clock, k := timeCounterGlobal + 1, 0;
      while k < config.restTime + config.pulseDuration
        invariant 0 <= k <= Downtime(config)
        invariant clock == timeCounterGlobal + 1 + k
      {
        clock, k := clock + 1, k + 1;
      }
      timeCounter, timeCounterGlobal, sparkCounter, workpiecePosition := 0, clock, sparkCounter + 1, workpiece;
      sparks := sparks + [Spark(d.sparkY as real, config.dissipationTime)];
      sparksFrame := sparksFrame + [FrameSpark((wirePosition + workpiece) / 2.0, d.sparkY as real)];
    }

    /** The break, collision and target flags after a spark. */
    method UpdateFlags(d: Draw)
      modifies this`isWireBroken, this`isWireColliding, this`isTargetDistanceReached
      ensures Snap() == Flagged(config, old(Snap()), d)
    {
      isWireBroken := d.breakRoll < BreakProbabilityHaz(Positions(sparks), 2.0 * config.craterDiameter) as real;
      isWireColliding, isTargetDistanceReached := wirePosition >= workpiecePosition, workpiecePosition >= config.targetDistance;
    }

    /** _unwind_wire: a new list of the shifted sparks that are kept. */
    method UnwindWire()
      modifies this`sparks
      ensures sparks == Unwound(old(sparks), config.unwindingSpeed)
    {
      var kept: seq<Spark> := [];
      var i := 0;
      while i < |sparks|
        invariant 0 <= i <= |sparks|
        invariant kept == Unwound(sparks[..i], config.unwindingSpeed)
      {
        var moved := Shifted(sparks[i], config.unwindingSpeed);
        if Kept(moved) {
          kept := kept + [moved];
        }
        assert sparks[..i + 1][..i] == sparks[..i];
        i := i + 1;
      }
      assert sparks[..i] == sparks;
      sparks := kept;
    }

    /** One microsecond: sparks, then unwinding. */
    method Tick(d: Draw)
      requires Valid()
      modifies this`workpiecePosition, this`wirePosition, this`sparks, this`timeCounter, this`timeCounterGlobal
      modifies this`sparkCounter, this`sparksFrame, this`isWireBroken, this`isWireColliding, this`isTargetDistanceReached
      modifies this`lambdaCache
      ensures Valid()
      ensures Snap() == Micro(config, increment, old(Snap()), d)
    {
      GenerateSparks(d);
      UnwindWire();
    }

    /** _move_motor: one microsecond after each motor step. */
    method MoveMotor(m: MotorStep, draws: seq<Draw>)
      requires Valid() && |draws| == Times(m.steps)
      modifies this`workpiecePosition, this`wirePosition, this`sparks, this`timeCounter, this`timeCounterGlobal
      modifies this`sparkCounter, this`sparksFrame, this`isWireBroken, this`isWireColliding, this`isTargetDistanceReached
      modifies this`lambdaCache
      ensures Valid()
      ensures Snap() == MoveRun(config, increment, old(Snap()), m.direction, draws)
    {
      var i := 0;
      while i < |draws|
        invariant 0 <= i <= |draws| && Valid()
        invariant MoveRun(config, increment, Snap(), m.direction, draws[i..])
                  == MoveRun(config, increment, old(Snap()), m.direction, draws)
      {
        MoveRunUnfold(config, increment, Snap(), m.direction, draws[i..]);
        MoveAndTick(m.direction, draws[i]);
        assert draws[i..][1..] == draws[i + 1..];
        i := i + 1;
      }
    }

    /** One motor step of the wire followed by one microsecond. */
    method MoveAndTick(direction: int, d: Draw)
      requires Valid()
      modifies this`workpiecePosition, this`wirePosition, this`sparks, this`timeCounter, this`timeCounterGlobal
      modifies this`sparkCounter, this`sparksFrame, this`isWireBroken, this`isWireColliding, this`isTargetDistanceReached
      modifies this`lambdaCache
      ensures Valid()
      ensures var s := old(Snap()); Snap() == Micro(config, increment, Moved(config, s, direction), d)
    {
      wirePosition := wirePosition + direction as real * config.minStepSize;
      assert Snap() == Moved(config, old(Snap()), direction);
      Tick(d);
    }

    /** The microsecond loop of step, which stops once the episode is done. */
    method ServoLoop(draws: seq<Draw>)
      requires Valid()
      modifies this`workpiecePosition, this`wirePosition, this`sparks, this`timeCounter, this`timeCounterGlobal
      modifies this`sparkCounter, this`sparksFrame, this`isWireBroken, this`isWireColliding, this`isTargetDistanceReached
      modifies this`lambdaCache
      ensures Valid()
      ensures Snap() == ServoRun(config, increment, old(Snap()), draws)
    {
      var i := 0;
      while i < |draws|
        invariant 0 <= i <= |draws| && Valid()
        invariant ServoRun(config, increment, Snap(), draws[i..]) == ServoRun(config, increment, old(Snap()), draws)
      {
        Tick(draws[i]);
        var done := IsDone();
        if done {
          return;
        }
        i := i + 1;
      }
    }

    /** is_done. */
    method IsDone() returns (done: bool)
      ensures done == Done(Snap())
    {
      done := isWireBroken || isTargetDistanceReached || isWireColliding;
    }

    /**
     * step: the frame and spark counter are cleared, the motor moves, the
     * servo interval runs until done, and the reward is the signed motor
     * move minus 1000 per broken or colliding wire. `truncated` latches once
     * more than max_time_steps steps were taken.
     */
    method Step(action: int, moveDraws: seq<Draw>, servoDraws: seq<Draw>)
      returns (obs: int, reward: int, terminated: bool, trunc: bool, info: Info)
      requires Valid()
      requires |moveDraws| == DecodeAction(action, config.maxSteps).steps
      requires |servoDraws| == Times(config.servoInterval)
      modifies this
      ensures Valid()
      ensures var m := DecodeAction(action, config.maxSteps);
              var r := ServoRun(config, increment,
                                MoveRun(config, increment, old(Snap()).(frame := [], sparkCounter := 0),
                                        m.direction, moveDraws),
                                servoDraws);
              && Snap() == r
              && obs == r.sparkCounter
              && reward == m.direction * m.steps - (if r.broken then 1000 else 0) - (if r.colliding then 1000 else 0)
              && terminated == Done(r)
              && info == Info(r.workpiece, r.wire, r.timeCounter, r.timeCounterGlobal, r.broken)
      ensures timeStepCount == old(timeStepCount) + 1
      ensures trunc == truncated && truncated == (old(truncated) || timeStepCount > config.maxTimeSteps)
    {
      var m := DecodeAction(action, config.maxSteps);
      Simulate(m, moveDraws, servoDraws);
      obs := sparkCounter;
      info := Info(workpiecePosition, wirePosition, timeCounter, timeCounterGlobal, isWireBroken);
      reward := m.direction * m.steps - (if isWireBroken then 1000 else 0) - (if isWireColliding then 1000 else 0);
      timeStepCount := timeStepCount + 1;
      if timeStepCount > config.maxTimeSteps {
        truncated := true;
      }
      terminated := IsDone();
      trunc := truncated;
    }

    /** The simulated part of step: counters cleared, the motor moved, then the servo interval. */
    method Simulate(m: MotorStep, moveDraws: seq<Draw>, servoDraws: seq<Draw>)
      requires Valid() && |moveDraws| == Times(m.steps)
      modifies this`workpiecePosition, this`wirePosition, this`sparks, this`timeCounter, this`timeCounterGlobal
      modifies this`sparkCounter, this`sparksFrame, this`isWireBroken, this`isWireColliding, this`isTargetDistanceReached
      modifies this`lambdaCache
      ensures Valid()
      ensures Snap() == ServoRun(config, increment,
                                 MoveRun(config, increment, old(Snap()).(frame := [], sparkCounter := 0),
                                         m.direction, moveDraws),
                                 servoDraws)
    {
      sparksFrame, sparkCounter := [], 0;
      ghost var cleared := Snap();
      assert cleared == old(Snap()).(frame := [], sparkCounter := 0);
      MoveMotor(m, moveDraws);
      ghost var moved := Snap();
      assert moved == MoveRun(config, increment, cleared, m.direction, moveDraws);
      ServoLoop(servoDraws);
    }

    /**
     * reset: start positions, zeroed counters, cleared flags and frame. The
     * recorded sparks and the lambda cache are kept.
     */
    method Reset() returns (obs: int, info: Info)
      requires Valid()
      modifies this
      ensures Valid()
      ensures workpiecePosition == config.workpieceStart && wirePosition == config.wireStart
      ensures timeCounter == 0 && timeCounterGlobal == 0 && sparkCounter == 0 && sparksFrame == []
      ensures !isWireBroken && !isWireColliding && !isTargetDistanceReached && sparks == old(sparks)
      ensures timeStepCount == 0 && !truncated && lambdaCache == old(lambdaCache)
      ensures obs == 0 && info == Info(config.workpieceStart, config.wireStart, 0, 0, false)
    {
      workpiecePosition, wirePosition := config.workpieceStart, config.wireStart;
      timeCounter, timeCounterGlobal, sparkCounter, timeStepCount := 0, 0, 0, 0;
      sparksFrame := [];
      isWireBroken, isWireColliding, isTargetDistanceReached := false, false, false;
      truncated := false;
      obs := sparkCounter;
      info := Info(workpiecePosition, wirePosition, timeCounter, timeCounterGlobal, isWireBroken);
    }
  }
}
