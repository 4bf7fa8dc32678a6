/**
 * The stand-alone gym environment of wedm-environment.py: the same motor
 * command and spark sampling as the first gym environment, but the recent
 * spark heights live in a bounded deque of length dissipation_time ("-1"
 * marks a microsecond without a spark), the deque entries rise in place
 * while the wire unwinds, the break rule counts close pairs among the real
 * entries, and the reward counts the sparks of the step.
 *
 * The file never imports `deque`; the model reads it as
 * `collections.deque`. Every random draw of one microsecond is a `Draw`
 * parameter.
 */
module WedmEnv {
  import opened Wrappers
  import opened SparkRules
  import opened Common
  import Ig = Ignition

  /** Constructor parameters (break_timeout is stored but never read). */
  datatype Config = Config(
    servoInterval: int, minStepSize: real, maxSteps: int, craterDiameter: real, craterDepth: real,
    pulseDuration: int, dissipationTime: int, breakTimeout: int, restTime: int, workpieceHeight: int,
    unwindingSpeed: real, targetDistance: real, wireStart: real, workpieceStart: real)

  const DEFAULT_CONFIG := Config(1000, 1.0, 5, 100.0, 4.0, 2, 100, 60000000, 10, 50000, 0.17, 1000.0, 0.0, 100.0)

  /** Maximum length of the spark-position deque. */
  function MaxLen(c: Config): nat {
    Times(c.dissipationTime)
  }

  /** Microseconds the generator stays off after a spark. */
  function Downtime(c: Config): nat {
    Times(c.restTime + c.pulseDuration)
  }

  /** The environment's changing fields as one value. */
  datatype Sim = Sim(
    workpiece: real, wire: real, positions: seq<real>, visual: seq<VisualSpark>,
    timeCounter: int, timeCounterGlobal: int, sparkCounter: int,
    broken: bool, colliding: bool, reached: bool)

  /** `is_done`. */
  predicate Done(s: Sim) {
    s.broken || s.reached || s.colliding
  }

  /** The spark test: the roll against lambda at the signed distance wire - workpiece. */
  predicate Ignites(s: Sim, d: Draw) {
    d.sparkRoll < Ig.LambdaFormula(s.wire - s.workpiece)
  }

  /**
   * The bookkeeping of a spark: counters, the workpiece increment, the
   * spark height appended to the deque and a new visual spark.
   */
  function Advanced(c: Config, increment: real, s: Sim, d: Draw): (r: Sim)
    ensures r.sparkCounter == s.sparkCounter + 1 && r.timeCounter == 0
    ensures r.timeCounterGlobal == s.timeCounterGlobal + 1
    ensures r.workpiece == s.workpiece + increment && r.wire == s.wire
    ensures r.positions == Push(s.positions, MaxLen(c), d.sparkY as real)
    ensures r.visual == s.visual + [VisualSpark((r.wire + r.workpiece) / 2.0, d.sparkY as real, SPARK_LIFESPAN)]
    ensures (r.broken, r.colliding, r.reached) == (s.broken, s.colliding, s.reached)
  {
    var workpiece := s.workpiece + increment;
    s.(sparkCounter := s.sparkCounter + 1, workpiece := workpiece,
       positions := Push(s.positions, MaxLen(c), d.sparkY as real),
       visual := s.visual + [VisualSpark((s.wire + workpiece) / 2.0, d.sparkY as real, SPARK_LIFESPAN)],
       timeCounter := 0, timeCounterGlobal := s.timeCounterGlobal + 1)
  }

  /** The break, collision and target flags after a spark; nothing else changes. */
  function Flagged(c: Config, s: Sim, d: Draw): (r: Sim)
    ensures r.broken == (d.breakRoll < BreakProbabilityCrater(s.positions, c.craterDiameter) as real)
    ensures r.colliding == (s.wire >= s.workpiece) && r.reached == (s.workpiece >= c.targetDistance)
    ensures r.(broken := s.broken, colliding := s.colliding, reached := s.reached) == s
  {
    s.(broken := d.breakRoll < BreakProbabilityCrater(s.positions, c.craterDiameter) as real,
       colliding := s.wire >= s.workpiece, reached := s.workpiece >= c.targetDistance)
  }

  /** The generator's downtime: one global microsecond and one empty deque slot each. */
  function Rested(c: Config, s: Sim): (r: Sim)
    ensures r.timeCounterGlobal == s.timeCounterGlobal + Downtime(c)
    ensures r.positions == PushAll(s.positions, MaxLen(c), Repeat(-1.0, Downtime(c)))
  {
    s.(timeCounterGlobal := s.timeCounterGlobal + Downtime(c),
       positions := PushAll(s.positions, MaxLen(c), Repeat(-1.0, Downtime(c))))
  }

  /** A microsecond without a spark. */
  function Quiet(c: Config, s: Sim): (r: Sim)
    ensures r.positions == Push(s.positions, MaxLen(c), -1.0)
    ensures r.timeCounter == s.timeCounter + 1 && r.timeCounterGlobal == s.timeCounterGlobal + 1
    ensures r.(positions := s.positions, timeCounter := s.timeCounter, timeCounterGlobal := s.timeCounterGlobal) == s
  {
    s.(positions := Push(s.positions, MaxLen(c), -1.0),
       timeCounter := s.timeCounter + 1, timeCounterGlobal := s.timeCounterGlobal + 1)
  }

  /** `_generate_sparks`: a spark or a quiet microsecond, then the visual sparks fade. */
  function Generate(c: Config, increment: real, s: Sim, d: Draw): Sim {
    var g := if Ignites(s, d) then Rested(c, Flagged(c, Advanced(c, increment, s, d), d)) else Quiet(c, s);
    g.(visual := Faded(g.visual))
  }

  /** One microsecond: sparks, then the deque entries rise with the unwinding wire. */
  function Micro(c: Config, increment: real, s: Sim, d: Draw): Sim {
    var g := Generate(c, increment, s, d);
    g.(positions := UnwindAll(g.positions, c.unwindingSpeed, c.workpieceHeight as real))
  }

  /**
   * The deque after a microsecond: a spark appends its height and then one
   * empty slot per downtime microsecond, a quiet microsecond appends one
   * empty slot; a deque within its bound keeps the last dissipation_time
   * entries of that.
   */
  lemma GeneratedPositions(c: Config, increment: real, s: Sim, d: Draw)
    requires |s.positions| <= MaxLen(c)
    ensures var appended := if Ignites(s, d) then [d.sparkY as real] + Repeat(-1.0, Downtime(c)) else [-1.0];
            Generate(c, increment, s, d).positions == Window(s.positions + appended, MaxLen(c))
  {
    if Ignites(s, d) {
      var a := Advanced(c, increment, s, d);
      PushAllIsWindow(a.positions, MaxLen(c), Repeat(-1.0, Downtime(c)));
      PushAllIsWindow(s.positions, MaxLen(c), [d.sparkY as real] + Repeat(-1.0, Downtime(c)));
      PushAllSplit(s.positions, MaxLen(c), [d.sparkY as real], Repeat(-1.0, Downtime(c)));
      assert PushAll(s.positions, MaxLen(c), [d.sparkY as real]) == a.positions by {
        assert [d.sparkY as real][..0] == [];
      }
    }
  }

  /**
   * A full deque stays full: one microsecond, whatever happens in it, keeps
   * dissipation_time entries.
   */
  lemma GenerateKeepsDeque(c: Config, increment: real, s: Sim, d: Draw)
    requires |s.positions| == MaxLen(c)
    ensures |Generate(c, increment, s, d).positions| == MaxLen(c)
  {
    if Ignites(s, d) {
      var a := Advanced(c, increment, s, d);
      PushAllKeepsLength(a.positions, MaxLen(c), Repeat(-1.0, Downtime(c)));
    }
  }

  lemma MicroKeepsDeque(c: Config, increment: real, s: Sim, d: Draw)
    requires |s.positions| == MaxLen(c)
    ensures |Micro(c, increment, s, d).positions| == MaxLen(c)
  {
    GenerateKeepsDeque(c, increment, s, d);
  }

  /** One microsecond records no spark or exactly one, and never moves the wire. */
  lemma MicroAccounting(c: Config, increment: real, s: Sim, d: Draw)
    ensures var n := Micro(c, increment, s, d);
            && n.wire == s.wire
            && ((n.sparkCounter == s.sparkCounter && n.timeCounter == s.timeCounter + 1
                 && n.timeCounterGlobal == s.timeCounterGlobal + 1 && n.workpiece == s.workpiece)
                || (n.sparkCounter == s.sparkCounter + 1 && n.timeCounter == 0
                    && n.timeCounterGlobal == s.timeCounterGlobal + 1 + Downtime(c)
                    && n.workpiece == s.workpiece + increment))
  {
  }

  /** One motor step: the wire moves by direction * min_step_size. */
  function Moved(c: Config, s: Sim, direction: int): (r: Sim)
    ensures r.wire == s.wire + direction as real * c.minStepSize
    ensures r.(wire := s.wire) == s
  {
    s.(wire := s.wire + direction as real * c.minStepSize)
  }

  /** `_move_motor`: per motor step the wire moves, then one microsecond. */
  function MoveRun(c: Config, increment: real, s: Sim, direction: int, draws: seq<Draw>): Sim
    decreases |draws|
  {
    if draws == [] then s
    else MoveRun(c, increment, Micro(c, increment, Moved(c, s, direction), draws[0]), direction, draws[1..])
  }

  /** The first motor step of a run, unfolded. */
  lemma MoveRunUnfold(c: Config, increment: real, s: Sim, direction: int, draws: seq<Draw>)
    requires draws != []
    ensures MoveRun(c, increment, s, direction, draws)
            == MoveRun(c, increment, Micro(c, increment, Moved(c, s, direction), draws[0]), direction, draws[1..])
  {
  }

  /** The servo interval of a step: microseconds until the draws run out or the episode is done. */
  function ServoRun(c: Config, increment: real, s: Sim, draws: seq<Draw>): Sim
    decreases |draws|
  {
    if draws == [] then s
    else
      var next := Micro(c, increment, s, draws[0]);
      if Done(next) then next else ServoRun(c, increment, next, draws[1..])
  }

  /** A microsecond count and every run keep a full deque full. */
  lemma {:induction false} RunsKeepDeque(c: Config, increment: real, s: Sim, direction: int, draws: seq<Draw>)
    requires |s.positions| == MaxLen(c)
    ensures |MoveRun(c, increment, s, direction, draws).positions| == MaxLen(c)
    ensures |ServoRun(c, increment, s, draws).positions| == MaxLen(c)
    decreases |draws|
  {
    if draws != [] {
      var moved := Moved(c, s, direction);
      MicroKeepsDeque(c, increment, moved, draws[0]);
      RunsKeepDeque(c, increment, Micro(c, increment, moved, draws[0]), direction, draws[1..]);
      MicroKeepsDeque(c, increment, s, draws[0]);
      RunsKeepDeque(c, increment, Micro(c, increment, s, draws[0]), direction, draws[1..]);
    }
  }

  /** The reward of a step: its sparks, minus 1000 for a broken and 1000 for a colliding wire. */
  function Reward(s: Sim): (r: int)
    ensures !s.broken && !s.colliding ==> r == s.sparkCounter
    ensures r <= s.sparkCounter
    ensures s.broken && s.colliding ==> r == s.sparkCounter - 2000
  {
    s.sparkCounter - (if s.broken then 1000 else 0) - (if s.colliding then 1000 else 0)
  }

  /** `get_info`. */
  datatype Info = Info(workpiece: real, wire: real, timeCounter: int, timeCounterGlobal: int, broken: bool)

  function InfoOf(s: Sim): Info {
    Info(s.workpiece, s.wire, s.timeCounter, s.timeCounterGlobal, s.broken)
  }

  /**
   * The loop over rest_time + pulse_duration microseconds of downtime: one
   * empty slot appended to the deque per microsecond.
   */
  method DowntimeLoop(p: seq<real>, maxlen: nat, n: int) returns (ticks: nat, r: seq<real>)
    ensures ticks == Times(n)
    ensures r == PushAll(p, maxlen, Repeat(-1.0, Times(n)))
  {
    ticks, r := 0, p;
    while ticks < n
      invariant ticks <= Times(n)
      invariant r == PushAll(p, maxlen, Repeat(-1.0, ticks))
    {
      assert Repeat(-1.0, ticks + 1)[..ticks] == Repeat(-1.0, ticks);
      ticks, r := ticks + 1, Push(r, maxlen, -1.0);
    }
  }

  class WireEdmEnv {
    const config: Config
    /** crater_depth * crater_diameter / workpiece_height. */
    const increment: real
    var workpiecePosition: real
    var wirePosition: real
    /** The deque of recent spark heights, -1 for a microsecond without a spark. */
    var sparksPositions: seq<real>
    /** The sparks being drawn. */
    var sparks: seq<VisualSpark>
    var timeCounter: int
    var timeCounterGlobal: int
    var sparkCounter: int
    var isWireBroken: bool
    var isWireColliding: bool
    var isTargetDistanceReached: bool

    function Snap(): Sim
      reads this`workpiecePosition, this`wirePosition, this`sparksPositions, this`sparks, this`timeCounter
      reads this`timeCounterGlobal, this`sparkCounter, this`isWireBroken, this`isWireColliding, this`isTargetDistanceReached
    {
      Sim(workpiecePosition, wirePosition, sparksPositions, sparks, timeCounter, timeCounterGlobal, sparkCounter,
          isWireBroken, isWireColliding, isTargetDistanceReached)
    }

    /** The deque is always full: dissipation_time entries. */
    ghost predicate Valid()
      reads this`sparksPositions
    {
      && config.workpieceHeight != 0
      && config.dissipationTime >= 0
      && increment == config.craterDepth * config.craterDiameter / config.workpieceHeight as real
      && |sparksPositions| == MaxLen(config)
    }

    constructor (c: Config)
      requires c.workpieceHeight != 0 && c.dissipationTime >= 0
      ensures Valid() && config == c
      ensures Snap() == Sim(c.workpieceStart, c.wireStart, Repeat(-1.0, MaxLen(c)), [], 0, 0, 0, false, false, false)
    {
      config := c;
      increment := c.craterDepth * c.craterDiameter / c.workpieceHeight as real;
      workpiecePosition, wirePosition := c.workpieceStart, c.wireStart;
      sparksPositions, sparks := Repeat(-1.0, MaxLen(c)), [];
      timeCounter, timeCounterGlobal, sparkCounter := 0, 0, 0;
      isWireBroken, isWireColliding, isTargetDistanceReached := false, false, false;
    }

    /**
     * __init__: the increment divides by the workpiece height first, then
     * the deque refuses a negative maximum length.
     */
    static method Create(c: Config) returns (r: Result<WireEdmEnv, string>)
      ensures r.Err? <==> c.workpieceHeight == 0 || c.dissipationTime < 0
      ensures c.workpieceHeight == 0 ==> r == Err("ZeroDivisionError")
      ensures c.workpieceHeight != 0 && c.dissipationTime < 0 ==> r == Err("ValueError")
      ensures r.Ok? ==> fresh(r.value) && r.value.Valid() && r.value.config == c
    {
      if c.workpieceHeight == 0 {
        return Err("ZeroDivisionError");
      }
      if c.dissipationTime < 0 {
        return Err("ValueError");
      }
      var env := new WireEdmEnv(c);
      r := Ok(env);
    }

    /** _generate_sparks: lambda is evaluated afresh, there is no cache. */
    method GenerateSparks(d: Draw)
      requires Valid()
      modifies this`workpiecePosition, this`sparksPositions, this`sparks, this`timeCounter, this`timeCounterGlobal
      modifies this`sparkCounter, this`isWireBroken, this`isWireColliding, this`isTargetDistanceReached
      ensures Valid()
      ensures Snap() == Generate(config, increment, old(Snap()), d)
    {
      ghost var s0 := Snap();
      var lambda := Ig.LambdaFormula(wirePosition - workpiecePosition);
      if d.sparkRoll < lambda {
        assert Ignites(s0, d);
        RecordSpark(d);
      } else {
        NoSpark();
      }
      sparks := Faded(sparks);
    }

    /** A microsecond without a spark. */
    method NoSpark()
      requires Valid()
      ensures Valid()
      modifies this`sparksPositions, this`timeCounter, this`timeCounterGlobal
      ensures Snap() == Quiet(config, old(Snap()))
    {
      sparksPositions, timeCounter, timeCounterGlobal :=
        Push(sparksPositions, MaxLen(config), -1.0), timeCounter + 1, timeCounterGlobal + 1;
    }

    /** The spark branch: bookkeeping, flags, then the downtime. */
    method RecordSpark(d: Draw)
      requires Valid()
      modifies this`workpiecePosition, this`sparksPositions, this`sparks, this`timeCounter, this`timeCounterGlobal
      modifies this`sparkCounter, this`isWireBroken, this`isWireColliding, this`isTargetDistanceReached
      ensures Valid()
      ensures Snap() == Rested(config, Flagged(config, Advanced(config, increment, old(Snap()), d), d))
    {
      AdvanceSpark(d);
      UpdateFlags(d);
      Rest();
    }

    method AdvanceSpark(d: Draw)
      requires Valid()
      ensures Valid()
      modifies this`workpiecePosition, this`sparksPositions, this`sparks, this`timeCounter, this`timeCounterGlobal
      modifies this`sparkCounter
      ensures Snap() == Advanced(config, increment, old(Snap()), d)
    {
      var workpiece := workpiecePosition + increment;
      var positions := Push(sparksPositions, MaxLen(config), d.sparkY as real);
      var visual := sparks + [VisualSpark((wirePosition + workpiece) / 2.0, d.sparkY as real, SPARK_LIFESPAN)];
      sparkCounter, workpiecePosition, sparksPositions, sparks, timeCounter, timeCounterGlobal :=
        sparkCounter + 1, workpiece, positions, visual, 0, timeCounterGlobal + 1;
    }

    method UpdateFlags(d: Draw)
      modifies this`isWireBroken, this`isWireColliding, this`isTargetDistanceReached
      ensures Snap() == Flagged(config, old(Snap()), d)
    {
      isWireBroken := d.breakRoll < BreakProbabilityCrater(sparksPositions, config.craterDiameter) as real;
      isWireColliding := wirePosition >= workpiecePosition;
      isTargetDistanceReached := workpiecePosition >= config.targetDistance;
    }

    /** The downtime after a spark: the global clock and the deque advance together. */
    method Rest()
      requires Valid()
      modifies this`timeCounterGlobal, this`sparksPositions
      ensures Valid()
      ensures timeCounterGlobal == old(timeCounterGlobal) + Downtime(config)
      ensures sparksPositions == PushAll(old(sparksPositions), MaxLen(config), Repeat(-1.0, Downtime(config)))
    {
      var ticks, positions := DowntimeLoop(sparksPositions, MaxLen(config), config.restTime + config.pulseDuration);
      PushAllKeepsLength(sparksPositions, MaxLen(config), Repeat(-1.0, ticks));
      timeCounterGlobal, sparksPositions := timeCounterGlobal + ticks, positions;
    }

    /** unwind_wire: every deque entry updated in place, by index. */
    method UnwindWire()
      modifies this`sparksPositions
      ensures sparksPositions == UnwindAll(old(sparksPositions), config.unwindingSpeed, config.workpieceHeight as real)
    {
      var i := 0;
      while i < |sparksPositions|
        invariant 0 <= i <= |sparksPositions| == |old(sparksPositions)|
        invariant forall j :: 0 <= j < i ==>
                    sparksPositions[j] == UnwindEntry(old(sparksPositions)[j], config.unwindingSpeed, config.workpieceHeight as real)
        invariant sparksPositions[i..] == old(sparksPositions)[i..]
      {
        if sparksPositions[i] != -1.0 {
          sparksPositions := sparksPositions[i := sparksPositions[i] + config.unwindingSpeed];
        }
        if sparksPositions[i] > config.workpieceHeight as real {
          sparksPositions := sparksPositions[i := -1.0];
        }
        assert sparksPositions[i + 1..] == old(sparksPositions)[i + 1..];
        i := i + 1;
      }
    }

    /** One microsecond: sparks, then unwinding. */
    method Tick(d: Draw)
      requires Valid()
      modifies this`workpiecePosition, this`sparksPositions, this`sparks, this`timeCounter, this`timeCounterGlobal
      modifies this`sparkCounter, this`isWireBroken, this`isWireColliding, this`isTargetDistanceReached
      ensures Valid()
      ensures Snap() == Micro(config, increment, old(Snap()), d)
    {
      GenerateSparks(d);
      UnwindWire();
    }

    /** One motor step of the wire followed by one microsecond. */
    method MoveAndTick(direction: int, d: Draw)
      requires Valid()
      modifies this`workpiecePosition, this`wirePosition, this`sparksPositions, this`sparks, this`timeCounter
      modifies this`timeCounterGlobal, this`sparkCounter, this`isWireBroken, this`isWireColliding, this`isTargetDistanceReached
      ensures Valid()
      ensures Snap() == Micro(config, increment, Moved(config, old(Snap()), direction), d)
    {
      wirePosition := wirePosition + direction as real * config.minStepSize;
      assert Snap() == Moved(config, old(Snap()), direction);
      Tick(d);
    }

    /** _move_motor: one microsecond after each motor step. */
    method MoveMotor(m: MotorStep, draws: seq<Draw>)
      requires Valid() && |draws| == Times(m.steps)
      modifies this`workpiecePosition, this`wirePosition, this`sparksPositions, this`sparks, this`timeCounter
      modifies this`timeCounterGlobal, this`sparkCounter, this`isWireBroken, this`isWireColliding, this`isTargetDistanceReached
      ensures Valid()
      ensures Snap() == MoveRun(config, increment, old(Snap()), m.direction, draws)
    {
      var i := 0;
      while i < |draws|
        invariant 0 <= i <= |draws| && Valid()
        invariant MoveRun(config, increment, Snap(), m.direction, draws[i..])
                  == MoveRun(config, increment, old(Snap()), m.direction, draws)
      {
        MoveRunUnfold(config, increment, Snap(), m.direction, draws[i..]);
        MoveAndTick(m.direction, draws[i]);
        assert draws[i..][1..] == draws[i + 1..];
        i := i + 1;
      }
    }

    /** The microsecond loop of step, which stops once the episode is done. */
    method ServoLoop(draws: seq<Draw>)
      requires Valid()
      modifies this`workpiecePosition, this`sparksPositions, this`sparks, this`timeCounter, this`timeCounterGlobal
      modifies this`sparkCounter, this`isWireBroken, this`isWireColliding, this`isTargetDistanceReached
      ensures Valid()
      ensures Snap() == ServoRun(config, increment, old(Snap()), draws)
    {
      var i := 0;
      while i < |draws|
        invariant 0 <= i <= |draws| && Valid()
        invariant ServoRun(config, increment, Snap(), draws[i..]) == ServoRun(config, increment, old(Snap()), draws)
      {
        Tick(draws[i]);
        var done := IsDone();
        if done {
          return;
        }
        i := i + 1;
      }
    }

    /** is_done. */
    method IsDone() returns (done: bool)
      ensures done == Done(Snap())
    {
      done := isWireBroken || isTargetDistanceReached || isWireColliding;
    }

    /** The simulated part of step: spark counter cleared, the motor moved, then the servo interval. */
    method Simulate(m: MotorStep, moveDraws: seq<Draw>, servoDraws: seq<Draw>)
      requires Valid() && |moveDraws| == Times(m.steps)
      modifies this`workpiecePosition, this`wirePosition, this`sparksPositions, this`sparks, this`timeCounter
      modifies this`timeCounterGlobal, this`sparkCounter, this`isWireBroken, this`isWireColliding, this`isTargetDistanceReached
      ensures Valid()
      ensures Snap() == ServoRun(config, increment,
                                 MoveRun(config, increment, old(Snap()).(sparkCounter := 0), m.direction, moveDraws),
                                 servoDraws)
    {
      sparkCounter := 0;
      MoveMotor(m, moveDraws);
      ServoLoop(servoDraws);
    }

    /**
     * step: the observation is the number of sparks of this step, the
     * reward that number minus 1000 per broken or colliding wire, and the
     * episode is never truncated.
     */
    method Step(action: int, moveDraws: seq<Draw>, servoDraws: seq<Draw>)
      returns (obs: int, reward: int, terminated: bool, truncated: bool, info: Info)
      requires Valid()
      requires |moveDraws| == DecodeAction(action, config.maxSteps).steps
      requires |servoDraws| == Times(config.servoInterval)
      modifies this`workpiecePosition, this`wirePosition, this`sparksPositions, this`sparks, this`timeCounter
      modifies this`timeCounterGlobal, this`sparkCounter, this`isWireBroken, this`isWireColliding, this`isTargetDistanceReached
      ensures Valid()
      ensures var m := DecodeAction(action, config.maxSteps);
              var r := ServoRun(config, increment,
                                MoveRun(config, increment, old(Snap()).(sparkCounter := 0), m.direction, moveDraws),
                                servoDraws);
              && Snap() == r
              && obs == r.sparkCounter && reward == Reward(r) && terminated == Done(r) && info == InfoOf(r)
      ensures !truncated
    {
      var m := DecodeAction(action, config.maxSteps);
      Simulate(m, moveDraws, servoDraws);
      obs := sparkCounter;
      info := Info(workpiecePosition, wirePosition, timeCounter, timeCounterGlobal, isWireBroken);
      reward := sparkCounter - (if isWireBroken then 1000 else 0) - (if isWireColliding then 1000 else 0);
      terminated := IsDone();
      truncated := false;
    }

    /** reset: start positions, zeroed counters, a deque of empty slots, no visual sparks, cleared flags. */
    method Reset() returns (obs: int, info: Info)
      requires Valid()
      modifies this`workpiecePosition, this`wirePosition, this`sparksPositions, this`sparks, this`timeCounter
      modifies this`timeCounterGlobal, this`sparkCounter, this`isWireBroken, this`isWireColliding, this`isTargetDistanceReached
      ensures Valid()
      ensures Snap() == Sim(config.workpieceStart, config.wireStart, Repeat(-1.0, MaxLen(config)), [], 0, 0, 0,
                            false, false, false)
      ensures obs == 0 && info == Info(config.workpieceStart, config.wireStart, 0, 0, false)
    {
      workpiecePosition, wirePosition := config.workpieceStart, config.wireStart;
      timeCounter, timeCounterGlobal, sparkCounter := 0, 0, 0;
      sparksPositions, sparks := Repeat(-1.0, MaxLen(config)), [];
      isWireBroken, isWireColliding, isTargetDistanceReached := false, false, false;
      obs := sparkCounter;
      info := Info(workpiecePosition, wirePosition, timeCounter, timeCounterGlobal, isWireBroken);
    }
  }
}
