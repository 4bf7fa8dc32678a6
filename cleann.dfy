/**
 * The script environment of cleann.py: no gym interface, a workpiece
 * increment given directly, two bounded deques (`sparks_list`, 1 for a
 * microsecond with a spark and 0 otherwise, sized by the wire's renewal
 * time; `sparks_positions_list`, the spark heights with -1 for none, sized
 * by the heat dissipation time), no unwinding, a step that only accepts a
 * (direction, steps) tuple, and a reset that restores only part of the
 * state.
 *
 * Every random draw of one microsecond is a `Draw` parameter.
 */
module CleannEnv {
  import opened Wrappers
  import opened Common
  import opened SparkRules
  import Ig = Ignition

  /** Constructor parameters (T_timeout is stored but never read). */
  datatype Config = Config(
    timeBetweenMovements: int, minStepSize: real, workpieceDistanceIncrement: real, craterDiameter: real,
    sparkIgnitionTime: int, heatDissipationTime: int, tTimeout: int, tRest: int, pieceHeight: real,
    unwindingSpeed: real, targetDistance: real, startPositionWire: real, startPositionWorkpiece: real)

  /** The parameters the script's `main` runs with. */
  const MAIN_CONFIG := Config(1000, 1.0, 0.05, 50.0, 3, 100, 5000, 10, 400.0, 1000.0, 1500.0, 20.0, 300.0)

  /** `renewal_time`: how many microseconds the wire takes to run through the piece. */
  function RenewalTime(c: Config): int
    requires c.unwindingSpeed != 0.0
  {
    Trunc(c.pieceHeight / c.unwindingSpeed)
  }

  /** Microseconds the generator stays off after a spark: T_rest + spark_ignition_time. */
  function Downtime(c: Config): nat {
    Times(c.tRest + c.sparkIgnitionTime)
  }

  /** The environment's changing fields as one value. */
  datatype Sim = Sim(
    workpiece: real, wire: real, sparksList: seq<int>, positions: seq<real>, visual: seq<VisualSpark>,
    timeCounter: int, timeCounterGlobal: int, sparkCounter: int,
    broken: bool, colliding: bool, reached: bool)

  /** `is_done`. */
  predicate Done(s: Sim) {
    s.broken || s.reached || s.colliding
  }

  /** The spark test: the roll against lambda at the signed distance wire - workpiece. */
  predicate Ignites(s: Sim, d: Draw) {
    d.sparkRoll < Ig.LambdaFormula(s.wire - s.workpiece)
  }

  /**
   * The bookkeeping of a spark: a 1 in `sparks_list`, the counters, the
   * workpiece increment, the spark height in the position deque and a new
   * visual spark.
   */
  function Advanced(c: Config, renewal: nat, s: Sim, d: Draw): (r: Sim)
    ensures r.sparksList == Push(s.sparksList, renewal, 1)
    ensures r.sparkCounter == s.sparkCounter + 1 && r.timeCounter == 0
    ensures r.timeCounterGlobal == s.timeCounterGlobal + 1
    ensures r.workpiece == s.workpiece + c.workpieceDistanceIncrement && r.wire == s.wire
    ensures r.positions == Push(s.positions, Times(c.heatDissipationTime), d.sparkY as real)
    ensures r.visual == s.visual + [VisualSpark((r.wire + r.workpiece) / 2.0, d.sparkY as real, SPARK_LIFESPAN)]
    ensures (r.broken, r.colliding, r.reached) == (s.broken, s.colliding, s.reached)
  {
    var workpiece := s.workpiece + c.workpieceDistanceIncrement;
    s.(sparksList := Push(s.sparksList, renewal, 1), sparkCounter := s.sparkCounter + 1, workpiece := workpiece,
       positions := Push(s.positions, Times(c.heatDissipationTime), d.sparkY as real),
       visual := s.visual + [VisualSpark((s.wire + workpiece) / 2.0, d.sparkY as real, SPARK_LIFESPAN)],
       timeCounter := 0, timeCounterGlobal := s.timeCounterGlobal + 1)
  }

  /** The break, collision and target flags after a spark. */
  function Flagged(c: Config, s: Sim, d: Draw): (r: Sim)
    ensures r.broken == (d.breakRoll < BreakProbabilityCrater(s.positions, c.craterDiameter) as real)
    ensures r.colliding == (s.wire >= s.workpiece) && r.reached == (s.workpiece >= c.targetDistance)
    ensures r.(broken := s.broken, colliding := s.colliding, reached := s.reached) == s
  {
    s.(broken := d.breakRoll < BreakProbabilityCrater(s.positions, c.craterDiameter) as real,
       colliding := s.wire >= s.workpiece, reached := s.workpiece >= c.targetDistance)
  }

  /** The downtime: per microsecond one global tick, a 0 and a -1. */
  function Rested(c: Config, renewal: nat, s: Sim): (r: Sim)
    ensures r.timeCounterGlobal == s.timeCounterGlobal + Downtime(c)
    ensures r.sparksList == PushAll(s.sparksList, renewal, Repeat(0, Downtime(c)))
    ensures r.positions == PushAll(s.positions, Times(c.heatDissipationTime), Repeat(-1.0, Downtime(c)))
  {
    s.(timeCounterGlobal := s.timeCounterGlobal + Downtime(c),
       sparksList := PushAll(s.sparksList, renewal, Repeat(0, Downtime(c))),
       positions := PushAll(s.positions, Times(c.heatDissipationTime), Repeat(-1.0, Downtime(c))))
  }

  /** A microsecond without a spark: a 0, a -1 and both time counters advance. */
  function Quiet(c: Config, renewal: nat, s: Sim): (r: Sim)
    ensures r.sparksList == Push(s.sparksList, renewal, 0)
    ensures r.positions == Push(s.positions, Times(c.heatDissipationTime), -1.0)
    ensures r.timeCounter == s.timeCounter + 1 && r.timeCounterGlobal == s.timeCounterGlobal + 1
  {
    s.(sparksList := Push(s.sparksList, renewal, 0),
       positions := Push(s.positions, Times(c.heatDissipationTime), -1.0),
       timeCounter := s.timeCounter + 1, timeCounterGlobal := s.timeCounterGlobal + 1)
  }

  /** `_generate_sparks`: a spark or a quiet microsecond, then the visual sparks fade. */
  function Generate(c: Config, renewal: nat, s: Sim, d: Draw): Sim {
    var g := if Ignites(s, d) then Rested(c, renewal, Flagged(c, Advanced(c, renewal, s, d), d))
             else Quiet(c, renewal, s);
    g.(visual := Faded(g.visual))
  }

  /**
   * Both deques after a microsecond: a spark appends 1 + T_rest +
   * spark_ignition_time entries to each (its 1 and height, then 0s and
   * -1s), a quiet microsecond one entry (a 0 and a -1); a deque within its
   * bound keeps the newest entries of that.
   */
  lemma GeneratedLists(c: Config, renewal: nat, s: Sim, d: Draw)
    requires |s.sparksList| <= renewal && |s.positions| <= Times(c.heatDissipationTime)
    ensures var g := Generate(c, renewal, s, d);
            && g.sparksList == Window(s.sparksList + (if Ignites(s, d) then [1] + Repeat(0, Downtime(c)) else [0]),
                                      renewal)
            && g.positions == Window(s.positions + (if Ignites(s, d) then [d.sparkY as real] + Repeat(-1.0, Downtime(c))
                                                    else [-1.0]),
                                     Times(c.heatDissipationTime))
  {
    if Ignites(s, d) {
      var a := Advanced(c, renewal, s, d);
      SparkAppends(s.sparksList, renewal, 1, Repeat(0, Downtime(c)));
      SparkAppends(s.positions, Times(c.heatDissipationTime), d.sparkY as real, Repeat(-1.0, Downtime(c)));
    }
  }

  /** One append followed by a run of appends is the window of everything appended. */
  lemma SparkAppends<T>(p: seq<T>, maxlen: nat, x: T, xs: seq<T>)
    requires |p| <= maxlen
    ensures PushAll(Push(p, maxlen, x), maxlen, xs) == Window(p + ([x] + xs), maxlen)
  {
    assert Push(p, maxlen, x) == PushAll(p, maxlen, [x]) by {
      assert [x][..0] == [];
    }
    PushAllSplit(p, maxlen, [x], xs);
    PushAllIsWindow(p, maxlen, [x] + xs);
  }

  /** Full deques stay full. */
  lemma GenerateKeepsLists(c: Config, renewal: nat, s: Sim, d: Draw)
    requires |s.sparksList| == renewal && |s.positions| == Times(c.heatDissipationTime)
    ensures |Generate(c, renewal, s, d).sparksList| == renewal
    ensures |Generate(c, renewal, s, d).positions| == Times(c.heatDissipationTime)
  {
    if Ignites(s, d) {
      var a := Advanced(c, renewal, s, d);
      PushAllKeepsLength(a.sparksList, renewal, Repeat(0, Downtime(c)));
      PushAllKeepsLength(a.positions, Times(c.heatDissipationTime), Repeat(-1.0, Downtime(c)));
    }
  }

  /**
   * The global counter rises by 1 + T_rest + spark_ignition_time on a spark
   * and by 1 otherwise; a spark restarts the time counter and moves the
   * workpiece by the increment.
   */
  lemma GenerateAccounting(c: Config, renewal: nat, s: Sim, d: Draw)
    ensures var g := Generate(c, renewal, s, d);
            && g.wire == s.wire
            && (Ignites(s, d) ==>
                  && g.sparkCounter == s.sparkCounter + 1 && g.timeCounter == 0
                  && g.timeCounterGlobal == s.timeCounterGlobal + 1 + Downtime(c)
                  && g.workpiece == s.workpiece + c.workpieceDistanceIncrement)
            && (!Ignites(s, d) ==>
                  && g.sparkCounter == s.sparkCounter && g.timeCounter == s.timeCounter + 1
                  && g.timeCounterGlobal == s.timeCounterGlobal + 1 && g.workpiece == s.workpiece)
  {
  }

  /** One motor step: the wire moves by direction * min_step_size. */
  function Moved(c: Config, s: Sim, direction: int): (r: Sim)
    ensures r.wire == s.wire + direction as real * c.minStepSize
    ensures r.(wire := s.wire) == s
  {
    s.(wire := s.wire + direction as real * c.minStepSize)
  }

  /** `_move_motor`: per motor step the wire moves, then one microsecond of sparking (no unwinding). */
  function MoveRun(c: Config, renewal: nat, s: Sim, direction: int, draws: seq<Draw>): Sim
    decreases |draws|
  {
    if draws == [] then s
    else MoveRun(c, renewal, Generate(c, renewal, Moved(c, s, direction), draws[0]), direction, draws[1..])
  }

  /** The first motor step of a run, unfolded. */
  lemma MoveRunUnfold(c: Config, renewal: nat, s: Sim, direction: int, draws: seq<Draw>)
    requires draws != []
    ensures MoveRun(c, renewal, s, direction, draws)
            == MoveRun(c, renewal, Generate(c, renewal, Moved(c, s, direction), draws[0]), direction, draws[1..])
  {
  }

  /**
   * From `s` to `r` over `n` motor steps: between 0 and `n` sparks, each
   * costing its downtime on the global clock and one increment of the
   * workpiece, and a wire moved by `n` steps.
   */
  predicate Accounted(c: Config, s: Sim, r: Sim, direction: int, n: nat) {
    var k := r.sparkCounter - s.sparkCounter;
    && 0 <= k <= n
    && r.timeCounterGlobal == s.timeCounterGlobal + n + k * Downtime(c)
    && r.workpiece == s.workpiece + k as real * c.workpieceDistanceIncrement
    && r.wire == s.wire + n as real * (direction as real * c.minStepSize)
  }

  /** One motor step and its microsecond account for themselves. */
  lemma MoveStepAccounted(c: Config, renewal: nat, s: Sim, direction: int, d: Draw)
    ensures Accounted(c, s, Generate(c, renewal, Moved(c, s, direction), d), direction, 1)
  {
    var moved := Moved(c, s, direction);
    GenerateAccounting(c, renewal, moved, d);
    AccountedOne(c, s, Generate(c, renewal, moved, d), direction);
  }

  lemma AccountedOne(c: Config, s: Sim, n: Sim, direction: int)
    requires n.wire == s.wire + direction as real * c.minStepSize
    requires || (n.sparkCounter == s.sparkCounter && n.timeCounterGlobal == s.timeCounterGlobal + 1
                 && n.workpiece == s.workpiece)
             || (n.sparkCounter == s.sparkCounter + 1 && n.timeCounterGlobal == s.timeCounterGlobal + 1 + Downtime(c)
                 && n.workpiece == s.workpiece + c.workpieceDistanceIncrement)
    ensures Accounted(c, s, n, direction, 1)
  {
    if n.sparkCounter == s.sparkCounter {
      assert 0 * Downtime(c) == 0;
    }
  }

  lemma AccountedChain(c: Config, s: Sim, m: Sim, r: Sim, direction: int, n: nat)
    requires Accounted(c, s, m, direction, 1)
    requires Accounted(c, m, r, direction, n)
    ensures Accounted(c, s, r, direction, n + 1)
  {
    var j, k := m.sparkCounter - s.sparkCounter, r.sparkCounter - m.sparkCounter;
    MulSucc(n, direction as real * c.minStepSize);
    assert (j + k) * Downtime(c) == j * Downtime(c) + k * Downtime(c);
    assert (j + k) as real * c.workpieceDistanceIncrement
           == j as real * c.workpieceDistanceIncrement + k as real * c.workpieceDistanceIncrement;
  }

  /**
   * Bookkeeping of `_move_motor`: every microsecond adds one to the global
   * counter and every spark adds its downtime on top; the workpiece moves
   * by one increment per spark and the wire by one step per motor step,
   * whether or not the episode is done meanwhile.
   */
  lemma {:induction false} MoveRunAccounting(c: Config, renewal: nat, s: Sim, direction: int, draws: seq<Draw>)
    ensures Accounted(c, s, MoveRun(c, renewal, s, direction, draws), direction, |draws|)
    decreases |draws|
  {
    if draws != [] {
      MoveRunAccounting(c, renewal, Generate(c, renewal, Moved(c, s, direction), draws[0]), direction, draws[1..]);
      MoveStepAccounted(c, renewal, s, direction, draws[0]);
      AccountedChain(c, s, Generate(c, renewal, Moved(c, s, direction), draws[0]),
                     MoveRun(c, renewal, Generate(c, renewal, Moved(c, s, direction), draws[0]), direction, draws[1..]),
                     direction, |draws| - 1);
    }
  }

  /** The loop of step between motor moves: microseconds until done. */
  function ServoRun(c: Config, renewal: nat, s: Sim, draws: seq<Draw>): Sim
    decreases |draws|
  {
    if draws == [] then s
    else
      var next := Generate(c, renewal, s, draws[0]);
      if Done(next) then next else ServoRun(c, renewal, next, draws[1..])
  }

  /** The servo loop ends done, or having used every draw. */
  lemma {:induction false} ServoRunStopsWhenDone(c: Config, renewal: nat, s: Sim, draws: seq<Draw>)
    ensures ServoRunLength(c, renewal, s, draws) <= |draws|
    ensures ServoRunLength(c, renewal, s, draws) < |draws| ==> Done(ServoRun(c, renewal, s, draws))
    decreases |draws|
  {
    if draws != [] {
      var next := Generate(c, renewal, s, draws[0]);
      if !Done(next) {
        ServoRunStopsWhenDone(c, renewal, next, draws[1..]);
      }
    }
  }

  /** How many microseconds the servo loop runs. */
  function ServoRunLength(c: Config, renewal: nat, s: Sim, draws: seq<Draw>): nat
    decreases |draws|
  {
    if draws == [] then 0
    else
      var next := Generate(c, renewal, s, draws[0]);
      if Done(next) then 1 else 1 + ServoRunLength(c, renewal, next, draws[1..])
  }

  /** The action handed to `step`: a (direction, steps) tuple, another tuple, or no tuple at all. */
  datatype Action = Pair(direction: int, steps: int) | OtherTuple | NotATuple

  /**
   * The downtime loop: per microsecond a 0 into `sparks_list` and a -1 into
   * the position deque.
   */
  method DowntimeLoop(list: seq<int>, positions: seq<real>, renewal: nat, maxlen: nat, n: int)
    returns (ticks: nat, list': seq<int>, positions': seq<real>)
    ensures ticks == Times(n)
    ensures list' == PushAll(list, renewal, Repeat(0, ticks))
    ensures positions' == PushAll(positions, maxlen, Repeat(-1.0, ticks))
  {
    ticks, list', positions' := 0, list, positions;
    while ticks < n
      invariant ticks <= Times(n)
      invariant list' == PushAll(list, renewal, Repeat(0, ticks))
      invariant positions' == PushAll(positions, maxlen, Repeat(-1.0, ticks))
    {
      assert Repeat(0, ticks + 1)[..ticks] == Repeat(0, ticks);
      assert Repeat(-1.0, ticks + 1)[..ticks] == Repeat(-1.0, ticks);
      ticks, list', positions' := ticks + 1, Push(list', renewal, 0), Push(positions', maxlen, -1.0);
    }
  }

  class Environment {
    const config: Config
    /** int(piece_height / unwinding_speed). */
    const renewalTime: nat
    var workpiecePosition: real
    var wirePosition: real
    var sparksList: seq<int>
    var sparksPositionsList: seq<real>
    var sparks: seq<VisualSpark>
    var timeCounter: int
    var timeCounterGlobal: int
    var sparkCounter: int
    var isWireBroken: bool
    var isWireColliding: bool
    var isTargetDistanceReached: bool

    function Snap(): Sim
      reads this`workpiecePosition, this`wirePosition, this`sparksList, this`sparksPositionsList, this`sparks
      reads this`timeCounter, this`timeCounterGlobal, this`sparkCounter, this`isWireBroken, this`isWireColliding
      reads this`isTargetDistanceReached
    {
      Sim(workpiecePosition, wirePosition, sparksList, sparksPositionsList, sparks, timeCounter, timeCounterGlobal,
          sparkCounter, isWireBroken, isWireColliding, isTargetDistanceReached)
    }

    /** Both deques are full. */
    ghost predicate Valid()
      reads this`sparksList, this`sparksPositionsList
    {
      && |sparksList| == renewalTime
      && |sparksPositionsList| == Times(config.heatDissipationTime)
    }

    constructor (c: Config)
      requires c.unwindingSpeed != 0.0 && RenewalTime(c) >= 0 && c.heatDissipationTime >= 0
      ensures Valid() && config == c && renewalTime == RenewalTime(c)
      ensures Snap() == Sim(c.startPositionWorkpiece, c.startPositionWire, Repeat(0, RenewalTime(c)),
                            Repeat(-1.0, c.heatDissipationTime), [], 0, 0, 0, false, false, false)
    {
      config, renewalTime := c, RenewalTime(c);
      workpiecePosition, wirePosition := c.startPositionWorkpiece, c.startPositionWire;
      timeCounter, timeCounterGlobal := 0, 0;
      sparksList := Repeat(0, RenewalTime(c));
      sparksPositionsList := Repeat(-1.0, c.heatDissipationTime);
      isWireBroken, isWireColliding, isTargetDistanceReached := false, false, false;
      sparkCounter, sparks := 0, [];
    }

    /**
     * __init__: the renewal time divides by the unwinding speed, and each
     * deque refuses a negative maximum length.
     */
    static method Create(c: Config) returns (r: Result<Environment, string>)
      ensures r.Err? <==> c.unwindingSpeed == 0.0 || RenewalTime(c) < 0 || c.heatDissipationTime < 0
      ensures c.unwindingSpeed == 0.0 ==> r == Err("ZeroDivisionError")
      ensures c.unwindingSpeed != 0.0 && r.Err? ==> r == Err("ValueError")
      ensures r.Ok? ==> fresh(r.value) && r.value.Valid() && r.value.config == c
      ensures r.Ok? ==> r.value.renewalTime == RenewalTime(c)
    {
      if c.unwindingSpeed == 0.0 {
        return Err("ZeroDivisionError");
      }
      if RenewalTime(c) < 0 || c.heatDissipationTime < 0 {
        return Err("ValueError");
      }
      var env := new Environment(c);
      r := Ok(env);
    }

    /** _generate_sparks. */
    method GenerateSparks(d: Draw)
      requires Valid()
      modifies this`workpiecePosition, this`sparksList, this`sparksPositionsList, this`sparks, this`timeCounter
      modifies this`timeCounterGlobal, this`sparkCounter, this`isWireBroken, this`isWireColliding
      modifies this`isTargetDistanceReached
      ensures Valid()
      ensures Snap() == Generate(config, renewalTime, old(Snap()), d)
    {
      ghost var s0 := Snap();
      var lambda := Ig.LambdaFormula(wirePosition - workpiecePosition);
      if d.sparkRoll < lambda {
        assert Ignites(s0, d);
        RecordSpark(d);
      } else {
        NoSpark();
      }
      sparks := Faded(sparks);
    }

    /** A microsecond without a spark. */
    method NoSpark()
      requires Valid()
      modifies this`sparksList, this`sparksPositionsList, this`timeCounter, this`timeCounterGlobal
      ensures Valid()
      ensures Snap() == Quiet(config, renewalTime, old(Snap()))
    {
      sparksList, sparksPositionsList := Push(sparksList, renewalTime, 0), Push(sparksPositionsList, Times(config.heatDissipationTime), -1.0);
      timeCounter, timeCounterGlobal := timeCounter + 1, timeCounterGlobal + 1;
    }

    /** The spark branch: bookkeeping, flags, then the downtime. */
    method RecordSpark(d: Draw)
      requires Valid()
      modifies this`workpiecePosition, this`sparksList, this`sparksPositionsList, this`sparks, this`timeCounter
      modifies this`timeCounterGlobal, this`sparkCounter, this`isWireBroken, this`isWireColliding
      modifies this`isTargetDistanceReached
      ensures Valid()
      ensures Snap() == Rested(config, renewalTime, Flagged(config, Advanced(config, renewalTime, old(Snap()), d), d))
    {
      AdvanceSpark(d);
      UpdateFlags(d);
      Rest();
    }

    method AdvanceSpark(d: Draw)
      requires Valid()
      modifies this`workpiecePosition, this`sparksList, this`sparksPositionsList, this`sparks, this`timeCounter
      modifies this`timeCounterGlobal, this`sparkCounter
      ensures Valid()
      ensures Snap() == Advanced(config, renewalTime, old(Snap()), d)
    {
      var workpiece := workpiecePosition + config.workpieceDistanceIncrement;
      var list := Push(sparksList, renewalTime, 1);
      var positions := Push(sparksPositionsList, Times(config.heatDissipationTime), d.sparkY as real);
      var visual := sparks + [VisualSpark((wirePosition + workpiece) / 2.0, d.sparkY as real, SPARK_LIFESPAN)];
      sparksList, sparkCounter, workpiecePosition, sparksPositionsList, sparks, timeCounter, timeCounterGlobal :=
        list, sparkCounter + 1, workpiece, positions, visual, 0, timeCounterGlobal + 1;
    }

    method UpdateFlags(d: Draw)
      modifies this`isWireBroken, this`isWireColliding, this`isTargetDistanceReached
      ensures Snap() == Flagged(config, old(Snap()), d)
    {
      isWireBroken := d.breakRoll < BreakProbabilityCrater(sparksPositionsList, config.craterDiameter) as real;
      isWireColliding := wirePosition >= workpiecePosition;
      isTargetDistanceReached := workpiecePosition >= config.targetDistance;
    }

    /** The downtime after a spark. */
    method Rest()
      requires Valid()
      modifies this`timeCounterGlobal, this`sparksList, this`sparksPositionsList
      ensures Valid()
      ensures timeCounterGlobal == old(timeCounterGlobal) + Downtime(config)
      ensures sparksList == PushAll(old(sparksList), renewalTime, Repeat(0, Downtime(config)))
      ensures sparksPositionsList
              == PushAll(old(sparksPositionsList), Times(config.heatDissipationTime), Repeat(-1.0, Downtime(config)))
    {
      var ticks, list, positions := DowntimeLoop(sparksList, sparksPositionsList, renewalTime,
                                                 Times(config.heatDissipationTime), config.tRest + config.sparkIgnitionTime);
      PushAllKeepsLength(sparksList, renewalTime, Repeat(0, ticks));
      PushAllKeepsLength(sparksPositionsList, Times(config.heatDissipationTime), Repeat(-1.0, ticks));
      timeCounterGlobal, sparksList, sparksPositionsList := timeCounterGlobal + ticks, list, positions;
    }

    /** One motor step of the wire followed by one microsecond of sparking. */
    method MoveAndGenerate(direction: int, d: Draw)
      requires Valid()
      modifies this`workpiecePosition, this`wirePosition, this`sparksList, this`sparksPositionsList, this`sparks
      modifies this`timeCounter, this`timeCounterGlobal, this`sparkCounter, this`isWireBroken, this`isWireColliding
      modifies this`isTargetDistanceReached
      ensures Valid()
      ensures Snap() == Generate(config, renewalTime, Moved(config, old(Snap()), direction), d)
    {
      wirePosition := wirePosition + direction as real * config.minStepSize;
      assert Snap() == Moved(config, old(Snap()), direction);
      GenerateSparks(d);
    }

    /** _move_motor. */
    method MoveMotor(direction: int, draws: seq<Draw>)
      requires Valid()
      modifies this`workpiecePosition, this`wirePosition, this`sparksList, this`sparksPositionsList, this`sparks
      modifies this`timeCounter, this`timeCounterGlobal, this`sparkCounter, this`isWireBroken, this`isWireColliding
      modifies this`isTargetDistanceReached
      ensures Valid()
      ensures Snap() == MoveRun(config, renewalTime, old(Snap()), direction, draws)
    {
      var i := 0;
      while i < |draws|
        invariant 0 <= i <= |draws| && Valid()
        invariant MoveRun(config, renewalTime, Snap(), direction, draws[i..])
                  == MoveRun(config, renewalTime, old(Snap()), direction, draws)
      {
        MoveRunUnfold(config, renewalTime, Snap(), direction, draws[i..]);
        MoveAndGenerate(direction, draws[i]);
        assert draws[i..][1..] == draws[i + 1..];
        i := i + 1;
      }
    }

    /** The microsecond loop of step, which stops once the episode is done. */
    method ServoLoop(draws: seq<Draw>)
      requires Valid()
      modifies this`workpiecePosition, this`sparksList, this`sparksPositionsList, this`sparks, this`timeCounter
      modifies this`timeCounterGlobal, this`sparkCounter, this`isWireBroken, this`isWireColliding
      modifies this`isTargetDistanceReached
      ensures Valid()
      ensures Snap() == ServoRun(config, renewalTime, old(Snap()), draws)
    {
      var i := 0;
      while i < |draws|
        invariant 0 <= i <= |draws| && Valid()
        invariant ServoRun(config, renewalTime, Snap(), draws[i..]) == ServoRun(config, renewalTime, old(Snap()), draws)
      {
        GenerateSparks(draws[i]);
        var done := IsDone();
        if done {
          return;
        }
        i := i + 1;
      }
    }

    /** is_done. */
    method IsDone() returns (done: bool)
      ensures done == Done(Snap())
    {
      done := isWireBroken || isTargetDistanceReached || isWireColliding;
    }

    /**
     * step: the spark counter is cleared first; anything but a pair then
     * raises ValueError (the counter stays cleared); a pair moves the motor
     * and runs the microsecond loop.
     */
    method Step(action: Action, moveDraws: seq<Draw>, servoDraws: seq<Draw>) returns (r: Outcome<string>)
      requires Valid()
      requires action.Pair? ==> |moveDraws| == Times(action.steps)
      requires |servoDraws| == Times(config.timeBetweenMovements)
      modifies this`workpiecePosition, this`wirePosition, this`sparksList, this`sparksPositionsList, this`sparks
      modifies this`timeCounter, this`timeCounterGlobal, this`sparkCounter, this`isWireBroken, this`isWireColliding
      modifies this`isTargetDistanceReached
      ensures Valid()
      ensures r.Fail? <==> !action.Pair?
      ensures r.Fail? ==> r.error == "ValueError" && Snap() == old(Snap()).(sparkCounter := 0)
      ensures r.Pass? ==>
                Snap() == ServoRun(config, renewalTime,
                                   MoveRun(config, renewalTime, old(Snap()).(sparkCounter := 0), action.direction, moveDraws),
                                   servoDraws)
    {
      sparkCounter := 0;
      if !action.Pair? {
        return Fail("ValueError");
      }
      MoveMotor(action.direction, moveDraws);
      ServoLoop(servoDraws);
      r := Pass;
    }

    /**
     * reset: positions, the two time counters and `sparks_list` are
     * restored and the broken flag cleared; the collision and target flags,
     * the spark counter, the position deque and the visual sparks keep
     * their values.
     */
    method Reset()
      requires Valid()
      modifies this`workpiecePosition, this`wirePosition, this`timeCounter, this`timeCounterGlobal, this`sparksList
      modifies this`isWireBroken
      ensures Valid()
      ensures Snap() == old(Snap()).(workpiece := config.startPositionWorkpiece, wire := config.startPositionWire,
                                     timeCounter := 0, timeCounterGlobal := 0, sparksList := Repeat(0, renewalTime),
                                     broken := false)
    {
      workpiecePosition, wirePosition := config.startPositionWorkpiece, config.startPositionWire;
      timeCounter, timeCounterGlobal := 0, 0;
      sparksList := Repeat(0, renewalTime);
      isWireBroken := false;
    }
  }
}
