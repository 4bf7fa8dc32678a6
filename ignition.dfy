/**
 * The spark/short-circuit state machine of src/wedm/modules/ignition.py.
 *
 * Each microsecond the module first decides whether the gap is short-circuited
 * (hard short, critical debris density, or a latched random short), forces the
 * voltage to zero on a short, and only then dispatches on the spark-status tag:
 * 0 idle, 1 spark, -1 short pulse, -2 rest. The ignition probability is only
 * evaluated from the idle state when no short holds.
 */
module Ignition {
  import opened Wrappers
  import opened EdmState

  // ------------------------------------------------------------------------
  // Ignition probability lambda(gap)
  // ------------------------------------------------------------------------

  /** ln 2, as numpy's double. */
  const LN2: real := 0.6931471805599453

  function LambdaDenominator(gap: real): real {
    0.48 * gap * gap - 3.69 * gap + 14.05
  }

  /**
   * The quadratic 0.48 g^2 - 3.69 g + 14.05 has a negative discriminant,
   * so it is bounded below by its vertex value 6.95828125 for every gap.
   */
  lemma DenominatorPositive(gap: real)
    ensures LambdaDenominator(gap) >= 6.95828125
  {
    var h := gap - 3.84375;
    assert h * h >= 0.0;
    assert LambdaDenominator(gap) == 0.48 * (h * h) + 6.95828125;
  }

  /** The empirical closed form ln 2 / (0.48 g^2 - 3.69 g + 14.05). */
  function LambdaFormula(gap: real): (r: real)
    ensures 0.0 < r <= LN2 / 6.95828125
  {
    DenominatorPositive(gap);
    var d := LambdaDenominator(gap);
    assert LN2 / d <= LN2 / 6.95828125 by {
      assert LN2 / d * d == LN2;
      assert LN2 / 6.95828125 * 6.95828125 == LN2;
    }
    LN2 / d
  }

  // ------------------------------------------------------------------------
  // Short-circuit detection
  // ------------------------------------------------------------------------

  /** Constructor parameters of the module's short-circuit models. */
  datatype ShortParams = ShortParams(
    baseCriticalDensity: real,
    gapCoefficient: real,
    maxCriticalDensity: real,
    hardShortGap: real,
    randomShortDuration: int,
    randomShortMinGap: real,
    randomShortMaxGap: real,
    randomShortMaxProbability: real)

  /** The constructor's default arguments. */
  const DEFAULT_SHORT_PARAMS: ShortParams :=
    ShortParams(0.3, 0.02, 0.95, 2.0, 100, 2.0, 50.0, 0.001)

  function Min(a: real, b: real): real { if a <= b then a else b }

  function Max(a: real, b: real): real { if a >= b then a else b }

  /** get_critical_density_for_gap: 0 below the hard-short gap, else the capped linear ramp. */
  function CriticalDensityForGap(p: ShortParams, gap: real): (r: real)
    ensures gap < p.hardShortGap ==> r == 0.0
    ensures gap >= p.hardShortGap ==> r <= p.maxCriticalDensity
    ensures gap >= p.hardShortGap ==> r <= p.baseCriticalDensity + p.gapCoefficient * gap
    ensures gap >= p.hardShortGap ==> r == p.maxCriticalDensity || r == p.baseCriticalDensity + p.gapCoefficient * gap
  {
    if gap < p.hardShortGap then 0.0
    else Min(p.baseCriticalDensity + p.gapCoefficient * gap, p.maxCriticalDensity)
  }

  /** _detect_critical_debris_short. */
  function DetectCriticalDebrisShort(p: ShortParams, gap: real, debrisDensity: real): (r: bool)
    ensures gap < p.hardShortGap ==> r
    ensures gap >= p.hardShortGap ==> (r <==> debrisDensity > CriticalDensityForGap(p, gap))
  {
    if gap < p.hardShortGap then true
    else
      var critical := Min(p.baseCriticalDensity + p.gapCoefficient * gap, p.maxCriticalDensity);
      debrisDensity > critical
  }

  /** The linear random-short probability: max at or below min_gap, 0 from max_gap on. */
  function RandomShortProbability(p: ShortParams, gap: real): real {
    if gap >= p.randomShortMaxGap then 0.0
    else if gap <= p.randomShortMinGap then p.randomShortMaxProbability
    else
      var factor := 1.0 - (gap - p.randomShortMinGap) / (p.randomShortMaxGap - p.randomShortMinGap);
      factor * p.randomShortMaxProbability
  }

  /** A quotient of 0 < x < y lies strictly inside (0, 1): the random-short ramp's factor is a fraction. */
  lemma QuotientInUnitInterval(x: real, y: real)
    requires 0.0 < x < y
    ensures 0.0 < x / y < 1.0
  {
    assert y / y == 1.0;
    assert x / y < y / y;
  }

  /** Division by a positive number keeps order: the ramp's quotient grows with the gap. */
  lemma QuotientMonotone(x1: real, x2: real, y: real)
    requires x1 <= x2 && 0.0 < y
    ensures x1 / y <= x2 / y
  {
  }

  /** The random-short probability lies in [0, max_probability]. */
  lemma RandomShortProbabilityBounds(p: ShortParams, gap: real)
    requires p.randomShortMaxProbability >= 0.0
    ensures 0.0 <= RandomShortProbability(p, gap) <= p.randomShortMaxProbability
    ensures gap >= p.randomShortMaxGap ==> RandomShortProbability(p, gap) == 0.0
    ensures gap <= p.randomShortMinGap && gap < p.randomShortMaxGap ==>
              RandomShortProbability(p, gap) == p.randomShortMaxProbability
  {
    if p.randomShortMinGap < gap < p.randomShortMaxGap {
      var span := p.randomShortMaxGap - p.randomShortMinGap;
      var t := (gap - p.randomShortMinGap) / span;
      QuotientInUnitInterval(gap - p.randomShortMinGap, span);
      var factor := 1.0 - t;
      assert 0.0 <= factor * p.randomShortMaxProbability <= p.randomShortMaxProbability;
    }
  }

  /** A wider gap never makes a random short more likely. */
  lemma RandomShortProbabilityMonotone(p: ShortParams, g1: real, g2: real)
    requires p.randomShortMaxProbability >= 0.0
    requires g1 <= g2
    ensures RandomShortProbability(p, g2) <= RandomShortProbability(p, g1)
  {
    RandomShortProbabilityBounds(p, g1);
    RandomShortProbabilityBounds(p, g2);
    var lo, hi := p.randomShortMinGap, p.randomShortMaxGap;
    if lo < g1 < hi && lo < g2 < hi {
      var span := hi - lo;
      var t1 := (g1 - lo) / span;
      var t2 := (g2 - lo) / span;
      QuotientMonotone(g1 - lo, g2 - lo, span);
      assert (1.0 - t2) * p.randomShortMaxProbability <= (1.0 - t1) * p.randomShortMaxProbability;
    }
  }

  /** Outcome of one call of _update_short_circuit_detection. */
  datatype ShortDecision = ShortDecision(remaining: int, isShort: bool)

  /**
   * _update_short_circuit_detection on values: an active random short counts
   * down and holds the flag; otherwise the debris model decides, and when it
   * sees no short a roll below the random-short probability latches a new
   * random short for random_short_duration further updates.
   */
  function ShortStep(p: ShortParams, remaining: int, gap: real, debrisDensity: real, roll: real): ShortDecision {
    if remaining > 0 then ShortDecision(remaining - 1, true)
    else
      var debrisShort := DetectCriticalDebrisShort(p, gap, debrisDensity);
      if !debrisShort && roll < RandomShortProbability(p, gap) then
        ShortDecision(p.randomShortDuration, true)
      else
        ShortDecision(remaining, debrisShort)
  }

  /** The inputs of one detection call: clamped gap, debris density, random roll. */
  datatype ShortInput = ShortInput(gap: real, debrisDensity: real, roll: real)

  /** The short flags of successive detection calls, and the final counter. */
  function ShortRun(p: ShortParams, remaining: int, inputs: seq<ShortInput>): (r: (int, seq<bool>))
    ensures |r.1| == |inputs|
    decreases |inputs|
  {
    if inputs == [] then (remaining, [])
    else
      var d := ShortStep(p, remaining, inputs[0].gap, inputs[0].debrisDensity, inputs[0].roll);
      var rest := ShortRun(p, d.remaining, inputs[1..]);
      (rest.0, [d.isShort] + rest.1)
  }

  /**
   * A latched random short holds the flag for exactly `remaining` further
   * updates whatever the gaps, debris and rolls, the counter dropping by one
   * per update; the update after that is decided afresh.
   */
  lemma {:induction false} RandomShortLatch(p: ShortParams, remaining: int, inputs: seq<ShortInput>)
    requires |inputs| <= remaining
    ensures ShortRun(p, remaining, inputs).0 == remaining - |inputs|
    ensures forall k :: 0 <= k < |inputs| ==> ShortRun(p, remaining, inputs).1[k]
    ensures forall more: ShortInput ::
              ShortRun(p, remaining, inputs + [more]).1[|inputs|] ==
              (if remaining - |inputs| > 0 then true
               else ShortStep(p, 0, more.gap, more.debrisDensity, more.roll).isShort)
    decreases |inputs|
  {
    if inputs != [] {
      RandomShortLatch(p, remaining - 1, inputs[1..]);
      forall more: ShortInput
        ensures ShortRun(p, remaining, inputs + [more]).1[|inputs|] ==
                (if remaining - |inputs| > 0 then true
                 else ShortStep(p, 0, more.gap, more.debrisDensity, more.roll).isShort)
      {
        assert (inputs + [more])[1..] == inputs[1..] + [more];
      }
    }
  }

  // ------------------------------------------------------------------------
  // Generator settings with the source's `x or default` fallbacks
  // ------------------------------------------------------------------------

  /** `x or default`: None and 0 both fall back to the default. */
  function OrDefault(x: Option<real>, default: real): (r: real)
    ensures x.Some? && x.value != 0.0 ==> r == x.value
    ensures x.None? || x.value == 0.0 ==> r == default
  {
    if x.None? || x.value == 0.0 then default else x.value
  }

  function TargetVoltageOf(targetVoltage: Option<real>): real { OrDefault(targetVoltage, 80.0) }
  function OnTimeOf(onTime: Option<real>): real { OrDefault(onTime, 3.0) }
  function OffTimeOf(offTime: Option<real>): real { OrDefault(offTime, 80.0) }

  // ------------------------------------------------------------------------
  // The state machine on values
  // ------------------------------------------------------------------------

  /** The fields the state machine writes: spark status, voltage, current. */
  datatype Electrical = Electrical(status: SparkStatus, voltage: Option<real>, current: Option<real>)

  /** _handle_idle_state. */
  function IdleTransition(e: Electrical, isShort: bool, ignite: bool, location: real,
                          targetV: real, peak: real): Electrical
  {
    if isShort then Electrical(SparkStatus(SHORT, None, 0), e.voltage, Some(peak))
    else if ignite then Electrical(SparkStatus(SPARK, Some(location), 0), Some(targetV * 0.3), Some(peak))
    else Electrical(e.status, Some(targetV), Some(0.0))
  }

  /** _handle_spark_state: the duration is not reset on entering rest. */
  function SparkTransition(e: Electrical, isShort: bool, targetV: real, peak: real, on: real): Electrical {
    var d := e.status.duration + 1;
    if d as real >= on then
      Electrical(e.status.(tag := REST, duration := d), if isShort then e.voltage else Some(0.0), Some(0.0))
    else
      Electrical(e.status.(duration := d), if isShort then e.voltage else Some(targetV * 0.3), Some(peak))
  }

  /** _handle_short_state: a forced ON pulse that leaves the voltage alone. */
  function ShortTransition(e: Electrical, peak: real, on: real): Electrical {
    var d := e.status.duration + 1;
    if d as real >= on then Electrical(e.status.(tag := REST, duration := d), e.voltage, Some(0.0))
    else Electrical(e.status.(duration := d), e.voltage, Some(peak))
  }

  /** _handle_rest_state: back to [0, None, 0] once ON + OFF is reached. */
  function RestTransition(e: Electrical, isShort: bool, targetV: real, on: real, off: real): Electrical {
    var d := e.status.duration + 1;
    if d as real >= on + off then
      Electrical(IdleStatus(), if isShort then e.voltage else Some(targetV), Some(0.0))
    else
      Electrical(e.status.(duration := d), if isShort then e.voltage else Some(0.0), Some(0.0))
  }

  /**
   * One update after short detection: a short forces the voltage to 0, then
   * the handler for the current tag runs; an unknown tag changes nothing else.
   */
  function Transition(e: Electrical, isShort: bool, ignite: bool, location: real,
                      targetV: real, peak: real, on: real, off: real): Electrical
  {
    var e1 := if isShort then e.(voltage := Some(0.0)) else e;
    if e1.status.tag == IDLE then IdleTransition(e1, isShort, ignite, location, targetV, peak)
    else if e1.status.tag == SPARK then SparkTransition(e1, isShort, targetV, peak, on)
    else if e1.status.tag == SHORT then ShortTransition(e1, peak, on)
    else if e1.status.tag == REST then RestTransition(e1, isShort, targetV, on, off)
    else e1
  }

  /** The tag moves allowed by the state machine: 0->1, 0->-1, 1->-2, -1->-2, -2->0, or staying. */
  predicate LegalMove(from: int, to: int) {
    from == to
    || (from == IDLE && to == SPARK) || (from == IDLE && to == SHORT)
    || (from == SPARK && to == REST) || (from == SHORT && to == REST)
    || (from == REST && to == IDLE)
  }

  /**
   * Every update keeps the tag in {0, 1, -1, -2} and moves it only along the
   * legal graph; a short always ends the update at zero voltage; and in the
   * spark, short and rest states the duration rises by exactly one unless
   * rest returns to idle.
   */
  lemma TransitionInvariants(e: Electrical, isShort: bool, ignite: bool, location: real,
                             targetV: real, peak: real, on: real, off: real)
    requires IsLegalTag(e.status.tag)
    ensures var r := Transition(e, isShort, ignite, location, targetV, peak, on, off);
            && IsLegalTag(r.status.tag)
            && LegalMove(e.status.tag, r.status.tag)
            && (isShort ==> r.voltage == Some(0.0))
            && (e.status.tag in {SPARK, SHORT} ==> r.status.duration == e.status.duration + 1)
            && (e.status.tag == REST && r.status.tag == REST ==> r.status.duration == e.status.duration + 1)
            && (e.status.tag == REST && r.status.tag == IDLE ==> r.status == IdleStatus())
  {
  }

  /**
   * From idle: a short starts a [-1, None, 0] pulse at peak current; otherwise
   * an ignition starts [1, location, 0] at 0.3 x target voltage and peak
   * current; with neither the generator holds the target voltage at zero current.
   * The ignition decision is never consulted while a short holds.
   */
  lemma IdleBehaviour(e: Electrical, isShort: bool, ignite: bool, location: real,
                      targetV: real, peak: real, on: real, off: real)
    requires e.status.tag == IDLE
    ensures var r := Transition(e, isShort, ignite, location, targetV, peak, on, off);
            && (isShort ==> r == Electrical(SparkStatus(SHORT, None, 0), Some(0.0), Some(peak)))
            && (isShort ==> forall other: bool :: Transition(e, isShort, other, location, targetV, peak, on, off) == r)
            && (!isShort && ignite ==>
                  r == Electrical(SparkStatus(SPARK, Some(location), 0), Some(targetV * 0.3), Some(peak)))
            && (!isShort && !ignite ==> r == Electrical(e.status, Some(targetV), Some(0.0)))
  {
  }

  /** The inputs of one update as seen by the state machine. */
  datatype Tick = Tick(isShort: bool, ignite: bool, location: real)

  /** The state machine run over successive updates with fixed generator settings. */
  function Run(e: Electrical, ticks: seq<Tick>, targetV: real, peak: real, on: real, off: real): Electrical
    decreases |ticks|
  {
    if ticks == [] then e
    else Run(Transition(e, ticks[0].isShort, ticks[0].ignite, ticks[0].location, targetV, peak, on, off),
             ticks[1..], targetV, peak, on, off)
  }

  lemma {:induction false} RunAppend(e: Electrical, a: seq<Tick>, b: seq<Tick>,
                                      targetV: real, peak: real, on: real, off: real)
    ensures Run(e, a + b, targetV, peak, on, off) == Run(Run(e, a, targetV, peak, on, off), b, targetV, peak, on, off)
    decreases |a|
  {
    if a != [] {
      assert (a + b)[0] == a[0];
      assert (a + b)[1..] == a[1..] + b;
      RunAppend(Transition(e, a[0].isShort, a[0].ignite, a[0].location, targetV, peak, on, off),
                a[1..], b, targetV, peak, on, off);
    } else {
      assert a + b == b;
    }
  }

  /** A pulse (spark or short) with duration d < ON counts up and enters rest at exactly ON. */
  lemma {:induction false} PulsePhase(e: Electrical, ticks: seq<Tick>, targetV: real, peak: real, on: nat, off: real)
    requires e.status.tag == SPARK || e.status.tag == SHORT
    requires e.status.duration + |ticks| <= on
    ensures var r := Run(e, ticks, targetV, peak, on as real, off);
            && r.status.location == e.status.location
            && r.status.duration == e.status.duration + |ticks|
            && r.status.tag == (if e.status.duration + |ticks| == on && ticks != [] then REST else e.status.tag)
    decreases |ticks|
  {
    if ticks != [] {
      var e1 := Transition(e, ticks[0].isShort, ticks[0].ignite, ticks[0].location, targetV, peak, on as real, off);
      if e1.status.tag == REST {
        assert |ticks[1..]| == 0;
      } else {
        PulsePhase(e1, ticks[1..], targetV, peak, on, off);
      }
    }
  }

  /** Rest counts up from its entry duration and returns to idle at exactly ON + OFF. */
  lemma {:induction false} RestPhase(e: Electrical, ticks: seq<Tick>, targetV: real, peak: real, on: nat, off: nat)
    requires e.status.tag == REST
    requires e.status.duration + |ticks| <= on + off
    ensures var r := Run(e, ticks, targetV, peak, on as real, off as real);
            if e.status.duration + |ticks| == on + off && ticks != [] then r.status == IdleStatus()
            else r.status == e.status.(duration := e.status.duration + |ticks|)
    decreases |ticks|
  {
    if ticks != [] {
      var e1 := Transition(e, ticks[0].isShort, ticks[0].ignite, ticks[0].location, targetV, peak, on as real, off as real);
      if e1.status.tag == IDLE {
        assert |ticks[1..]| == 0;
      } else {
        RestPhase(e1, ticks[1..], targetV, peak, on, off);
      }
    }
  }

  /**
   * Exact ON/OFF timing: a fresh spark or short enters rest after exactly ON
   * updates (keeping its duration ON and its location) and is idle again after
   * exactly ON + OFF updates, whatever the short flags and rolls meanwhile;
   * it is never idle in between.
   */
  lemma PulseCycleTiming(e: Electrical, ticks: seq<Tick>, targetV: real, peak: real, on: nat, off: nat)
    requires on >= 1 && off >= 1
    requires e.status.tag == SPARK || e.status.tag == SHORT
    requires e.status.duration == 0
    requires |ticks| <= on + off
    ensures var r := Run(e, ticks, targetV, peak, on as real, off as real);
            && (|ticks| == on ==> r.status == SparkStatus(REST, e.status.location, on))
            && (|ticks| == on + off ==> r.status == IdleStatus())
            && (|ticks| < on + off ==> r.status.tag != IDLE)
  {
    if |ticks| <= on {
      PulsePhase(e, ticks, targetV, peak, on, off as real);
    } else {
      var a, b := ticks[..on], ticks[on..];
      assert ticks == a + b;
      RunAppend(e, a, b, targetV, peak, on as real, off as real);
      PulsePhase(e, a, targetV, peak, on, off as real);
      RestPhase(Run(e, a, targetV, peak, on as real, off as real), b, targetV, peak, on, off);
    }
  }

  // ------------------------------------------------------------------------
  // Peak current by current mode
  // ------------------------------------------------------------------------

  /** Missing and unknown modes fall back to "I5". */
  function NormalizeMode(currentsData: map<string, real>, mode: Option<string>): (m: string)
    ensures mode.Some? && mode.value in currentsData ==> m == mode.value
    ensures mode.None? || mode.value !in currentsData ==> m == "I5"
  {
    if mode.None? then "I5"
    else if mode.value !in currentsData then "I5"
    else mode.value
  }

  /**
   * The value _get_current_from_mode returns, given the cache it starts from:
   * a lookup only when the requested mode differs from the cached one.
   */
  function CurrentFromMode(currentsData: map<string, real>, mode: Option<string>,
                           cachedMode: Option<string>, cachedValue: real): real
    requires "I5" in currentsData
  {
    if mode != cachedMode then currentsData[NormalizeMode(currentsData, mode)] else cachedValue
  }

  /** The cached mode after one _get_current_from_mode call. */
  function CacheAfterRead(currentsData: map<string, real>, mode: Option<string>, cachedMode: Option<string>): Option<string> {
    if mode != cachedMode then Some(NormalizeMode(currentsData, mode)) else cachedMode
  }

  /**
   * The cache as seen by later calls: a fresh module reads an unset mode as
   * the hard-coded 60 A and stays uncached for as long as the mode is unset;
   * once any mode was cached, an unset mode reads the I5 table current; and
   * a second read of the same mode returns the same current without a change.
   */
  lemma CacheBehaviour(currentsData: map<string, real>, mode: Option<string>, cachedMode: Option<string>, cachedValue: real)
    requires "I5" in currentsData
    ensures mode.None? && cachedMode.None? ==>
              CurrentFromMode(currentsData, mode, cachedMode, cachedValue) == cachedValue
              && CacheAfterRead(currentsData, mode, cachedMode).None?
    ensures mode.None? && cachedMode.Some? ==>
              CurrentFromMode(currentsData, mode, cachedMode, cachedValue) == currentsData["I5"]
              && CacheAfterRead(currentsData, mode, cachedMode) == Some("I5")
    ensures var c := CacheAfterRead(currentsData, mode, cachedMode);
            var v := CurrentFromMode(currentsData, mode, cachedMode, cachedValue);
            && CacheAfterRead(currentsData, mode, c) == c
            && CurrentFromMode(currentsData, mode, c, v) == v
  {
  }

  /**
   * Whether one update reads the peak current (and so may refill the cache):
   * from idle on a short or an ignition, and in the spark and short states
   * while the pulse is still on.
   */
  predicate ReadsPeak(status: SparkStatus, isShort: bool, ignite: bool, on: real) {
    if status.tag == IDLE then isShort || ignite
    else if status.tag == SPARK || status.tag == SHORT then ((status.duration + 1) as real) < on
    else false
  }

  /** The cached mode after one update. */
  function CacheNext(currentsData: map<string, real>, mode: Option<string>, cachedMode: Option<string>, read: bool): Option<string> {
    if read then CacheAfterRead(currentsData, mode, cachedMode) else cachedMode
  }

  // ------------------------------------------------------------------------
  // The module
  // ------------------------------------------------------------------------

  /** The gap the short-circuit detection uses, clamped at 0. */
  function ClampedGap(state: EDMState): real
    reads state`workpiecePosition, state`wirePosition
  {
    Max(0.0, Gap(state))
  }

  class IgnitionModule {
    const params: ShortParams
    /** Injected mode -> peak-current table (the currents.json contents). */
    const currentsData: map<string, real>

    var lambdaCache: map<real, real>
    var randomShortRemaining: int
    var cachedCurrentMode: Option<string>
    var cachedCurrentValue: real

    ghost predicate Valid()
      reads this
    {
      && "I5" in currentsData
      && (forall g :: g in lambdaCache ==> lambdaCache[g] == LambdaFormula(g))
      && (cachedCurrentMode.Some? ==>
            cachedCurrentMode.value in currentsData
            && cachedCurrentValue == currentsData[cachedCurrentMode.value])
      && (cachedCurrentMode.None? ==> cachedCurrentValue == 60.0)
    }

    constructor (params: ShortParams, currentsData: map<string, real>)
      requires "I5" in currentsData
      ensures Valid()
      ensures this.params == params && this.currentsData == currentsData
      ensures lambdaCache == map[] && randomShortRemaining == 0
      ensures cachedCurrentMode == None && cachedCurrentValue == 60.0
    {
      this.params := params;
      this.currentsData := currentsData;
      lambdaCache := map[];
      randomShortRemaining := 0;
      cachedCurrentMode := None;
      cachedCurrentValue := 60.0;
    }

    /** _get_current_from_mode: a one-entry cache in front of the table lookup. */
    method GetCurrentFromMode(mode: Option<string>) returns (r: real)
      requires Valid()
      modifies this`cachedCurrentMode, this`cachedCurrentValue
      ensures Valid()
      ensures r == CurrentFromMode(currentsData, mode, old(cachedCurrentMode), old(cachedCurrentValue))
      ensures mode.Some? ==> r == currentsData[NormalizeMode(currentsData, mode)]
      ensures mode.None? ==> r == currentsData["I5"] || (old(cachedCurrentMode).None? && r == 60.0)
      ensures cachedCurrentMode == CacheAfterRead(currentsData, mode, old(cachedCurrentMode))
      ensures cachedCurrentValue == r
    {
      if mode != cachedCurrentMode {
        var m := NormalizeMode(currentsData, mode);
        cachedCurrentValue := currentsData[m];
        cachedCurrentMode := Some(m);
      }
      r := cachedCurrentValue;
    }

    /**
     * get_lambda: raises while a short circuit holds; otherwise memoises the
     * closed form per (signed) gap.
     */
    method GetLambda(state: EDMState) returns (r: Result<real, string>)
      requires Valid()
      modifies this`lambdaCache
      ensures Valid()
      ensures r.Err? <==> state.isShortCircuit
      ensures r.Ok? ==> r.value == LambdaFormula(Gap(state)) && r.value > 0.0
      ensures lambdaCache == if state.isShortCircuit then old(lambdaCache)
                             else old(lambdaCache)[Gap(state) := LambdaFormula(Gap(state))]
    {
      if state.isShortCircuit {
        return Err("get_lambda called during short circuit condition.");
      }
      var gap := state.workpiecePosition - state.wirePosition;
      if gap !in lambdaCache {
        lambdaCache := lambdaCache[gap := LambdaFormula(gap)];
      } else {
        assert lambdaCache == lambdaCache[gap := LambdaFormula(gap)];
      }
      r := Ok(lambdaCache[gap]);
    }

    /** _should_ignite: never evaluates lambda while shorted. */
    method ShouldIgnite(state: EDMState, roll: real) returns (ignite: bool)
      requires Valid()
      modifies this`lambdaCache
      ensures Valid()
      ensures ignite <==> !state.isShortCircuit && roll < LambdaFormula(Gap(state))
      ensures lambdaCache == if state.isShortCircuit then old(lambdaCache)
                             else old(lambdaCache)[Gap(state) := LambdaFormula(Gap(state))]
    {
      if state.isShortCircuit {
        return false;
      }
      var lambda := GetLambda(state);
      match lambda {
        case Ok(p) => ignite := roll < p;
        case Err(_) => assert false;
      }
    }

    /** _update_short_circuit_detection. */
    method UpdateShortCircuitDetection(state: EDMState, roll: real)
      modifies this`randomShortRemaining, state`isShortCircuit
      ensures var d := ShortStep(params, old(randomShortRemaining), ClampedGap(state),
                                 state.debrisDensity.GetOr(0.0), roll);
              state.isShortCircuit == d.isShort && randomShortRemaining == d.remaining
    {
      var gap := Max(0.0, state.workpiecePosition - state.wirePosition);
      var debrisDensity := state.debrisDensity.GetOr(0.0);
      if randomShortRemaining > 0 {
        randomShortRemaining := randomShortRemaining - 1;
        state.isShortCircuit := true;
        return;
      }
      var debrisShort := DetectCriticalDebrisShort(params, gap, debrisDensity);
      var probability := RandomShortProbability(params, gap);
      if !debrisShort && roll < probability {
        randomShortRemaining := params.randomShortDuration;
        state.isShortCircuit := true;
      } else {
        state.isShortCircuit := debrisShort;
      }
    }

    method HandleIdleState(state: EDMState, igniteRoll: real, sparkLocation: real)
      requires Valid()
      requires state.sparkStatus.tag == IDLE
      modifies this`lambdaCache, this`cachedCurrentMode, this`cachedCurrentValue
      modifies state`sparkStatus, state`voltage, state`current
      ensures Valid()
      ensures Electrical(state.sparkStatus, state.voltage, state.current) ==
              IdleTransition(Electrical(old(state.sparkStatus), old(state.voltage), old(state.current)),
                             state.isShortCircuit,
                             igniteRoll < LambdaFormula(Gap(state)), sparkLocation,
                             TargetVoltageOf(state.targetVoltage),
                             CurrentFromMode(currentsData, state.currentMode,
                                             old(cachedCurrentMode), old(cachedCurrentValue)))
      ensures lambdaCache == if state.isShortCircuit then old(lambdaCache)
                             else old(lambdaCache)[Gap(state) := LambdaFormula(Gap(state))]
      ensures var read := ReadsPeak(old(state.sparkStatus), state.isShortCircuit,
                                    igniteRoll < LambdaFormula(Gap(state)), OnTimeOf(state.onTime));
              && cachedCurrentMode == CacheNext(currentsData, state.currentMode, old(cachedCurrentMode), read)
              && cachedCurrentValue == if read then CurrentFromMode(currentsData, state.currentMode,
                                                                    old(cachedCurrentMode), old(cachedCurrentValue))
                                       else old(cachedCurrentValue)
    {
      state.current := Some(0.0);
      if state.isShortCircuit {
        state.sparkStatus := SparkStatus(SHORT, None, 0);
        var peak := GetCurrentFromMode(state.currentMode);
        state.current := Some(peak);
      } else {
        state.voltage := Some(TargetVoltageOf(state.targetVoltage));
        var ignite := ShouldIgnite(state, igniteRoll);
        if ignite {
          state.sparkStatus := SparkStatus(SPARK, Some(sparkLocation), 0);
          state.voltage := Some(TargetVoltageOf(state.targetVoltage) * 0.3);
          var peak := GetCurrentFromMode(state.currentMode);
          state.current := Some(peak);
        }
      }
    }

    method HandleSparkState(state: EDMState)
      requires Valid()
      requires state.sparkStatus.tag == SPARK
      modifies this`cachedCurrentMode, this`cachedCurrentValue
      modifies state`sparkStatus, state`voltage, state`current
      ensures Valid()
      ensures Electrical(state.sparkStatus, state.voltage, state.current) ==
              SparkTransition(Electrical(old(state.sparkStatus), old(state.voltage), old(state.current)),
                              state.isShortCircuit, TargetVoltageOf(state.targetVoltage),
                              CurrentFromMode(currentsData, state.currentMode,
                                              old(cachedCurrentMode), old(cachedCurrentValue)),
                              OnTimeOf(state.onTime))
      ensures var read := ReadsPeak(old(state.sparkStatus), state.isShortCircuit, false, OnTimeOf(state.onTime));
              && cachedCurrentMode == CacheNext(currentsData, state.currentMode, old(cachedCurrentMode), read)
              && cachedCurrentValue == if read then CurrentFromMode(currentsData, state.currentMode,
                                                                    old(cachedCurrentMode), old(cachedCurrentValue))
                                       else old(cachedCurrentValue)
    {
      var duration := state.sparkStatus.duration + 1;
      state.sparkStatus := state.sparkStatus.(duration := duration);
      if duration as real >= OnTimeOf(state.onTime) {
        state.sparkStatus := state.sparkStatus.(tag := REST);
        state.current := Some(0.0);
        if !state.isShortCircuit {
          state.voltage := Some(0.0);
        }
      } else {
        var peak := GetCurrentFromMode(state.currentMode);
        state.current := Some(peak);
        if !state.isShortCircuit {
          state.voltage := Some(TargetVoltageOf(state.targetVoltage) * 0.3);
        }
      }
    }

    method HandleShortState(state: EDMState)
      requires Valid()
      requires state.sparkStatus.tag == SHORT
      modifies this`cachedCurrentMode, this`cachedCurrentValue
      modifies state`sparkStatus, state`current
      ensures Valid()
      ensures Electrical(state.sparkStatus, state.voltage, state.current) ==
              ShortTransition(Electrical(old(state.sparkStatus), state.voltage, old(state.current)),
                              CurrentFromMode(currentsData, state.currentMode,
                                              old(cachedCurrentMode), old(cachedCurrentValue)),
                              OnTimeOf(state.onTime))
      ensures var read := ReadsPeak(old(state.sparkStatus), state.isShortCircuit, false, OnTimeOf(state.onTime));
              && cachedCurrentMode == CacheNext(currentsData, state.currentMode, old(cachedCurrentMode), read)
              && cachedCurrentValue == if read then CurrentFromMode(currentsData, state.currentMode,
                                                                    old(cachedCurrentMode), old(cachedCurrentValue))
                                       else old(cachedCurrentValue)
    {
      var duration := state.sparkStatus.duration + 1;
      state.sparkStatus := state.sparkStatus.(duration := duration);
      if duration as real >= OnTimeOf(state.onTime) {
        state.sparkStatus := state.sparkStatus.(tag := REST);
        state.current := Some(0.0);
      } else {
        var peak := GetCurrentFromMode(state.currentMode);
        state.current := Some(peak);
      }
    }

    method HandleRestState(state: EDMState)
      requires state.sparkStatus.tag == REST
      modifies state`sparkStatus, state`voltage, state`current
      ensures Electrical(state.sparkStatus, state.voltage, state.current) ==
              RestTransition(Electrical(old(state.sparkStatus), old(state.voltage), old(state.current)),
                             state.isShortCircuit, TargetVoltageOf(state.targetVoltage),
                             OnTimeOf(state.onTime), OffTimeOf(state.offTime))
    {
      var duration := state.sparkStatus.duration + 1;
      state.sparkStatus := state.sparkStatus.(duration := duration);
      var totalCycleTime := OnTimeOf(state.onTime) + OffTimeOf(state.offTime);
      if duration as real >= totalCycleTime {
        state.sparkStatus := IdleStatus();
        state.current := Some(0.0);
        if !state.isShortCircuit {
          state.voltage := Some(TargetVoltageOf(state.targetVoltage));
        }
      } else {
        state.current := Some(0.0);
        if !state.isShortCircuit {
          state.voltage := Some(0.0);
        }
      }
    }

    /**
     * update: short detection strictly first, then zero voltage on a short,
     * then the handler of the current tag. The lambda cache is touched only
     * from idle without a short.
     */
    method Update(state: EDMState, shortRoll: real, igniteRoll: real, sparkLocation: real)
      requires Valid()
      modifies this`randomShortRemaining, this`lambdaCache, this`cachedCurrentMode, this`cachedCurrentValue
      modifies state`isShortCircuit, state`sparkStatus, state`voltage, state`current
      ensures Valid()
      ensures var d := ShortStep(params, old(randomShortRemaining), ClampedGap(state),
                                 state.debrisDensity.GetOr(0.0), shortRoll);
              state.isShortCircuit == d.isShort && randomShortRemaining == d.remaining
      ensures Electrical(state.sparkStatus, state.voltage, state.current) ==
              Transition(Electrical(old(state.sparkStatus), old(state.voltage), old(state.current)),
                         state.isShortCircuit,
                         igniteRoll < LambdaFormula(Gap(state)), sparkLocation,
                         TargetVoltageOf(state.targetVoltage),
                         CurrentFromMode(currentsData, state.currentMode,
                                         old(cachedCurrentMode), old(cachedCurrentValue)),
                         OnTimeOf(state.onTime), OffTimeOf(state.offTime))
      ensures lambdaCache ==
              if old(state.sparkStatus.tag) == IDLE && !state.isShortCircuit
              then old(lambdaCache)[Gap(state) := LambdaFormula(Gap(state))]
              else old(lambdaCache)
      ensures var read := ReadsPeak(old(state.sparkStatus), state.isShortCircuit,
                                    igniteRoll < LambdaFormula(Gap(state)), OnTimeOf(state.onTime));
              && cachedCurrentMode == CacheNext(currentsData, state.currentMode, old(cachedCurrentMode), read)
              && cachedCurrentValue == if read then CurrentFromMode(currentsData, state.currentMode,
                                                                    old(cachedCurrentMode), old(cachedCurrentValue))
                                       else old(cachedCurrentValue)
    {
      UpdateShortCircuitDetection(state, shortRoll);
      ghost var e0 := Electrical(state.sparkStatus, state.voltage, state.current);
      if state.isShortCircuit {
        state.voltage := Some(0.0);
      }
      assert Electrical(state.sparkStatus, state.voltage, state.current)
             == if state.isShortCircuit then e0.(voltage := Some(0.0)) else e0;
      var tag := state.sparkStatus.tag;
      if tag == IDLE {
        HandleIdleState(state, igniteRoll, sparkLocation);
      } else if tag == SPARK {
        HandleSparkState(state);
      } else if tag == SHORT {
        HandleShortState(state);
      } else if tag == REST {
        HandleRestState(state);
      }
    }
  }
}
