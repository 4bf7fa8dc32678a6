/**
 * The earlier single-file kernel of edm_environments/profiling_code.py: its
 * own state record, an ignition module without short-circuit handlers, a
 * material stub removing 0.05 per spark, a dielectric whose ion channel
 * counts down to 0, and the microsecond step with its termination check.
 * The wire thermal module and the empty mechanics module are not part of
 * this model (see README).
 */
module Profiling {
  import opened Wrappers
  import opened EdmState
  import Ig = Ignition
  import Diel = Dielectric
  import Orch = Orchestrator

  /** Workpiece height (mm), the wire-break threshold of the termination check. */
  const WORKPIECE_HEIGHT: real := 10.0
  /** Workpiece advance per fresh spark. */
  const REMOVAL_PER_SPARK: real := 0.05
  /** Ion-channel lifetime set on a fresh spark. */
  const TAU_DEIONIZATION: int := 6

  // ------------------------------------------------------------------------
  // Ignition on values
  // ------------------------------------------------------------------------

  /** `x if x is not None else d`: unlike `x or d`, a 0.0 setting is kept. */
  function IfNotNone(x: Option<real>, d: real): (r: real)
    ensures x.Some? ==> r == x.value
    ensures x.None? ==> r == d
  {
    match x
    case Some(v) => v
    case None => d
  }

  /**
   * An update either completes or raises TypeError when it multiplies an
   * unset target voltage by 0.3; then the fields written before the raise
   * stay written.
   */
  datatype IgnitionOutcome = Completed(e: Ig.Electrical) | TypeError(partial: Ig.Electrical) {
    /** The spark status, voltage and current the update leaves behind either way. */
    function Written(): Ig.Electrical {
      match this
      case Completed(e) => e
      case TypeError(p) => p
    }
  }

  /**
   * IgnitionModule.update on the electrical fields: a contact short first,
   * then the spark, rest and idle branches. The -1 status has no branch.
   */
  function ProfTransition(e: Ig.Electrical, contact: bool, targetV: Option<real>, peak: Option<real>,
                          on: real, off: real, ignite: bool, location: real): IgnitionOutcome
  {
    if contact then Completed(Ig.Electrical(SparkStatus(SHORT, None, 0), Some(0.0), peak))
    else if e.status.tag == SPARK then
      var d := e.status.duration + 1;
      if d as real >= on then Completed(Ig.Electrical(SparkStatus(REST, None, 0), Some(0.0), Some(0.0)))
      else
        var partial := Ig.Electrical(SparkStatus(SPARK, e.status.location, d), e.voltage, peak);
        if targetV.None? then TypeError(partial) else Completed(partial.(voltage := Some(targetV.value * 0.3)))
    else if e.status.tag == REST then
      var d := e.status.duration + 1;
      if d as real >= off + on then Completed(Ig.Electrical(IdleStatus(), targetV, Some(0.0)))
      else Completed(Ig.Electrical(SparkStatus(REST, None, d), e.voltage, e.current))
    else if e.status.tag == IDLE then
      if !ignite then Completed(Ig.Electrical(e.status, targetV, Some(0.0)))
      else if targetV.None? then TypeError(Ig.Electrical(SparkStatus(SPARK, Some(location), 0), targetV, Some(0.0)))
      else Completed(Ig.Electrical(SparkStatus(SPARK, Some(location), 0), Some(targetV.value * 0.3), peak))
    else Completed(e)
  }

  /**
   * Each update keeps the tag among {0, 1, -1, -2}; a contact short from any
   * state gives [-1, None, 0] at zero voltage and peak current; otherwise
   * the tag moves only 0->1, 1->-2 or -2->0; a TypeError arises only on the
   * way into or through a spark with the target voltage unset, and a spark
   * entering rest, or rest re-entered, has its duration reset or advanced.
   */
  lemma ProfTransitionInvariants(e: Ig.Electrical, contact: bool, targetV: Option<real>, peak: Option<real>,
                                 on: real, off: real, ignite: bool, location: real)
    requires IsLegalTag(e.status.tag)
    ensures var o := ProfTransition(e, contact, targetV, peak, on, off, ignite, location);
            && IsLegalTag(o.Written().status.tag)
            && (contact ==> o == Completed(Ig.Electrical(SparkStatus(SHORT, None, 0), Some(0.0), peak)))
            && (!contact ==> Ig.LegalMove(e.status.tag, o.Written().status.tag))
            && (!contact && o.Written().status.tag == SHORT ==> o == Completed(e))
            && (o.TypeError? <==> !contact && targetV.None? && o.Written().status.tag == SPARK &&
                                  (e.status.tag == IDLE || (e.status.tag == SPARK && (e.status.duration + 1) as real < on)))
            && (e.status.tag == SPARK && o.Written().status.tag == REST ==> o.Written().status.duration == 0)
            && (!contact && e.status.tag == REST && o.Written().status.tag == REST ==>
                  o.Written().status.duration == e.status.duration + 1)
  {
  }

  /**
   * The -1 status has no handler: as long as the wire stays clear of the
   * workpiece an update leaves the status, voltage and current untouched.
   */
  lemma ShortIsStuck(e: Ig.Electrical, targetV: Option<real>, peak: Option<real>,
                     on: real, off: real, ignite: bool, location: real)
    requires e.status.tag == SHORT
    ensures ProfTransition(e, false, targetV, peak, on, off, ignite, location) == Completed(e)
  {
  }

  /** Updates with the wire clear of the workpiece, no ignition and a set target voltage. */
  function QuietRun(e: Ig.Electrical, n: nat, targetV: real, peak: Option<real>, on: real, off: real): Ig.Electrical
    decreases n
  {
    if n == 0 then e
    else QuietRun(ProfTransition(e, false, Some(targetV), peak, on, off, false, 0.0).Written(), n - 1, targetV, peak, on, off)
  }

  /** A spark at duration d < ON counts up and enters rest (duration reset) at exactly ON. */
  lemma {:induction false} ProfSparkPhase(e: Ig.Electrical, n: nat, targetV: real, peak: Option<real>, on: nat, off: real)
    requires e.status.tag == SPARK
    requires e.status.duration + n <= on
    ensures var r := QuietRun(e, n, targetV, peak, on as real, off);
            if e.status.duration + n == on && n > 0 then r.status == SparkStatus(REST, None, 0)
            else r.status == SparkStatus(SPARK, e.status.location, e.status.duration + n)
    decreases n
  {
    if n > 0 {
      var e1 := ProfTransition(e, false, Some(targetV), peak, on as real, off, false, 0.0).Written();
      if e1.status.tag == SPARK {
        ProfSparkPhase(e1, n - 1, targetV, peak, on, off);
      }
    }
  }

  /** Rest counts up from its entry duration and returns to idle at exactly ON + OFF. */
  lemma {:induction false} ProfRestPhase(e: Ig.Electrical, n: nat, targetV: real, peak: Option<real>, on: nat, off: nat)
    requires e.status.tag == REST && e.status.location.None?
    requires e.status.duration + n <= on + off
    ensures var r := QuietRun(e, n, targetV, peak, on as real, off as real);
            if e.status.duration + n == on + off && n > 0 then r.status == IdleStatus()
            else r.status == SparkStatus(REST, None, e.status.duration + n)
    decreases n
  {
    if n > 0 {
      var e1 := ProfTransition(e, false, Some(targetV), peak, on as real, off as real, false, 0.0).Written();
      if e1.status.tag == REST {
        ProfRestPhase(e1, n - 1, targetV, peak, on, off);
      }
    }
  }

  lemma {:induction false} QuietRunAppend(e: Ig.Electrical, a: nat, b: nat, targetV: real, peak: Option<real>, on: real, off: real)
    ensures QuietRun(e, a + b, targetV, peak, on, off) == QuietRun(QuietRun(e, a, targetV, peak, on, off), b, targetV, peak, on, off)
    decreases a
  {
    if a > 0 {
      QuietRunAppend(ProfTransition(e, false, Some(targetV), peak, on, off, false, 0.0).Written(), a - 1, b, targetV, peak, on, off);
    }
  }

  /**
   * Pulse timing of this variant: a fresh spark lasts ON updates and, since
   * rest restarts its duration at 0 and waits for ON + OFF, the generator is
   * idle again only 2 ON + OFF updates after ignition.
   */
  lemma ProfPulseCycle(e: Ig.Electrical, n: nat, targetV: real, peak: Option<real>, on: nat, off: nat)
    requires on >= 1
    requires e.status.tag == SPARK && e.status.duration == 0
    requires n <= on + on + off
    ensures var r := QuietRun(e, n, targetV, peak, on as real, off as real);
            && (n < on ==> r.status == SparkStatus(SPARK, e.status.location, n))
            && (on <= n < on + on + off ==> r.status == SparkStatus(REST, None, n - on))
            && (n == on + on + off ==> r.status == IdleStatus())
  {
    if n <= on {
      ProfSparkPhase(e, n, targetV, peak, on, off as real);
    } else {
      QuietRunAppend(e, on, n - on, targetV, peak, on as real, off as real);
      ProfSparkPhase(e, on, targetV, peak, on, off as real);
      ProfRestPhase(QuietRun(e, on, targetV, peak, on as real, off as real), n - on, targetV, peak, on, off);
    }
  }

  // ------------------------------------------------------------------------
  // Material and dielectric on values
  // ------------------------------------------------------------------------

  /** How far one update moves the workpiece face: 0.05 on a fresh spark. */
  function Removal(status: SparkStatus): (r: real)
    ensures IsFreshSpark(status) <==> r > 0.0
    ensures r == 0.0 || r == REMOVAL_PER_SPARK
  {
    if IsFreshSpark(status) then REMOVAL_PER_SPARK else 0.0
  }

  /**
   * The ion channel after one update: born at (y, 6) on a fresh spark, then
   * counted down while positive and cleared one update after reaching 0.
   * The channel tuple is always truthy, so a channel at 0 still counts down.
   */
  function ChannelNext(channel: Option<IonChannel>, status: SparkStatus): Option<IonChannel> {
    var born := if IsFreshSpark(status) then Some(IonChannel(status.location, TAU_DEIONIZATION)) else channel;
    match born
    case None => None
    case Some(c) => if c.remaining > 0 then Some(IonChannel(c.location, c.remaining - 1)) else None
  }

  /** The channel after one update per status, in order. */
  function ChannelAfter(channel: Option<IonChannel>, statuses: seq<SparkStatus>): Option<IonChannel>
    decreases |statuses|
  {
    if statuses == [] then channel else ChannelAfter(ChannelNext(channel, statuses[0]), statuses[1..])
  }

  /** A live channel at k >= 0 with no fresh spark meanwhile reaches 0 after k updates and is gone after k + 1. */
  lemma {:induction false} ChannelCountsToZero(location: Option<real>, k: int, statuses: seq<SparkStatus>)
    requires 0 <= k && |statuses| <= k + 1
    requires forall i :: 0 <= i < |statuses| ==> !IsFreshSpark(statuses[i])
    ensures ChannelAfter(Some(IonChannel(location, k)), statuses) ==
            if |statuses| == k + 1 then None else Some(IonChannel(location, k - |statuses|))
    decreases |statuses|
  {
    if statuses != [] {
      if k > 0 {
        ChannelCountsToZero(location, k - 1, statuses[1..]);
      } else {
        assert statuses[1..] == [];
      }
    }
  }

  /**
   * After the update that sees a fresh spark at y the channel is (y, 5); with
   * no new spark it counts down through (y, 0) over the next five updates and
   * is cleared by the sixth.
   */
  lemma ProfChannelLifetime(channel: Option<IonChannel>, spark: SparkStatus, statuses: seq<SparkStatus>)
    requires IsFreshSpark(spark)
    requires |statuses| <= TAU_DEIONIZATION
    requires forall i :: 0 <= i < |statuses| ==> !IsFreshSpark(statuses[i])
    ensures ChannelNext(channel, spark) == Some(IonChannel(spark.location, TAU_DEIONIZATION - 1))
    ensures var c := ChannelAfter(ChannelNext(channel, spark), statuses);
            if |statuses| == TAU_DEIONIZATION then c.None?
            else c == Some(IonChannel(spark.location, TAU_DEIONIZATION - 1 - |statuses|))
  {
    ChannelCountsToZero(spark.location, TAU_DEIONIZATION - 1, statuses);
  }

  // ------------------------------------------------------------------------
  // Termination on values
  // ------------------------------------------------------------------------

  /**
   * _check_termination: the wire past the workpiece height breaks; else the
   * workpiece at or beyond the servo's target delta counts as reached.
   */
  function ProfVerdict(wirePosition: real, workpiecePosition: real, targetDelta: real): Orch.Verdict {
    if wirePosition > WORKPIECE_HEIGHT then Orch.Broken
    else if workpiecePosition >= targetDelta then Orch.Reached
    else Orch.Running
  }

  /**
   * A fresh episode ends at its first step: wire and workpiece both start at
   * 0, so the ignition sees contact and shorts, nothing is removed, and the
   * workpiece (at 0) is already at the default target delta 0.
   */
  lemma FreshEpisodeEndsAtOnce(ignite: bool, location: real)
    ensures var o := ProfTransition(Ig.Electrical(IdleStatus(), None, None), 0.0 >= 0.0, None, None,
                                    IfNotNone(None, 3.0), IfNotNone(None, 80.0), ignite, location);
            && o == Completed(Ig.Electrical(SparkStatus(SHORT, None, 0), Some(0.0), None))
            && Removal(o.e.status) == 0.0
            && ProfVerdict(0.0, 0.0 + Removal(o.e.status), 0.0) == Orch.Reached
  {
  }

  // ------------------------------------------------------------------------
  // The record and the modules
  // ------------------------------------------------------------------------

  /**
   * The fields of this variant's EDMState that its ignition, material,
   * dielectric and step code read or write.
   */
  class ProfState {
    var time: int
    var timeSinceServo: int
    var timeSinceOpenVoltage: int
    var timeSinceSparkIgnition: int
    var timeSinceSparkEnd: int
    var voltage: Option<real>
    var current: Option<real>
    var targetVoltage: Option<real>
    var peakCurrent: Option<real>
    var offTime: Option<real>
    var onTime: Option<real>
    var workpiecePosition: real
    var wirePosition: real
    var sparkStatus: SparkStatus
    var dielectricTemperature: real
    var debrisConcentration: real
    var flowRate: Option<real>
    var ionizedChannel: Option<IonChannel>
    var targetDelta: real
    var isWireBroken: bool
    var isTargetDistanceReached: bool

    constructor ()
      ensures time == 0 && timeSinceServo == 0 && timeSinceOpenVoltage == 0
      ensures timeSinceSparkIgnition == 0 && timeSinceSparkEnd == 0
      ensures voltage == None && current == None
      ensures targetVoltage == None && peakCurrent == None && offTime == None && onTime == None
      ensures workpiecePosition == 0.0 && wirePosition == 0.0 && sparkStatus == IdleStatus()
      ensures dielectricTemperature == 0.0 && debrisConcentration == 0.0
      ensures flowRate == None && ionizedChannel == None && targetDelta == 0.0
      ensures !isWireBroken && !isTargetDistanceReached
    {
      time, timeSinceServo, timeSinceOpenVoltage := 0, 0, 0;
      timeSinceSparkIgnition, timeSinceSparkEnd := 0, 0;
      voltage, current := None, None;
      targetVoltage, peakCurrent, offTime, onTime := None, None, None, None;
      workpiecePosition, wirePosition := 0.0, 0.0;
      sparkStatus := IdleStatus();
      dielectricTemperature, debrisConcentration := 0.0, 0.0;
      flowRate, ionizedChannel := None, None;
      targetDelta := 0.0;
      isWireBroken, isTargetDistanceReached := false, false;
    }
  }

  function Abs(x: real): real { if x < 0.0 then -x else x }

  /** The electrical fields of the record as one value. */
  function ElectricalOf(state: ProfState): Ig.Electrical
    reads state`sparkStatus, state`voltage, state`current
  {
    Ig.Electrical(state.sparkStatus, state.voltage, state.current)
  }

  /** The servo command and the four generator settings held in the record. */
  datatype Settings = Settings(targetDelta: real, targetVoltage: Option<real>, peakCurrent: Option<real>,
                               onTime: Option<real>, offTime: Option<real>)

  function SettingsOf(state: ProfState): Settings
    reads state`targetDelta, state`targetVoltage, state`peakCurrent, state`onTime, state`offTime
  {
    Settings(state.targetDelta, state.targetVoltage, state.peakCurrent, state.onTime, state.offTime)
  }

  /** The settings a control step writes from an action. */
  function Applied(a: Orch.Action): Settings {
    Settings(a.servo, Some(a.targetVoltage), Some(a.peakCurrent), Some(a.onTime), Some(a.offTime))
  }

  /** The dielectric module's debris and channel with their mirror in the record. */
  datatype DielectricView = DielectricView(debris: real, ionChannel: Option<IonChannel>, temperature: real,
                                           concentration: real, flowRate: Option<real>, ionized: Option<IonChannel>)

  function DielectricOf(d: ProfDielectricModule, state: ProfState): DielectricView
    reads d`debris, d`ionChannel, state`dielectricTemperature, state`debrisConcentration, state`flowRate
    reads state`ionizedChannel
  {
    DielectricView(d.debris, d.ionChannel, state.dielectricTemperature, state.debrisConcentration, state.flowRate,
                   state.ionizedChannel)
  }

  /**
   * The dielectric update of this variant from the module's debris and
   * channel: unit flow, a 293.15 K bath, and both results mirrored.
   */
  function DielectricNext(debris: real, channel: Option<IonChannel>, status: SparkStatus): DielectricView {
    var d := Diel.DebrisNext(debris, 1.0, status);
    var c := ChannelNext(channel, status);
    DielectricView(d, c, 293.15, d, Some(1.0), c)
  }

  /** The clocks, the wire and the termination flags: what only the end of a step writes. */
  datatype Progress = Progress(time: int, timeSinceOpenVoltage: int, clocks: Orch.Clocks, wirePosition: real,
                               isWireBroken: bool, isTargetDistanceReached: bool)

  function ProgressOf(state: ProfState): Progress
    reads state`time, state`timeSinceOpenVoltage, state`timeSinceSparkIgnition, state`timeSinceSparkEnd
    reads state`wirePosition, state`isWireBroken, state`isTargetDistanceReached
  {
    Progress(state.time, state.timeSinceOpenVoltage, Orch.Clocks(state.timeSinceSparkIgnition, state.timeSinceSparkEnd),
             state.wirePosition, state.isWireBroken, state.isTargetDistanceReached)
  }

  /** The lambda memo after an ignition update: the gap is memoised on the idle branch only. */
  function LambdaMemoNext(memo: map<real, real>, contact: bool, tag: int, gap: real): map<real, real> {
    if !contact && tag == IDLE then memo[gap := Ig.LambdaFormula(gap)] else memo
  }

  class ProfIgnitionModule {
    /** Lambda per absolute gap already computed. */
    var lambdaCache: map<real, real>

    ghost predicate Valid()
      reads this
    {
      forall g :: g in lambdaCache ==> lambdaCache[g] == Ig.LambdaFormula(g)
    }

    constructor ()
      ensures Valid() && lambdaCache == map[]
    {
      lambdaCache := map[];
    }

    /** _get_lambda: the closed form at |gap|, memoised under |gap|. */
    method GetLambda(state: ProfState) returns (lambda: real)
      requires Valid()
      modifies this`lambdaCache
      ensures Valid()
      ensures var g := Abs(state.workpiecePosition - state.wirePosition);
              && lambda == Ig.LambdaFormula(g) && lambda > 0.0
              && lambdaCache == old(lambdaCache)[g := lambda]
    {
      var gap := Abs(state.workpiecePosition - state.wirePosition);
      if gap in lambdaCache {
        assert lambdaCache == lambdaCache[gap := lambdaCache[gap]];
        return lambdaCache[gap];
      }
      lambda := Ig.LambdaFormula(gap);
      lambdaCache := lambdaCache[gap := lambda];
    }

    /**
     * update: the contact short, then the spark, rest and idle branches;
     * `raised` reports the TypeError of an unset target voltage.
     */
    method Update(state: ProfState, roll: real, location: real) returns (raised: bool)
      requires Valid()
      modifies this`lambdaCache, state`sparkStatus, state`voltage, state`current
      ensures Valid()
      ensures var contact := old(state.wirePosition >= state.workpiecePosition);
              var g := Abs(state.workpiecePosition - state.wirePosition);
              var o := ProfTransition(old(ElectricalOf(state)), contact, state.targetVoltage, state.peakCurrent,
                                      IfNotNone(state.onTime, 3.0), IfNotNone(state.offTime, 80.0),
                                      roll < Ig.LambdaFormula(g), location);
              && ElectricalOf(state) == o.Written()
              && raised == o.TypeError?
              && lambdaCache == LambdaMemoNext(old(lambdaCache), contact, old(state.sparkStatus.tag), g)
    {
      if state.wirePosition >= state.workpiecePosition {
        state.sparkStatus, state.voltage, state.current := SparkStatus(SHORT, None, 0), Some(0.0), state.peakCurrent;
        return false;
      }
      var status := state.sparkStatus;
      var on := IfNotNone(state.onTime, 3.0);
      var off := IfNotNone(state.offTime, 80.0);
      raised := false;
      if status.tag == SPARK {
        var d := status.duration + 1;
        if d as real >= on {
          state.sparkStatus, state.current, state.voltage := SparkStatus(REST, None, 0), Some(0.0), Some(0.0);
        } else {
          state.sparkStatus, state.current := SparkStatus(SPARK, status.location, d), state.peakCurrent;
          if state.targetVoltage.None? {
            return true;
          }
          state.voltage := Some(state.targetVoltage.value * 0.3);
        }
      } else if status.tag == REST {
        var d := status.duration + 1;
        if d as real >= off + on {
          state.sparkStatus, state.voltage, state.current := IdleStatus(), state.targetVoltage, Some(0.0);
        } else {
          state.sparkStatus := SparkStatus(REST, None, d);
        }
      } else if status.tag == IDLE {
        state.voltage, state.current := state.targetVoltage, Some(0.0);
        var lambda := GetLambda(state);
        if roll < lambda {
          state.sparkStatus := SparkStatus(SPARK, Some(location), 0);
          if state.targetVoltage.None? {
            return true;
          }
          state.voltage, state.current := Some(state.targetVoltage.value * 0.3), state.peakCurrent;
        }
      }
    }
  }

  class ProfMaterialModule {
    constructor () {}

    /** update: a fresh spark moves the workpiece face by 0.05. */
    method Update(state: ProfState)
      modifies state`workpiecePosition
      ensures state.workpiecePosition == old(state.workpiecePosition) + Removal(state.sparkStatus)
    {
      if state.sparkStatus.tag == SPARK && state.sparkStatus.duration == 0 {
        state.workpiecePosition := state.workpiecePosition + REMOVAL_PER_SPARK;
      }
    }
  }

  class ProfDielectricModule {
    var debris: real
    var ionChannel: Option<IonChannel>

    /** Debris stays in [0, 1]; a channel never holds a negative count. */
    ghost predicate Valid()
      reads this
    {
      && 0.0 <= debris <= 1.0
      && (ionChannel.Some? ==> 0 <= ionChannel.value.remaining <= TAU_DEIONIZATION - 1)
    }

    constructor ()
      ensures Valid() && debris == 0.0 && ionChannel == None
    {
      debris := 0.0;
      ionChannel := None;
    }

    /**
     * update: the same debris law as the main kernel, this variant's
     * channel countdown, both mirrored into the record.
     */
    method Update(state: ProfState)
      requires Valid()
      modifies this`debris, this`ionChannel
      modifies state`dielectricTemperature, state`debrisConcentration, state`flowRate, state`ionizedChannel
      ensures Valid()
      ensures debris == Diel.DebrisNext(old(debris), 1.0, state.sparkStatus)
      ensures ionChannel == ChannelNext(old(ionChannel), state.sparkStatus)
      ensures state.dielectricTemperature == 293.15
      ensures state.debrisConcentration == debris && state.flowRate == Some(1.0) && state.ionizedChannel == ionChannel
    {
      Diel.DebrisBounds(debris, state.sparkStatus);
      state.dielectricTemperature := 293.15;
      if state.sparkStatus.tag == SPARK && state.sparkStatus.duration == 0 {
        debris := Diel.Min(1.0, debris + 0.001 * 0.1);
        ionChannel := Some(IonChannel(state.sparkStatus.location, TAU_DEIONIZATION));
      }
      if ionChannel.Some? {
        var c := ionChannel.value;
        ionChannel := if c.remaining > 0 then Some(IonChannel(c.location, c.remaining - 1)) else None;
      }
      debris := Diel.Max(0.0, debris * (1.0 - 0.0005 * 1.0));
      state.debrisConcentration, state.flowRate, state.ionizedChannel := debris, Some(1.0), ionChannel;
    }
  }

  /**
   * The environment of this variant: unit time step, a servo interval of
   * 1000 steps, and a step that stops with an error where the ignition
   * module raises.
   */
  class ProfilingEnv {
    const state: ProfState
    const ignition: ProfIgnitionModule
    const material: ProfMaterialModule
    const dielectric: ProfDielectricModule
    /** The peak current remembered on the last control step. */
    var previousTargetCurrent: Option<real>

    ghost predicate Valid()
      reads this, state, ignition, dielectric
    {
      ignition.Valid() && dielectric.Valid() && IsLegalTag(state.sparkStatus.tag)
    }

    constructor ()
      ensures Valid() && fresh(state) && fresh(ignition) && fresh(dielectric)
      ensures state.time == 0 && state.timeSinceServo == 0 && state.sparkStatus == IdleStatus()
      ensures state.workpiecePosition == 0.0 && state.wirePosition == 0.0 && state.targetDelta == 0.0
      ensures !state.isWireBroken && !state.isTargetDistanceReached
      ensures ignition.lambdaCache == map[] && dielectric.debris == 0.0 && dielectric.ionChannel == None
      ensures previousTargetCurrent == None
    {
      state := new ProfState();
      ignition := new ProfIgnitionModule();
      material := new ProfMaterialModule();
      dielectric := new ProfDielectricModule();
      previousTargetCurrent := None;
    }

    /** The start of step: on a control step the action is written and the servo counter restarts. */
    method Command(action: Orch.Action) returns (ctrl: bool)
      modifies state`targetDelta, state`targetVoltage, state`peakCurrent, state`onTime, state`offTime
      modifies state`timeSinceServo
      ensures ctrl == Orch.IsControlStep(old(state.timeSinceServo))
      ensures state.timeSinceServo == if ctrl then 0 else old(state.timeSinceServo)
      ensures SettingsOf(state) == if ctrl then Applied(action) else old(SettingsOf(state))
    {
      ctrl := state.timeSinceServo >= Orch.SERVO_INTERVAL;
      if ctrl {
        state.targetDelta := action.servo;
        state.targetVoltage := Some(action.targetVoltage);
        state.peakCurrent := Some(action.peakCurrent);
        state.onTime := Some(action.onTime);
        state.offTime := Some(action.offTime);
        state.timeSinceServo := 0;
      }
    }

    /** The ignition module's update, which keeps the spark tag legal. */
    method IgnitionPhase(roll: real, location: real) returns (raised: bool)
      requires Valid()
      modifies ignition`lambdaCache, state`sparkStatus, state`voltage, state`current
      ensures Valid()
      ensures var contact := old(state.wirePosition >= state.workpiecePosition);
              var g := Abs(state.workpiecePosition - state.wirePosition);
              var o := ProfTransition(old(ElectricalOf(state)), contact, state.targetVoltage, state.peakCurrent,
                                      IfNotNone(state.onTime, 3.0), IfNotNone(state.offTime, 80.0),
                                      roll < Ig.LambdaFormula(g), location);
              && ElectricalOf(state) == o.Written()
              && raised == o.TypeError?
              && ignition.lambdaCache == LambdaMemoNext(old(ignition.lambdaCache), contact, old(state.sparkStatus.tag), g)
    {
      ghost var e0 := ElectricalOf(state);
      ghost var contact := state.wirePosition >= state.workpiecePosition;
      raised := ignition.Update(state, roll, location);
      ProfTransitionInvariants(e0, contact, state.targetVoltage, state.peakCurrent,
                               IfNotNone(state.onTime, 3.0), IfNotNone(state.offTime, 80.0),
                               roll < Ig.LambdaFormula(Abs(state.workpiecePosition - state.wirePosition)), location);
    }

    /** Material removal, then the dielectric, both driven by the status ignition left. */
    method RemovalPhase()
      requires Valid()
      modifies dielectric`debris, dielectric`ionChannel, state`workpiecePosition
      modifies state`dielectricTemperature, state`debrisConcentration, state`flowRate, state`ionizedChannel
      ensures Valid()
      ensures state.workpiecePosition == old(state.workpiecePosition) + Removal(state.sparkStatus)
      ensures DielectricOf(dielectric, state) ==
              DielectricNext(old(dielectric.debris), old(dielectric.ionChannel), state.sparkStatus)
    {
      material.Update(state);
      dielectric.Update(state);
    }

    /** Ignition, then (unless it raised) material removal and the dielectric. */
    method Physics(roll: real, location: real) returns (raised: bool)
      requires Valid()
      modifies ignition`lambdaCache, state`sparkStatus, state`voltage, state`current
      modifies dielectric`debris, dielectric`ionChannel, state`workpiecePosition
      modifies state`dielectricTemperature, state`debrisConcentration, state`flowRate, state`ionizedChannel
      ensures Valid()
      ensures var contact := old(state.wirePosition >= state.workpiecePosition);
              var g := Abs(old(state.workpiecePosition) - state.wirePosition);
              var o := ProfTransition(old(ElectricalOf(state)), contact, state.targetVoltage, state.peakCurrent,
                                      IfNotNone(state.onTime, 3.0), IfNotNone(state.offTime, 80.0),
                                      roll < Ig.LambdaFormula(g), location);
              && ElectricalOf(state) == o.Written()
              && raised == o.TypeError?
              && ignition.lambdaCache == LambdaMemoNext(old(ignition.lambdaCache), contact, old(state.sparkStatus.tag), g)
      ensures state.workpiecePosition == old(state.workpiecePosition) + if raised then 0.0 else Removal(state.sparkStatus)
      ensures DielectricOf(dielectric, state) ==
              if raised then old(DielectricOf(dielectric, state))
              else DielectricNext(old(dielectric.debris), old(dielectric.ionChannel), state.sparkStatus)
      ensures ProgressOf(state) == old(ProgressOf(state))
    {
      raised := IgnitionPhase(roll, location);
      if !raised {
        RemovalPhase();
      }
    }

    /** The start of step: commands on a control step, then the physics. */
    method Begin(action: Orch.Action, roll: real, location: real) returns (ctrl: bool, raised: bool)
      requires Valid()
      modifies state`targetDelta, state`targetVoltage, state`peakCurrent, state`onTime, state`offTime
      modifies state`timeSinceServo
      modifies ignition`lambdaCache, state`sparkStatus, state`voltage, state`current
      modifies dielectric`debris, dielectric`ionChannel, state`workpiecePosition
      modifies state`dielectricTemperature, state`debrisConcentration, state`flowRate, state`ionizedChannel
      ensures Valid()
      ensures ctrl == Orch.IsControlStep(old(state.timeSinceServo))
      ensures state.timeSinceServo == if ctrl then 0 else old(state.timeSinceServo)
      ensures SettingsOf(state) == if ctrl then Applied(action) else old(SettingsOf(state))
      ensures var contact := old(state.wirePosition >= state.workpiecePosition);
              var g := Abs(old(state.workpiecePosition) - state.wirePosition);
              var o := ProfTransition(old(ElectricalOf(state)), contact, state.targetVoltage, state.peakCurrent,
                                      IfNotNone(state.onTime, 3.0), IfNotNone(state.offTime, 80.0),
                                      roll < Ig.LambdaFormula(g), location);
              && ElectricalOf(state) == o.Written()
              && raised == o.TypeError?
              && ignition.lambdaCache == LambdaMemoNext(old(ignition.lambdaCache), contact, old(state.sparkStatus.tag), g)
      ensures state.workpiecePosition == old(state.workpiecePosition) + if raised then 0.0 else Removal(state.sparkStatus)
      ensures DielectricOf(dielectric, state) ==
              if raised then old(DielectricOf(dielectric, state))
              else DielectricNext(old(dielectric.debris), old(dielectric.ionChannel), state.sparkStatus)
      ensures ProgressOf(state) == old(ProgressOf(state))
    {
      ctrl := Command(action);
      raised := Physics(roll, location);
    }

    /** The time bookkeeping of a step that did not stop at a broken wire. */
    method Bookkeeping()
      modifies state`time, state`timeSinceServo, state`timeSinceOpenVoltage
      modifies state`timeSinceSparkIgnition, state`timeSinceSparkEnd
      ensures state.time == old(state.time) + Orch.DT
      ensures state.timeSinceServo == old(state.timeSinceServo) + Orch.DT
      ensures state.timeSinceOpenVoltage == old(state.timeSinceOpenVoltage) + Orch.DT
      ensures Orch.Clocks(state.timeSinceSparkIgnition, state.timeSinceSparkEnd) ==
              Orch.ClockStep(Orch.Clocks(old(state.timeSinceSparkIgnition), old(state.timeSinceSparkEnd)),
                             state.sparkStatus.tag)
    {
      state.time := state.time + Orch.DT;
      state.timeSinceServo := state.timeSinceServo + Orch.DT;
      state.timeSinceOpenVoltage := state.timeSinceOpenVoltage + Orch.DT;
      if state.sparkStatus.tag == SPARK {
        state.timeSinceSparkIgnition := state.timeSinceSparkIgnition + Orch.DT;
        state.timeSinceSparkEnd := 0;
      } else {
        state.timeSinceSparkEnd := state.timeSinceSparkEnd + Orch.DT;
        state.timeSinceSparkIgnition := 0;
      }
    }

    /** _check_termination: the wire past the workpiece height, then the workpiece at the target delta. */
    method CheckTermination() returns (terminated: bool)
      modifies state`isWireBroken, state`isTargetDistanceReached
      ensures var v := ProfVerdict(state.wirePosition, state.workpiecePosition, state.targetDelta);
              && terminated == (v != Orch.Running)
              && state.isWireBroken == (old(state.isWireBroken) || v == Orch.Broken)
              && state.isTargetDistanceReached == (old(state.isTargetDistanceReached) || v == Orch.Reached)
    {
      if state.wirePosition > WORKPIECE_HEIGHT {
        state.isWireBroken := true;
        return true;
      }
      if state.workpiecePosition >= state.targetDelta {
        state.isTargetDistanceReached := true;
        return true;
      }
      return false;
    }

    /**
     * What follows the physics when the wire is intact: the time
     * bookkeeping, the remembered peak current on a control step, then
     * _check_termination.
     */
    method Finish(ctrl: bool) returns (terminated: bool)
      modifies state`time, state`timeSinceServo, state`timeSinceOpenVoltage
      modifies state`timeSinceSparkIgnition, state`timeSinceSparkEnd
      modifies state`isWireBroken, state`isTargetDistanceReached, this`previousTargetCurrent
      ensures state.time == old(state.time) + Orch.DT
      ensures state.timeSinceServo == old(state.timeSinceServo) + Orch.DT
      ensures state.timeSinceOpenVoltage == old(state.timeSinceOpenVoltage) + Orch.DT
      ensures Orch.Clocks(state.timeSinceSparkIgnition, state.timeSinceSparkEnd) ==
              Orch.ClockStep(Orch.Clocks(old(state.timeSinceSparkIgnition), old(state.timeSinceSparkEnd)),
                             state.sparkStatus.tag)
      ensures previousTargetCurrent == if ctrl then state.peakCurrent else old(previousTargetCurrent)
      ensures var v := ProfVerdict(state.wirePosition, state.workpiecePosition, state.targetDelta);
              && terminated == (v != Orch.Running)
              && state.isWireBroken == (old(state.isWireBroken) || v == Orch.Broken)
              && state.isTargetDistanceReached == (old(state.isTargetDistanceReached) || v == Orch.Reached)
      ensures SettingsOf(state) == old(SettingsOf(state)) && ElectricalOf(state) == old(ElectricalOf(state))
      ensures state.workpiecePosition == old(state.workpiecePosition) && state.wirePosition == old(state.wirePosition)
    {
      Bookkeeping();
      if ctrl {
        previousTargetCurrent := state.peakCurrent;
      }
      terminated := CheckTermination();
    }

    /**
     * step: commands on a control step, ignition, material and dielectric
     * (an unset target voltage makes the ignition raise, which ends the step
     * with the record partly written), an early stop on a broken wire, then
     * clocks and termination. The observation is always None and the reward 0.
     */
    method Step(action: Orch.Action, roll: real, location: real) returns (r: Result<Orch.StepResult, string>)
      requires Valid()
      modifies state, ignition, dielectric, this`previousTargetCurrent
      ensures Valid()
      ensures SettingsOf(state) == if Orch.IsControlStep(old(state.timeSinceServo)) then Applied(action)
                                   else old(SettingsOf(state))
      ensures var contact := old(state.wirePosition >= state.workpiecePosition);
              var g := Abs(old(state.workpiecePosition) - state.wirePosition);
              var o := ProfTransition(old(ElectricalOf(state)), contact, state.targetVoltage, state.peakCurrent,
                                      IfNotNone(state.onTime, 3.0), IfNotNone(state.offTime, 80.0),
                                      roll < Ig.LambdaFormula(g), location);
              && ElectricalOf(state) == o.Written()
              && (r.Err? <==> o.TypeError?)
              && ignition.lambdaCache == LambdaMemoNext(old(ignition.lambdaCache), contact, old(state.sparkStatus.tag), g)
      ensures state.wirePosition == old(state.wirePosition)
      ensures r.Err? || old(state.isWireBroken) ==>
                && state.timeSinceServo == (if Orch.IsControlStep(old(state.timeSinceServo)) then 0
                                            else old(state.timeSinceServo))
                && ProgressOf(state) == old(ProgressOf(state))
                && previousTargetCurrent == old(previousTargetCurrent)
      ensures r.Err? ==>
                && state.workpiecePosition == old(state.workpiecePosition)
                && DielectricOf(dielectric, state) == old(DielectricOf(dielectric, state))
      ensures r.Ok? ==>
                && state.workpiecePosition == old(state.workpiecePosition) + Removal(state.sparkStatus)
                && DielectricOf(dielectric, state) ==
                   DielectricNext(old(dielectric.debris), old(dielectric.ionChannel), state.sparkStatus)
      ensures r.Ok? && old(state.isWireBroken) ==> r.value == Orch.StepResult(None, 0.0, true, false, Orch.BrokenInfo)
      ensures r.Ok? && !old(state.isWireBroken) ==>
                var ctrl := Orch.IsControlStep(old(state.timeSinceServo));
                var v := ProfVerdict(state.wirePosition, state.workpiecePosition, state.targetDelta);
                && state.time == old(state.time) + Orch.DT
                && state.timeSinceServo == Orch.CounterNext(old(state.timeSinceServo))
                && state.timeSinceOpenVoltage == old(state.timeSinceOpenVoltage) + Orch.DT
                && previousTargetCurrent == (if ctrl then state.peakCurrent else old(previousTargetCurrent))
                && Orch.Clocks(state.timeSinceSparkIgnition, state.timeSinceSparkEnd) ==
                   Orch.ClockStep(Orch.Clocks(old(state.timeSinceSparkIgnition), old(state.timeSinceSparkEnd)),
                                  state.sparkStatus.tag)
                && state.isWireBroken == (v == Orch.Broken)
                && state.isTargetDistanceReached == (old(state.isTargetDistanceReached) || v == Orch.Reached)
                && r.value == Orch.StepResult(None, 0.0, v != Orch.Running, false,
                                              Orch.StepInfo(state.isWireBroken, state.isTargetDistanceReached,
                                                            state.sparkStatus.tag, state.time, ctrl))
    {
      var ctrl, raised := Begin(action, roll, location);
      if raised {
        return Err("TypeError");
      }
      if state.isWireBroken {
        return Ok(Orch.StepResult(None, 0.0, true, false, Orch.BrokenInfo));
      }
      var terminated := Finish(ctrl);
      r := Ok(Orch.StepResult(None, 0.0, terminated, false,
                              Orch.StepInfo(state.isWireBroken, state.isTargetDistanceReached,
                                            state.sparkStatus.tag, state.time, ctrl)));
    }
  }
}
