/**
 * The dielectric of src/wedm/modules/dielectric.py: a debris concentration
 * that jumps on every fresh spark and decays by flushing, and an ionised
 * channel that lives for a fixed number of microseconds after a spark.
 */
module Dielectric {
  import opened Wrappers
  import opened EdmState

  const BETA: real := 0.001
  const GAMMA: real := 0.0005
  const TAU_DEION: int := 6
  const CRATER_VOLUME: real := 0.1
  const DIELECTRIC_TEMPERATURE: real := 293.15
  const FLOW_RATE: real := 1.0

  function Min(a: real, b: real): real { if a <= b then a else b }

  function Max(a: real, b: real): real { if a >= b then a else b }

  /** Debris after one update: capped jump on a fresh spark, then flushing decay, floored at 0. */
  function DebrisNext(debris: real, flowRate: real, status: SparkStatus): real {
    var jumped := if IsFreshSpark(status) then Min(1.0, debris + BETA * CRATER_VOLUME) else debris;
    Max(0.0, jumped * (1.0 - GAMMA * flowRate))
  }

  /**
   * With the module's flow rate the concentration stays in [0, 1]; without a
   * fresh spark it never grows, and a positive concentration strictly decays.
   */
  lemma DebrisBounds(debris: real, status: SparkStatus)
    requires 0.0 <= debris <= 1.0
    ensures 0.0 <= DebrisNext(debris, FLOW_RATE, status) <= 1.0
    ensures !IsFreshSpark(status) ==> DebrisNext(debris, FLOW_RATE, status) <= debris
    ensures !IsFreshSpark(status) && debris > 0.0 ==> DebrisNext(debris, FLOW_RATE, status) < debris
    ensures IsFreshSpark(status) ==>
              DebrisNext(debris, FLOW_RATE, status) == Min(1.0, debris + BETA * CRATER_VOLUME) * 0.9995
  {
  }

  /** The ionised channel after one update: born on a fresh spark, then counted down. */
  function ChannelNext(channel: Option<IonChannel>, status: SparkStatus): Option<IonChannel> {
    var born := if IsFreshSpark(status) then Some(IonChannel(status.location, TAU_DEION)) else channel;
    match born
    case None => None
    case Some(c) => if c.remaining > 1 then Some(IonChannel(c.location, c.remaining - 1)) else None
  }

  /** The channel after one update per status, in order. */
  function ChannelAfter(channel: Option<IonChannel>, statuses: seq<SparkStatus>): Option<IonChannel>
    decreases |statuses|
  {
    if statuses == [] then channel
    else ChannelAfter(ChannelNext(channel, statuses[0]), statuses[1..])
  }

  /** A live channel with k left and no fresh spark meanwhile counts down one per update. */
  lemma {:induction false} ChannelCountdown(location: Option<real>, k: int, statuses: seq<SparkStatus>)
    requires 1 <= k
    requires |statuses| <= k
    requires forall i :: 0 <= i < |statuses| ==> !IsFreshSpark(statuses[i])
    ensures ChannelAfter(Some(IonChannel(location, k)), statuses) ==
            if |statuses| == k then None else Some(IonChannel(location, k - |statuses|))
    decreases |statuses|
  {
    if statuses != [] {
      if k > 1 {
        ChannelCountdown(location, k - 1, statuses[1..]);
      } else {
        assert statuses[1..] == [];
      }
    }
  }

  /**
   * De-ionisation time: after the update that sees a fresh spark at y the
   * channel is (y, 5); with no new spark it stays alive at y through the next
   * four updates and is gone after the fifth, whatever it held before.
   */
  lemma ChannelLifetime(channel: Option<IonChannel>, spark: SparkStatus, statuses: seq<SparkStatus>)
    requires IsFreshSpark(spark)
    requires |statuses| <= TAU_DEION - 1
    requires forall i :: 0 <= i < |statuses| ==> !IsFreshSpark(statuses[i])
    ensures ChannelNext(channel, spark) == Some(IonChannel(spark.location, TAU_DEION - 1))
    ensures var c := ChannelAfter(ChannelNext(channel, spark), statuses);
            if |statuses| == TAU_DEION - 1 then c.None?
            else c == Some(IonChannel(spark.location, TAU_DEION - 1 - |statuses|))
  {
    ChannelCountdown(spark.location, TAU_DEION - 1, statuses);
  }

  class DielectricModule {
    var tempK: real
    var debris: real
    var flowRate: real
    var ionChannel: Option<IonChannel>

    ghost predicate Valid()
      reads this
    {
      && tempK == DIELECTRIC_TEMPERATURE
      && flowRate == FLOW_RATE
      && 0.0 <= debris <= 1.0
      && (ionChannel.Some? ==> 1 <= ionChannel.value.remaining <= TAU_DEION - 1)
    }

    constructor ()
      ensures Valid()
      ensures debris == 0.0 && ionChannel == None
    {
      tempK := DIELECTRIC_TEMPERATURE;
      debris := 0.0;
      flowRate := FLOW_RATE;
      ionChannel := None;
    }

    /** update: debris and channel evolve, then are mirrored into the shared record. */
    method Update(state: EDMState)
      requires Valid()
      modifies this`debris, this`ionChannel
      modifies state`dielectricTemperature, state`debrisConcentration, state`flowRate, state`ionizedChannel
      ensures Valid()
      ensures debris == DebrisNext(old(debris), flowRate, state.sparkStatus)
      ensures ionChannel == ChannelNext(old(ionChannel), state.sparkStatus)
      ensures state.dielectricTemperature == DIELECTRIC_TEMPERATURE
      ensures state.debrisConcentration == debris
      ensures state.flowRate == Some(FLOW_RATE)
      ensures state.ionizedChannel == ionChannel
    {
      DebrisBounds(debris, state.sparkStatus);
      state.dielectricTemperature := tempK;
      if state.sparkStatus.tag == SPARK && state.sparkStatus.duration == 0 {
        debris := Min(1.0, debris + BETA * CRATER_VOLUME);
        ionChannel := Some(IonChannel(state.sparkStatus.location, TAU_DEION));
      }
      if ionChannel.Some? {
        var c := ionChannel.value;
        ionChannel := if c.remaining > 1 then Some(IonChannel(c.location, c.remaining - 1)) else None;
      }
      debris := debris * (1.0 - GAMMA * flowRate);
      debris := Max(0.0, debris);
      state.debrisConcentration := debris;
      state.flowRate := Some(flowRate);
      state.ionizedChannel := ionChannel;
    }
  }
}
