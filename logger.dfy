/**
 * The sampling logger of src/wedm/utils/logger.py: configuration validation,
 * the per-call sampling rule (every step, control steps only, or every n-th
 * call), the appending of one sample per configured signal, `get_data` and
 * `reset`.
 */
module Logger {
  import opened Wrappers
  import opened Common
  import opened EdmState

  /** The `filepath` entry of a numpy backend, which need not be a string. */
  datatype PathValue = StrPath(path: string) | NonStrPath

  /**
   * A `log_frequency` dictionary as given: an optional "type" and an optional
   * "value". Both absent stands for the empty (falsy) dictionary.
   */
  datatype RawFrequency = RawFrequency(kind: Option<string>, value: Option<int>)

  /** A `backend` dictionary as given; all entries absent is the empty dictionary. */
  datatype RawBackend = RawBackend(kind: Option<string>, filepath: Option<PathValue>, compress: Option<bool>)

  /** A `LoggerConfig` as given; an absent or empty entry is None. */
  datatype RawConfig = RawConfig(signals: Option<seq<string>>, frequency: Option<RawFrequency>, backend: Option<RawBackend>)

  /** A validated backend; `compress` has received its default. */
  datatype Backend = Memory | Numpy(filepath: string, compress: bool)

  /** A validated configuration. The frequency is kept as given, as the source does. */
  datatype Config = Config(signals: seq<string>, frequency: RawFrequency, backend: Backend)

  datatype ConfigError = ValueError(message: string) | NotImplementedError(message: string) | KeyError(key: string)

  /** Errors `collect` can raise on a configuration that validation let through. */
  datatype CollectError = MissingKey(key: string) | ZeroDivisionError

  predicate EmptyFrequency(f: RawFrequency) {
    f.kind.None? && f.value.None?
  }

  predicate EmptyBackend(b: RawBackend) {
    b.kind.None? && b.filepath.None? && b.compress.None?
  }

  /** The two checks _validate_config makes before it looks at the backend. */
  predicate SignalsAndFrequencyGiven(raw: RawConfig) {
    && raw.signals.Some? && raw.signals.value != []
    && raw.frequency.Some? && !EmptyFrequency(raw.frequency.value)
  }

  /** _validate_config. */
  function Validate(raw: RawConfig): (r: Result<Config, ConfigError>)
    ensures r.Ok? <==>
              && raw.signals.Some? && raw.signals.value != []
              && raw.frequency.Some? && !EmptyFrequency(raw.frequency.value)
              && raw.backend.Some? && (raw.backend.value.kind == Some("memory") || raw.backend.value.kind == Some("numpy"))
              && (raw.backend.value.kind == Some("numpy") ==> raw.backend.value.filepath.Some? && raw.backend.value.filepath.value.StrPath?)
    ensures r.Ok? ==> r.value.signals == raw.signals.value && r.value.frequency == raw.frequency.value
    ensures r.Ok? ==> (r.value.backend.Memory? <==> raw.backend.value.kind == Some("memory"))
    ensures r.Ok? && r.value.backend.Numpy? ==>
              r.value.backend.filepath == raw.backend.value.filepath.value.path
              && r.value.backend.compress == raw.backend.value.compress.GetOr(false)
    ensures r.Err? && (raw.signals.None? || raw.signals.value == []) ==> r.error.ValueError?
    ensures r.Err? && raw.backend.Some? && !EmptyBackend(raw.backend.value) && raw.backend.value.kind.None? ==>
              r.error.KeyError? || r.error.ValueError?
    ensures raw.signals.Some? && raw.signals.value != [] && (raw.frequency.None? || EmptyFrequency(raw.frequency.value)) ==>
              r.Err? && r.error.ValueError?
    ensures SignalsAndFrequencyGiven(raw) && (raw.backend.None? || EmptyBackend(raw.backend.value)) ==>
              r.Err? && r.error.ValueError?
    ensures SignalsAndFrequencyGiven(raw) && raw.backend.Some? && !EmptyBackend(raw.backend.value) ==>
              match raw.backend.value.kind
              case None => r == Err(KeyError("type"))
              case Some(kind) =>
                && (kind != "memory" && kind != "numpy" ==> r.Err? && r.error.NotImplementedError?)
                && (kind == "numpy" && (raw.backend.value.filepath.None? || raw.backend.value.filepath.value.NonStrPath?)
                    ==> r.Err? && r.error.ValueError?)
  {
    if raw.signals.None? || raw.signals.value == [] then
      Err(ValueError("LoggerConfig: 'signals_to_log' must be provided and non-empty."))
    else if raw.frequency.None? || EmptyFrequency(raw.frequency.value) then
      Err(ValueError("LoggerConfig: 'log_frequency' must be provided."))
    else if raw.backend.None? || EmptyBackend(raw.backend.value) then
      Err(ValueError("LoggerConfig: 'backend' must be provided."))
    else
      var b := raw.backend.value;
      match b.kind
      case None => Err(KeyError("type"))
      case Some(kind) =>
        if kind != "memory" && kind != "numpy" then
          Err(NotImplementedError("Backend type '" + kind + "' is not yet implemented."))
        else if kind == "memory" then
          Ok(Config(raw.signals.value, raw.frequency.value, Memory))
        else if b.filepath.None? then
          Err(ValueError("LoggerConfig: 'filepath' must be provided for 'numpy' backend."))
        else if b.filepath.value.NonStrPath? then
          Err(ValueError("LoggerConfig: 'filepath' for 'numpy' backend must be a string."))
        else
          Ok(Config(raw.signals.value, raw.frequency.value, Numpy(b.filepath.value.path, b.compress.GetOr(false))))
  }

  /** The configuration dictionary as it stands after validation filled in `compress`. */
  function AsRaw(c: Config): RawConfig {
    var backend := match c.backend
      case Memory => RawBackend(Some("memory"), None, None)
      case Numpy(p, z) => RawBackend(Some("numpy"), Some(StrPath(p)), Some(z));
    RawConfig(Some(c.signals), Some(c.frequency), Some(backend))
  }

  /**
   * Validation normalises: the dictionary it leaves behind (with `compress`
   * defaulted in place) validates again to the same configuration.
   */
  lemma ValidateIsIdempotent(raw: RawConfig)
    requires Validate(raw).Ok?
    ensures Validate(AsRaw(Validate(raw).value)) == Validate(raw)
  {
  }

  /**
   * The sampling rule, given the call counter after its increment and the
   * truthiness of info's "control_step" entry (None when info is None or
   * lacks the key). Python's `%` and Dafny's agree on whether the remainder
   * is zero, for either sign of the interval.
   */
  function ShouldLog(f: RawFrequency, counter: int, controlStep: Option<bool>): (r: Result<bool, CollectError>)
    ensures f.kind == Some("every_step") ==> r == Ok(true)
    ensures f.kind == Some("control_step") ==> r == Ok(controlStep == Some(true))
    ensures f.kind == Some("interval") && f.value.Some? && f.value.value != 0 ==>
              r == Ok(counter % f.value.value == 0)
    ensures r.Err? <==> f.kind.None? || (f.kind == Some("interval") && (f.value.None? || f.value.value == 0))
    ensures r.Ok? && f.kind.value != "every_step" && f.kind.value != "control_step" && f.kind.value != "interval" ==> !r.value
  {
    match f.kind
    case None => Err(MissingKey("type"))
    case Some(kind) =>
      if kind == "every_step" then Ok(true)
      else if kind == "control_step" then Ok(controlStep.Some? && controlStep.value)
      else if kind == "interval" then
        match f.value
        case None => Err(MissingKey("value"))
        case Some(n) => if n == 0 then Err(ZeroDivisionError) else Ok(counter % n == 0)
      else Ok(false)
  }

  /** How many of the counter values 1..k an interval of n logs on. */
  function IntervalHits(k: nat, n: int): nat
    requires n != 0
  {
    if k == 0 then 0 else IntervalHits(k - 1, n) + (if k % n == 0 then 1 else 0)
  }

  /**
   * With an interval of n, the first k calls after a reset log exactly
   * k / |n| times: every |n|-th call.
   */
  lemma {:induction false} IntervalHitsCount(k: nat, n: int)
    requires n != 0
    ensures IntervalHits(k, n) == k / (if n < 0 then -n else n)
  {
    if k > 0 {
      IntervalHitsCount(k - 1, n);
      SameRemainder(k, n);
      DivStep(k, if n < 0 then -n else n);
    }
  }

  /** Moving from k - 1 to k, the quotient by m grows exactly when m divides k. */
  lemma DivStep(k: int, m: int)
    requires m > 0
    ensures k / m == (k - 1) / m + (if k % m == 0 then 1 else 0)
  {
    var q, r := (k - 1) / m, (k - 1) % m;
    DivModUnique(k - 1, m, q, r);
    if r == m - 1 {
      assert (q + 1) * m == q * m + m;
      DivModUnique(k, m, q + 1, 0);
    } else {
      DivModUnique(k, m, q, r + 1);
    }
  }

  /** Euclidean division: quotient and remainder are the unique pair. */
  lemma DivModUnique(k: int, m: int, q: int, r: int)
    requires m > 0 && 0 <= r < m
    requires k == q * m + r
    ensures k / m == q && k % m == r
  {
    var q', r' := k / m, k % m;
    assert k == q' * m + r' && 0 <= r' < m;
    MulStep(q, q', m);
    MulStep(q', q, m);
  }

  /** A larger factor gives a product at least one m larger. */
  lemma MulStep(a: int, b: int, m: int)
    requires m > 0
    ensures a < b ==> a * m + m <= b * m
  {
    if a < b {
      MulNonNegative(b - a - 1, m);
      assert b * m == a * m + (b - a) * m;
      assert (b - a) * m == (b - a - 1) * m + m;
    }
  }

  lemma MulNonNegative(x: int, m: int)
    requires x >= 0 && m > 0
    ensures x * m >= 0
  {
  }

  /** The remainder by n and by |n| coincide. */
  lemma SameRemainder(k: int, n: int)
    requires n != 0
    ensures k % n == k % (if n < 0 then -n else n)
  {
    if n < 0 {
      var q, r := k / n, k % n;
      assert k == q * n + r && 0 <= r < -n;
      assert k == (-q) * (-n) + r;
      DivModUnique(k, -n, -q, r);
    }
  }

  /** A logged value: `getattr(state, name, None)`, arrays as copies. */
  datatype Datum =
    | NoneD
    | IntD(i: int)
    | RealD(r: real)
    | BoolD(b: bool)
    | ArrayD(values: seq<real>)
    | StatusD(status: SparkStatus)
    | ChannelD(channel: IonChannel)
    | StrD(s: string)

  function OptReal(x: Option<real>): Datum {
    match x
    case None => NoneD
    case Some(v) => RealD(v)
  }

  /** The record's attributes a signal name can refer to. */
  datatype Attribute =
    | Time
    | TimeSinceServo
    | TimeSinceOpenVoltage
    | TimeSinceSparkIgnition
    | TimeSinceSparkEnd
    | Voltage
    | Current
    | TargetVoltage
    | PeakCurrent
    | OffTime
    | OnTime
    | WorkpiecePosition
    | WirePosition
    | WireVelocity
    | WireUnwindingVelocity
    | WireTemperature
    | TimeInCriticalTemp
    | WireAverageTemperature
    | SparkStatusAttr
    | DielectricConductivity
    | DielectricTemperature
    | DebrisConcentration
    | DielectricFlowRate
    | IonizedChannel
    | TargetDelta
    | TargetPosition
    | IsWireBroken
    | IsWireColliding
    | IsTargetDistanceReached
    | IsShortCircuit
    | FlowRate
    | CurrentMode
    | DebrisDensity

  /** The attribute a name denotes, if the record has one of that name. */
  function AttributeNamed(name: string): Option<Attribute> {
    if name == "is_short_circuit" then Some(IsShortCircuit)
    else if name == "flow_rate" then Some(FlowRate)
    else if name == "current_mode" then Some(CurrentMode)
    else if name == "debris_density" then Some(DebrisDensity)
    else if name == "time" then Some(Time)
    else if name == "time_since_servo" then Some(TimeSinceServo)
    else if name == "time_since_open_voltage" then Some(TimeSinceOpenVoltage)
    else if name == "time_since_spark_ignition" then Some(TimeSinceSparkIgnition)
    else if name == "time_since_spark_end" then Some(TimeSinceSparkEnd)
    else if name == "voltage" then Some(Voltage)
    else if name == "current" then Some(Current)
    else if name == "target_voltage" then Some(TargetVoltage)
    else if name == "peak_current" then Some(PeakCurrent)
    else if name == "OFF_time" then Some(OffTime)
    else if name == "ON_time" then Some(OnTime)
    else if name == "workpiece_position" then Some(WorkpiecePosition)
    else if name == "wire_position" then Some(WirePosition)
    else if name == "wire_velocity" then Some(WireVelocity)
    else if name == "wire_unwinding_velocity" then Some(WireUnwindingVelocity)
    else if name == "wire_temperature" then Some(WireTemperature)
    else if name == "time_in_critical_temp" then Some(TimeInCriticalTemp)
    else if name == "wire_average_temperature" then Some(WireAverageTemperature)
    else if name == "spark_status" then Some(SparkStatusAttr)
    else if name == "dielectric_conductivity" then Some(DielectricConductivity)
    else if name == "dielectric_temperature" then Some(DielectricTemperature)
    else if name == "debris_concentration" then Some(DebrisConcentration)
    else if name == "dielectric_flow_rate" then Some(DielectricFlowRate)
    else if name == "ionized_channel" then Some(IonizedChannel)
    else if name == "target_delta" then Some(TargetDelta)
    else if name == "target_position" then Some(TargetPosition)
    else if name == "is_wire_broken" then Some(IsWireBroken)
    else if name == "is_wire_colliding" then Some(IsWireColliding)
    else if name == "is_target_distance_reached" then Some(IsTargetDistanceReached)
    else None
  }

  /** `getattr(state, name, None)` once the name is resolved; arrays are copied. */
  function Read(state: EDMState, attribute: Option<Attribute>): Datum
    reads state, state.wireTemperature
  {
    match attribute
    case None => NoneD
    case Some(Time) => IntD(state.time)
    case Some(TimeSinceServo) => IntD(state.timeSinceServo)
    case Some(TimeSinceOpenVoltage) => IntD(state.timeSinceOpenVoltage)
    case Some(TimeSinceSparkIgnition) => IntD(state.timeSinceSparkIgnition)
    case Some(TimeSinceSparkEnd) => IntD(state.timeSinceSparkEnd)
    case Some(Voltage) => OptReal(state.voltage)
    case Some(Current) => OptReal(state.current)
    case Some(TargetVoltage) => OptReal(state.targetVoltage)
    case Some(PeakCurrent) => OptReal(state.peakCurrent)
    case Some(OffTime) => OptReal(state.offTime)
    case Some(OnTime) => OptReal(state.onTime)
    case Some(WorkpiecePosition) => RealD(state.workpiecePosition)
    case Some(WirePosition) => RealD(state.wirePosition)
    case Some(WireVelocity) => RealD(state.wireVelocity)
    case Some(WireUnwindingVelocity) => RealD(state.wireUnwindingVelocity)
    case Some(WireTemperature) => ArrayD(state.wireTemperature[..])
    case Some(TimeInCriticalTemp) => IntD(state.timeInCriticalTemp)
    case Some(WireAverageTemperature) => OptReal(state.wireAverageTemperature)
    case Some(SparkStatusAttr) => StatusD(state.sparkStatus)
    case Some(DielectricConductivity) => RealD(state.dielectricConductivity)
    case Some(DielectricTemperature) => RealD(state.dielectricTemperature)
    case Some(DebrisConcentration) => RealD(state.debrisConcentration)
    case Some(DielectricFlowRate) => RealD(state.dielectricFlowRate)
    case Some(IonizedChannel) => if state.ionizedChannel.Some? then ChannelD(state.ionizedChannel.value) else NoneD
    case Some(TargetDelta) => RealD(state.targetDelta)
    case Some(TargetPosition) => RealD(state.targetPosition)
    case Some(IsWireBroken) => BoolD(state.isWireBroken)
    case Some(IsWireColliding) => BoolD(state.isWireColliding)
    case Some(IsTargetDistanceReached) => BoolD(state.isTargetDistanceReached)
    case Some(IsShortCircuit) => BoolD(state.isShortCircuit)
    case Some(FlowRate) => OptReal(state.flowRate)
    case Some(CurrentMode) => if state.currentMode.Some? then StrD(state.currentMode.value) else NoneD
    case Some(DebrisDensity) => OptReal(state.debrisDensity)
  }

  /**
   * The attributes the modules set on the record at run time are read like
   * the declared ones: the value the record holds, None while it holds none.
   */
  lemma DynamicAttributesRead(state: EDMState)
    ensures Read(state, AttributeNamed("current_mode"))
            == (if state.currentMode.Some? then StrD(state.currentMode.value) else NoneD)
    ensures Read(state, AttributeNamed("debris_density"))
            == (if state.debrisDensity.Some? then RealD(state.debrisDensity.value) else NoneD)
    ensures Read(state, AttributeNamed("flow_rate"))
            == (if state.flowRate.Some? then RealD(state.flowRate.value) else NoneD)
    ensures Read(state, AttributeNamed("is_short_circuit")) == BoolD(state.isShortCircuit)
  {
  }

  /** What the accessor prepared for a name yields on the current record. */
  function Sample(state: EDMState, accessors: map<string, Option<Attribute>>, name: string): Datum
    reads state, state.wireTemperature
  {
    if name in accessors then Read(state, accessors[name]) else NoneD
  }

  /** `log_data[name]` of a defaultdict: the empty list for a key never appended to. */
  function Get(data: map<string, seq<Datum>>, name: string): seq<Datum> {
    if name in data then data[name] else []
  }

  /** `log_data[name].append(v)` on a defaultdict. */
  function Append(data: map<string, seq<Datum>>, name: string, v: Datum): map<string, seq<Datum>> {
    data[name := Get(data, name) + [v]]
  }

  /** Occurrences of a name among the configured signals. */
  function Count(names: seq<string>, name: string): nat {
    if names == [] then 0
    else Count(names[..|names| - 1], name) + (if names[|names| - 1] == name then 1 else 0)
  }

  /** The log after appending values[i] to the list of names[i], for each i in order. */
  function Record(data: map<string, seq<Datum>>, names: seq<string>, values: seq<Datum>): map<string, seq<Datum>>
    requires |values| == |names|
  {
    if names == [] then data
    else Append(Record(data, names[..|names| - 1], values[..|values| - 1]), names[|names| - 1], values[|values| - 1])
  }

  /** The values paired with one name, in order. */
  function ValuesFor(names: seq<string>, values: seq<Datum>, name: string): (r: seq<Datum>)
    requires |values| == |names|
    ensures |r| == Count(names, name)
  {
    if names == [] then []
    else ValuesFor(names[..|names| - 1], values[..|values| - 1], name)
         + (if names[|names| - 1] == name then [values[|values| - 1]] else [])
  }

  /** One sample of each name, in order: what a logged call appends. */
  function Samples(state: EDMState, accessors: map<string, Option<Attribute>>, names: seq<string>): (r: seq<Datum>)
    reads state, state.wireTemperature
    ensures |r| == |names|
  {
    if names == [] then []
    else Samples(state, accessors, names[..|names| - 1]) + [Sample(state, accessors, names[|names| - 1])]
  }

  /**
   * Appending works per name: each list grows by exactly the values paired
   * with its name, and the lists that exist afterwards are those that
   * existed before plus one per appended name.
   */
  lemma RecordAppends(data: map<string, seq<Datum>>, names: seq<string>, values: seq<Datum>, name: string)
    requires |values| == |names|
    ensures Get(Record(data, names, values), name) == Get(data, name) + ValuesFor(names, values, name)
    ensures name in Record(data, names, values) <==> name in data || name in names
  {
    RecordValues(data, names, values, name);
    RecordKeys(data, names, values, name);
  }

  lemma {:induction false} RecordValues(data: map<string, seq<Datum>>, names: seq<string>, values: seq<Datum>, name: string)
    requires |values| == |names|
    ensures Get(Record(data, names, values), name) == Get(data, name) + ValuesFor(names, values, name)
    decreases |names|
  {
    if names != [] {
      var init, last, v := names[..|names| - 1], names[|names| - 1], values[|values| - 1];
      var vinit := values[..|values| - 1];
      RecordValues(data, init, vinit, name);
      var before := Record(data, init, vinit);
      assert Record(data, names, values) == before[last := Get(before, last) + [v]];
      if last == name {
        assert ValuesFor(names, values, name) == ValuesFor(init, vinit, name) + [v];
        assert Get(data, name) + ValuesFor(init, vinit, name) + [v] ==
               Get(data, name) + (ValuesFor(init, vinit, name) + [v]);
      } else {
        assert ValuesFor(names, values, name) == ValuesFor(init, vinit, name) + [];
      }
    }
  }

  lemma {:induction false} RecordKeys(data: map<string, seq<Datum>>, names: seq<string>, values: seq<Datum>, name: string)
    requires |values| == |names|
    ensures name in Record(data, names, values) <==> name in data || name in names
    decreases |names|
  {
    if names != [] {
      var init, last, vinit := names[..|names| - 1], names[|names| - 1], values[..|values| - 1];
      RecordKeys(data, init, vinit, name);
      assert name in names <==> name in init || name == last by {
        assert names == init + [last];
      }
    }
  }

  /**
   * In one logged call the state does not change, so each name's new
   * entries are copies of its one current value, as many as the name
   * occurs among the signals.
   */
  lemma {:induction false} SamplesRepeat(state: EDMState, accessors: map<string, Option<Attribute>>, names: seq<string>, name: string)
    ensures ValuesFor(names, Samples(state, accessors, names), name) ==
            Repeat(Sample(state, accessors, name), Count(names, name))
    decreases |names|
  {
    if names != [] {
      var init := names[..|names| - 1];
      SamplesRepeat(state, accessors, init, name);
      assert Samples(state, accessors, names)[..|names| - 1] == Samples(state, accessors, init);
    }
  }

  /**
   * The shape of a log after `calls` logged calls: a list exactly for each
   * configured name (once anything was logged), holding one entry per call
   * per occurrence of the name.
   */
  ghost predicate Shaped(data: map<string, seq<Datum>>, names: seq<string>, calls: nat) {
    && (forall name :: name in data ==> |data[name]| == calls * Count(names, name))
    && (forall name :: name in data <==> calls > 0 && name in names)
  }

  /** One more logged call keeps the shape, with one call more. */
  lemma RecordKeepsShape(data: map<string, seq<Datum>>, names: seq<string>, values: seq<Datum>, calls: nat)
    requires |values| == |names|
    requires Shaped(data, names, calls)
    ensures Shaped(Record(data, names, values), names, calls + 1)
  {
    var after := Record(data, names, values);
    forall name
      ensures |Get(after, name)| == |Get(data, name)| + Count(names, name)
      ensures name in after <==> name in data || name in names
    {
      RecordAppends(data, names, values, name);
    }
    forall name | name in after
      ensures |after[name]| == (calls + 1) * Count(names, name)
    {
      assert |Get(after, name)| == |Get(data, name)| + Count(names, name);
      assert (calls + 1) * Count(names, name) == calls * Count(names, name) + Count(names, name);
      if name !in data {
        assert calls == 0;
      }
    }
  }

  /** get_data's result: the in-memory log, or the file the numpy backend writes to. */
  datatype LoggedData = InMemory(data: map<string, seq<Datum>>) | OnDisk(filepath: string)

  class SimulationLogger {
    const config: Config
    /** The accessor prepared for each configured signal name. */
    const accessors: map<string, Option<Attribute>>
    var logData: map<string, seq<Datum>>
    var stepCounter: nat
    /** How many `collect` calls since the last reset logged. */
    ghost var loggedCalls: nat

    /**
     * Every signal's list holds one entry per logged call per occurrence of
     * its name in the configuration, and the log has a list exactly for the
     * configured names once anything was logged.
     */
    ghost predicate Valid()
      reads this
    {
      && (forall name :: name in config.signals ==> name in accessors)
      && loggedCalls <= stepCounter
      && Shaped(logData, config.signals, loggedCalls)
    }

    constructor (c: Config)
      ensures Valid()
      ensures config == c && logData == map[] && stepCounter == 0 && loggedCalls == 0
      ensures accessors == map name | name in c.signals :: AttributeNamed(name)
    {
      config := c;
      accessors := map name | name in c.signals :: AttributeNamed(name);
      logData := map[];
      stepCounter := 0;
      loggedCalls := 0;
    }

    /** __init__: validation, then an empty log and a zero counter. */
    static method Create(raw: RawConfig) returns (r: Result<SimulationLogger, ConfigError>)
      ensures r.Ok? <==> Validate(raw).Ok?
      ensures r.Err? ==> r.error == Validate(raw).error
      ensures r.Ok? ==> fresh(r.value) && r.value.Valid() && r.value.config == Validate(raw).value
                        && r.value.logData == map[] && r.value.stepCounter == 0
                        && r.value.accessors == map name | name in r.value.config.signals :: AttributeNamed(name)
    {
      var v := Validate(raw);
      match v {
        case Err(e) => r := Err(e);
        case Ok(c) =>
          var logger := new SimulationLogger(c);
          r := Ok(logger);
      }
    }

    /**
     * collect: count the call, decide by the frequency rule, and on a logged
     * call append one sample of every configured signal. A configuration
     * error surfaces here, after the counter moved.
     */
    method Collect(state: EDMState, controlStep: Option<bool>) returns (outcome: Outcome<CollectError>)
      requires Valid()
      modifies this`logData, this`stepCounter, this`loggedCalls
      ensures Valid()
      ensures stepCounter == old(stepCounter) + 1
      ensures match ShouldLog(config.frequency, stepCounter, controlStep)
              case Err(e) => outcome == Fail(e) && logData == old(logData)
              case Ok(b) => outcome == Pass
                            && logData == (if b then Record(old(logData), config.signals, Samples(state, accessors, config.signals)) else old(logData))
                            && loggedCalls == old(loggedCalls) + (if b then 1 else 0)
    {
      stepCounter := stepCounter + 1;
      var decision := ShouldLog(config.frequency, stepCounter, controlStep);
      if decision.Err? {
        return Fail(decision.error);
      }
      outcome := Pass;
      if decision.value {
        LogCall(state);
      }
    }

    /** The loop of a logged call: one sample of each configured signal, in order. */
    method LogCall(state: EDMState)
      requires Valid() && loggedCalls < stepCounter
      modifies this`logData, this`loggedCalls
      ensures Valid()
      ensures logData == Record(old(logData), config.signals, Samples(state, accessors, config.signals))
      ensures loggedCalls == old(loggedCalls) + 1
    {
      RecordKeepsShape(logData, config.signals, Samples(state, accessors, config.signals), loggedCalls);
      LogSignals(state);
      loggedCalls := loggedCalls + 1;
    }

    method LogSignals(state: EDMState)
      requires forall name :: name in config.signals ==> name in accessors
      modifies this`logData
      ensures logData == Record(old(logData), config.signals, Samples(state, accessors, config.signals))
    {
      var i := 0;
      while i < |config.signals|
        invariant 0 <= i <= |config.signals|
        invariant logData == Record(old(logData), config.signals[..i], Samples(state, accessors, config.signals[..i]))
      {
        var name := config.signals[i];
        assert config.signals[..i + 1][..i] == config.signals[..i];
        var value := Read(state, accessors[name]);
        logData := Append(logData, name, value);
        i := i + 1;
      }
      assert config.signals[..i] == config.signals;
    }

    /** With distinct signal names every list has one entry per logged call. */
    lemma UniformLengths()
      requires Valid()
      requires forall i, j :: 0 <= i < j < |config.signals| ==> config.signals[i] != config.signals[j]
      ensures forall name :: name in logData ==> |logData[name]| == loggedCalls
    {
      forall name | name in logData
        ensures Count(config.signals, name) == 1
      {
        CountOfDistinct(config.signals, name);
      }
    }

    /** get_data: the log itself for the memory backend, the file path for numpy. */
    method GetData() returns (r: LoggedData)
      ensures config.backend.Memory? ==> r == InMemory(logData)
      ensures config.backend.Numpy? ==> r == OnDisk(config.backend.filepath)
    {
      match config.backend {
        case Memory => r := InMemory(logData);
        case Numpy(path, _) => r := OnDisk(path);
      }
    }

    /** reset: an empty log and a zero counter; the configuration stays. */
    method Reset()
      requires Valid()
      modifies this`logData, this`stepCounter, this`loggedCalls
      ensures Valid()
      ensures logData == map[] && stepCounter == 0 && loggedCalls == 0
    {
      logData := map[];
      stepCounter := 0;
      loggedCalls := 0;
    }
  }

  /** A name occurring among distinct names occurs once. */
  lemma {:induction false} CountOfDistinct(names: seq<string>, name: string)
    requires forall i, j :: 0 <= i < j < |names| ==> names[i] != names[j]
    ensures Count(names, name) == if name in names then 1 else 0
    decreases |names|
  {
    if names != [] {
      var init := names[..|names| - 1];
      CountOfDistinct(init, name);
      assert names == init + [names[|names| - 1]];
      if name == names[|names| - 1] {
        assert name !in init by {
          forall i | 0 <= i < |init| ensures init[i] != name {
            assert names[i] != names[|names| - 1];
          }
        }
      }
    }
  }
}
