/**
 * The 1-D transient heat model of the travelling wire
 * (src/wedm/modules/wire.py): a segmented temperature field with the spool
 * end pinned (Dirichlet), a zero-gradient far end (Neumann), conduction,
 * temperature-dependent Joule heating, a plasma heat spot at the spark,
 * convection into the dielectric and advection by the unwinding wire.
 */
module Wire {
  import opened Wrappers
  import opened Common
  import opened EdmState

  /** numpy's pi as a double. */
  const PI: real := 3.141592653589793

  // brass material and process constants
  const RHO: real := 8400.0
  const CP: real := 377.0
  const K: real := 120.0
  const RHO_ELEC: real := 0.000000064
  const ALPHA_RHO: real := 0.0039
  const H_CONV: real := 14000.0
  const ETA_PLASMA: real := 0.1
  /** Reference temperature of the resistivity law. */
  const T_REF: real := 293.15
  /** The fixed simulation step, 1 microsecond in seconds. */
  const DT_SIM: real := 0.000001

  /** Constructor arguments, with the environment's workpiece height and wire diameter. */
  datatype WireConfig = WireConfig(
    bufferBottom: real, bufferTop: real, spoolT: real, segmentLength: real,
    workpieceHeight: real, wireDiameter: real)

  /** The constructor's defaults for the environment's 10 mm workpiece and 0.25 mm wire. */
  const DEFAULT_CONFIG: WireConfig := WireConfig(30.0, 20.0, 293.15, 1.0, 10.0, 0.25)

  /** Segment count, work-zone bounds and the derived physical coefficients. */
  datatype Geometry = Geometry(
    nSegments: int, zoneStart: int, zoneEnd: int,
    segmentLength: real, spoolT: real,
    deltaY: real, crossSection: real, surface: real, kCond: real, denominator: real)

  function IntMin(a: int, b: int): int { if a <= b then a else b }

  function IntMax(a: int, b: int): int { if a >= b then a else b }

  /**
   * The constructor's derived quantities: a float division by a zero segment
   * length fails first; a zero heat-capacity denominator (zero diameter) is
   * rejected afterwards.
   */
  function MakeGeometry(c: WireConfig): (r: Result<Geometry, string>)
    ensures c.segmentLength == 0.0 ==> r.Err?
    ensures r.Ok? ==> r.value.nSegments >= 1 && r.value.zoneStart <= r.value.zoneEnd <= r.value.nSegments
    ensures r.Ok? ==> r.value.denominator != 0.0 && r.value.crossSection != 0.0 && r.value.deltaY != 0.0
    ensures r.Ok? ==> r.value.segmentLength == c.segmentLength && r.value.spoolT == c.spoolT
  {
    if c.segmentLength == 0.0 then Err("float division by zero")
    else
      var totalL := c.bufferBottom + c.workpieceHeight + c.bufferTop;
      var n := IntMax(1, Trunc(totalL / c.segmentLength));
      var zs0 := (c.bufferBottom / c.segmentLength).Floor;
      var ze := IntMin(zs0 + (c.workpieceHeight / c.segmentLength).Floor, n);
      var zs := IntMin(zs0, ze);
      var radius := c.wireDiameter / 2.0 * 0.001;
      var dy := c.segmentLength * 0.001;
      var s := CrossSection(radius);
      var a := 2.0 * PI * radius * dy;
      var den := Denominator(radius, dy);
      if den == 0.0 then Err("Denominator for dT/dt is zero. Check wire/segment properties.")
      else Ok(Geometry(n, zs, ze, c.segmentLength, c.spoolT, dy, s, a, K * s / dy, den))
  }

  /** Wire cross-section pi r^2, r in metres. */
  function CrossSection(radius: real): real {
    PI * (radius * radius)
  }

  /** Heat capacity of one segment, rho cp S dy. */
  function Denominator(radius: real, dy: real): real {
    RHO * CP * CrossSection(radius) * dy
  }

  /** A zero diameter makes the denominator vanish, so the constructor rejects it. */
  lemma ZeroDiameterRejected(c: WireConfig)
    requires c.wireDiameter == 0.0
    ensures MakeGeometry(c).Err?
  {
    var radius := c.wireDiameter / 2.0 * 0.001;
    assert radius == 0.0;
    assert CrossSection(radius) == 0.0;
  }

  /** With non-negative lengths and a positive segment, the work zone lies inside the wire. */
  lemma GeometryWellFormed(c: WireConfig)
    requires c.bufferBottom >= 0.0 && c.bufferTop >= 0.0 && c.workpieceHeight >= 0.0
    requires c.segmentLength > 0.0
    requires MakeGeometry(c).Ok?
    ensures 0 <= MakeGeometry(c).value.zoneStart <= MakeGeometry(c).value.zoneEnd <= MakeGeometry(c).value.nSegments
  {
    assert (c.bufferBottom / c.segmentLength).Floor >= 0;
    assert (c.workpieceHeight / c.segmentLength).Floor >= 0;
  }

  /** The default wire: 60 one-millimetre segments with the work zone at [30, 40). */
  lemma DefaultGeometry()
    ensures MakeGeometry(DEFAULT_CONFIG).Ok?
    ensures MakeGeometry(DEFAULT_CONFIG).value.nSegments == 60
    ensures MakeGeometry(DEFAULT_CONFIG).value.zoneStart == 30
    ensures MakeGeometry(DEFAULT_CONFIG).value.zoneEnd == 40
  {
    assert CrossSection(0.25 / 2.0 * 0.001) == PI * (0.000125 * 0.000125);
    assert (60.0 / 1.0).Floor == 60;
    assert (30.0 / 1.0).Floor == 30;
    assert (10.0 / 1.0).Floor == 10;
  }

  /** The state a heat update reads besides the field itself. */
  datatype HeatInputs = HeatInputs(
    current: real, voltage: real, status: SparkStatus,
    unwindingVelocity: real, dielectricTemperature: real)

  /** `current or 0.0` and `voltage if not None else 0.0`. */
  function InputsOf(state: EDMState): HeatInputs
    reads state`current, state`voltage, state`sparkStatus, state`wireUnwindingVelocity,
          state`dielectricTemperature
  {
    HeatInputs(state.current.GetOr(0.0), state.voltage.GetOr(0.0), state.sparkStatus,
               state.wireUnwindingVelocity, state.dielectricTemperature)
  }

  /** The segment a live spark heats: zone start plus the floored spark height in segments. */
  function PlasmaIndex(g: Geometry, status: SparkStatus): Option<int>
    requires g.segmentLength != 0.0
  {
    if status.tag == SPARK && status.location.Some? then
      Some(g.zoneStart + (status.location.value / g.segmentLength).Floor)
    else None
  }

  predicate WellFormed(g: Geometry) {
    g.nSegments >= 1 && g.segmentLength != 0.0 && g.crossSection != 0.0
    && g.deltaY != 0.0 && g.denominator != 0.0
  }

  /** Joule coefficient 0.5 I^2 (dy / S). */
  function JouleCoeff(g: Geometry, current: real): real
    requires g.crossSection != 0.0
  {
    0.5 * (current * current) * (g.deltaY / g.crossSection)
  }

  /** Advection coefficient rho cp v S / dy, v the unwinding velocity in m/s. */
  function AdvectionCoeff(g: Geometry, unwindingVelocity: real): real
    requires g.deltaY != 0.0
  {
    RHO * CP * (unwindingVelocity * 0.001) * g.crossSection / g.deltaY
  }

  /** Upstream neighbour with the periodic wrap of the rolled array. */
  function Plus1(t: seq<real>, i: int): real
    requires 0 <= i < |t|
  {
    if i == 0 then t[|t| - 1] else t[i - 1]
  }

  /** Downstream neighbour with the periodic wrap of the rolled array. */
  function Minus1(t: seq<real>, i: int): real
    requires 0 <= i < |t|
  {
    if i == |t| - 1 then t[0] else t[i + 1]
  }

  /** Conduction: periodic stencil everywhere except the Neumann last segment of a multi-segment wire. */
  function Conduction(g: Geometry, t: seq<real>, i: int): real
    requires 0 <= i < |t|
  {
    var n := |t|;
    if n > 1 && i == n - 1 then g.kCond * (t[n - 2] - t[n - 1])
    else (Plus1(t, i) - t[i] - t[i] + Minus1(t, i)) * g.kCond
  }

  /** Plasma heat eta V I on the spark's segment, 0 elsewhere. */
  function Plasma(g: Geometry, inp: HeatInputs, i: int): real
    requires g.segmentLength != 0.0
  {
    if PlasmaIndex(g, inp.status) == Some(i) then ETA_PLASMA * inp.voltage * inp.current else 0.0
  }

  /** Joule heating with the linear resistivity law rho_e (1 + alpha (T - 293.15)). */
  function Joule(g: Geometry, inp: HeatInputs, t: seq<real>, i: int): real
    requires g.crossSection != 0.0
    requires 0 <= i < |t|
  {
    ((t[i] - T_REF) * ALPHA_RHO + 1.0) * RHO_ELEC * JouleCoeff(g, inp.current)
  }

  /** Convection to the dielectric, enhanced by the unwinding speed. */
  function Convection(g: Geometry, inp: HeatInputs, t: seq<real>, i: int): real
    requires 0 <= i < |t|
  {
    H_CONV * (1.0 + 0.5 * inp.unwindingVelocity) * g.surface * (t[i] - inp.dielectricTemperature)
  }

  /** Advection of the downstream neighbour's heat by the moving wire. */
  function Advection(g: Geometry, inp: HeatInputs, t: seq<real>, i: int): real
    requires g.deltaY != 0.0
    requires 0 <= i < |t|
  {
    AdvectionCoeff(g, inp.unwindingVelocity) * (Minus1(t, i) - t[i])
  }

  /** The total heat rate of segment i of a field whose spool end is already pinned. */
  function Rate(g: Geometry, inp: HeatInputs, t: seq<real>, i: int): real
    requires WellFormed(g)
    requires 0 <= i < |t|
  {
    Conduction(g, t, i) + Joule(g, inp, t, i) + Plasma(g, inp, i) - Convection(g, inp, t, i) + Advection(g, inp, t, i)
  }

  /** The temperature of segment i after one explicit Euler step of one microsecond. */
  function Stepped(g: Geometry, inp: HeatInputs, t: seq<real>, i: int): real
    requires WellFormed(g)
    requires 0 <= i < |t|
  {
    t[i] + Rate(g, inp, t, i) / g.denominator * DT_SIM
  }

  /** The field after one update: pin the spool end, step every segment, pin the spool end again. */
  function NextField(g: Geometry, inp: HeatInputs, t: seq<real>): (r: seq<real>)
    requires WellFormed(g)
    requires |t| == g.nSegments
    ensures |r| == |t|
    ensures r[0] == g.spoolT
  {
    var p := t[0 := g.spoolT];
    seq(|t|, i requires 0 <= i < |t| => if i == 0 then g.spoolT else Stepped(g, inp, p, i))
  }

  /** A field at a single temperature. */
  function Uniform(n: nat, temperature: real): (r: seq<real>)
    ensures |r| == n && forall i :: 0 <= i < n ==> r[i] == temperature
  {
    seq(n, _ => temperature)
  }

  /**
   * Equilibrium: a wire entirely at spool temperature in a dielectric at the
   * same temperature, carrying no current, stays exactly as it is.
   */
  lemma UniformFieldIsFixedPoint(g: Geometry, inp: HeatInputs)
    requires WellFormed(g)
    requires inp.current == 0.0 && inp.dielectricTemperature == g.spoolT
    ensures NextField(g, inp, Uniform(g.nSegments, g.spoolT)) == Uniform(g.nSegments, g.spoolT)
  {
    var t := Uniform(g.nSegments, g.spoolT);
    var p := t[0 := g.spoolT];
    assert p == t;
    forall i | 0 < i < |t|
      ensures Stepped(g, inp, p, i) == g.spoolT
    {
      assert Plus1(p, i) == g.spoolT && Minus1(p, i) == g.spoolT;
      assert Conduction(g, p, i) == 0.0;
      assert JouleCoeff(g, inp.current) == 0.0;
      assert Plasma(g, inp, i) == 0.0;
      assert Rate(g, inp, p, i) == 0.0;
    }
  }

  /** The update of the same field without a live spark. */
  function WithoutSpark(inp: HeatInputs): HeatInputs {
    inp.(status := IdleStatus())
  }

  /**
   * The plasma spot is local: compared with the same field without a live
   * spark, the heat rate differs only on the spark's segment, by eta V I.
   */
  lemma PlasmaHeatIsLocal(g: Geometry, inp: HeatInputs, t: seq<real>, i: int)
    requires WellFormed(g)
    requires 0 <= i < |t|
    ensures Rate(g, inp, t, i) ==
            Rate(g, WithoutSpark(inp), t, i)
            + (if PlasmaIndex(g, inp.status) == Some(i) then ETA_PLASMA * inp.voltage * inp.current else 0.0)
  {
    var cold := WithoutSpark(inp);
    assert Joule(g, inp, t, i) == Joule(g, cold, t, i);
    assert Convection(g, inp, t, i) == Convection(g, cold, t, i);
    assert Advection(g, inp, t, i) == Advection(g, cold, t, i);
    assert Plasma(g, cold, i) == 0.0;
  }

  /** A field whose entries are the spool temperature and the stepped segments is the next field. */
  lemma NextFieldFromSegments(g: Geometry, inp: HeatInputs, t: seq<real>, r: seq<real>)
    requires WellFormed(g)
    requires |t| == g.nSegments == |r|
    requires r[0] == g.spoolT
    requires forall j :: 0 < j < |r| ==> r[j] == Stepped(g, inp, t[0 := g.spoolT], j)
    ensures r == NextField(g, inp, t)
  {
  }

  // ------------------------------------------------------------------------
  // Work-zone mean with Python's slicing rules
  // ------------------------------------------------------------------------

  function Sum(s: seq<real>): real {
    if s == [] then 0.0 else s[0] + Sum(s[1..])
  }

  function Mean(s: seq<real>): real
    requires |s| > 0
  {
    Sum(s) / |s| as real
  }

  lemma {:induction false} SumBounds(s: seq<real>, lo: real, hi: real)
    requires forall i :: 0 <= i < |s| ==> lo <= s[i] <= hi
    ensures |s| as real * lo <= Sum(s) <= |s| as real * hi
  {
    if s != [] {
      SumBounds(s[1..], lo, hi);
    }
  }

  /** A mean lies between any bounds of its elements. */
  lemma MeanBounds(s: seq<real>, lo: real, hi: real)
    requires |s| > 0
    requires forall i :: 0 <= i < |s| ==> lo <= s[i] <= hi
    ensures lo <= Mean(s) <= hi
  {
    SumBounds(s, lo, hi);
    var n := |s| as real;
    assert (n * lo) / n == lo;
    assert (n * hi) / n == hi;
    assert (n * lo) / n <= Sum(s) / n;
    assert Sum(s) / n <= (n * hi) / n;
  }

  /** A slice bound after Python's negative-index normalisation and clamping. */
  function SliceBound(i: int, n: nat): (r: nat)
    ensures r <= n
  {
    if i < 0 then (if i + n < 0 then 0 else i + n) else IntMin(i, n)
  }

  /** t[a:b] as Python slices it. */
  function PySlice(t: seq<real>, a: int, b: int): seq<real> {
    var lo, hi := SliceBound(a, |t|), SliceBound(b, |t|);
    if lo < hi then t[lo..hi] else []
  }

  /** t[i] as Python indexes it; None where Python raises IndexError. */
  function PyIndex(t: seq<real>, i: int): Option<real> {
    if 0 <= i < |t| then Some(t[i])
    else if -|t| <= i < 0 then Some(t[i + |t|])
    else None
  }

  /**
   * The mean temperature of the work zone, with the update's clamping of the
   * zone to the wire; None where the source would raise IndexError.
   */
  function ZoneAverage(t: seq<real>, zoneStart: int, zoneEnd: int): Option<real>
    requires |t| >= 1
  {
    var start := IntMin(zoneStart, |t| - 1);
    var end := IntMin(zoneEnd, |t|);
    if end > start && |PySlice(t, start, end)| > 0 then Some(Mean(PySlice(t, start, end)))
    else PyIndex(t, start)
  }

  /** The zone average, when defined, lies between the coldest and hottest segment. */
  lemma ZoneAverageBounds(t: seq<real>, zoneStart: int, zoneEnd: int, lo: real, hi: real)
    requires |t| >= 1
    requires forall i :: 0 <= i < |t| ==> lo <= t[i] <= hi
    ensures ZoneAverage(t, zoneStart, zoneEnd).Some? ==>
              lo <= ZoneAverage(t, zoneStart, zoneEnd).value <= hi
  {
    var start := IntMin(zoneStart, |t| - 1);
    var end := IntMin(zoneEnd, |t|);
    var zone := PySlice(t, start, end);
    if end > start && |zone| > 0 {
      MeanBounds(zone, lo, hi);
    }
  }

  /** For a well-formed zone inside the wire the average is defined, and is the plain zone mean. */
  lemma ZoneAverageOfValidZone(t: seq<real>, zoneStart: int, zoneEnd: int)
    requires |t| >= 1
    requires 0 <= zoneStart < zoneEnd <= |t|
    ensures ZoneAverage(t, zoneStart, zoneEnd) == Some(Mean(t[zoneStart..zoneEnd]))
  {
  }

  // ------------------------------------------------------------------------
  // The module
  // ------------------------------------------------------------------------

  class WireModule {
    const config: WireConfig
    const geometry: Geometry

    ghost predicate Valid() {
      WellFormed(geometry)
    }

    constructor (config: WireConfig, geometry: Geometry)
      requires MakeGeometry(config) == Ok(geometry)
      ensures Valid() && this.config == config && this.geometry == geometry
    {
      this.config := config;
      this.geometry := geometry;
    }

    /**
     * __init__: derive the geometry (failing on a zero segment length before
     * touching the record), re-create the record's field at spool temperature
     * unless it already has one entry per segment, then reject a zero
     * denominator.
     */
    static method Create(state: EDMState, config: WireConfig) returns (r: Result<WireModule, string>)
      modifies state`wireTemperature
      ensures r.Ok? <==> MakeGeometry(config).Ok?
      ensures r.Ok? ==> r.value.Valid() && r.value.config == config && r.value.geometry == MakeGeometry(config).value
      ensures config.segmentLength == 0.0 ==> state.wireTemperature == old(state.wireTemperature)
      ensures config.segmentLength != 0.0 ==>
                var n := IntMax(1, Trunc((config.bufferBottom + config.workpieceHeight + config.bufferTop) / config.segmentLength));
                if old(state.wireTemperature.Length) == n then state.wireTemperature == old(state.wireTemperature)
                else fresh(state.wireTemperature) && state.wireTemperature[..] == Uniform(n, config.spoolT)
    {
      if config.segmentLength == 0.0 {
        return Err("float division by zero");
      }
      var n := IntMax(1, Trunc((config.bufferBottom + config.workpieceHeight + config.bufferTop) / config.segmentLength));
      if state.wireTemperature.Length != n {
        state.wireTemperature := new real[n](_ => config.spoolT);
      }
      var g := MakeGeometry(config);
      match g {
        case Err(e) => r := Err(e);
        case Ok(geometry) =>
          var m := new WireModule(config, geometry);
          r := Ok(m);
      }
    }

    /** Steps 2 to 6 of update: the heat rate of every segment of the pinned field. */
    method ComputeRates(t: array<real>, inp: HeatInputs) returns (rates: array<real>)
      requires Valid()
      requires t.Length == geometry.nSegments
      ensures fresh(rates) && rates.Length == t.Length
      ensures forall j :: 0 <= j < t.Length ==> rates[j] == Rate(geometry, inp, t[..], j)
    {
      var g := geometry;
      var n := g.nSegments;
      var plasmaIndex := PlasmaIndex(g, inp.status);
      var jouleCoeff := JouleCoeff(g, inp.current);
      var convCoeff := H_CONV * (1.0 + 0.5 * inp.unwindingVelocity) * g.surface;
      var advCoeff := AdvectionCoeff(g, inp.unwindingVelocity);
      ghost var ts := t[..];
      rates := new real[n];
      var i := 0;
      while i < n
        invariant 0 <= i <= n
        invariant forall j :: 0 <= j < i ==> rates[j] == Rate(g, inp, ts, j)
      {
        var plus1 := if i == 0 then t[n - 1] else t[i - 1];
        var minus1 := if i == n - 1 then t[0] else t[i + 1];
        var conduction := (plus1 - t[i] - t[i] + minus1) * g.kCond;
        if n > 1 && i == n - 1 {
          conduction := g.kCond * (t[n - 2] - t[n - 1]);
        }
        var joule := ((t[i] - T_REF) * ALPHA_RHO + 1.0) * RHO_ELEC * jouleCoeff;
        var plasma := if plasmaIndex == Some(i) then ETA_PLASMA * inp.voltage * inp.current else 0.0;
        var convection := convCoeff * (t[i] - inp.dielectricTemperature);
        var advection := advCoeff * (minus1 - t[i]);
        assert conduction == Conduction(g, ts, i);
        assert joule == Joule(g, inp, ts, i);
        assert plasma == Plasma(g, inp, i);
        assert convection == Convection(g, inp, ts, i);
        assert advection == Advection(g, inp, ts, i);
        rates[i] := conduction + joule + plasma - convection + advection;
        i := i + 1;
      }
    }

    /** Step 7 of update: T += rate / denominator * dt, segment by segment. */
    method ApplyStep(t: array<real>, rates: array<real>, ghost inp: HeatInputs, ghost pinned: seq<real>)
      requires Valid()
      requires t != rates
      requires t.Length == rates.Length == geometry.nSegments
      requires t[..] == pinned
      requires forall j :: 0 <= j < t.Length ==> rates[j] == Rate(geometry, inp, pinned, j)
      modifies t
      ensures forall j :: 0 <= j < t.Length ==> t[j] == Stepped(geometry, inp, pinned, j)
    {
      var i := 0;
      while i < t.Length
        invariant 0 <= i <= t.Length
        invariant forall j :: 0 <= j < i ==> t[j] == Stepped(geometry, inp, pinned, j)
        invariant forall j :: i <= j < t.Length ==> t[j] == pinned[j]
      {
        t[i] := t[i] + rates[i] / geometry.denominator * DT_SIM;
        i := i + 1;
      }
    }

    /**
     * update: nothing once the wire is broken; otherwise one heat step of the
     * field in place (on a fresh spool-temperature field if its length is
     * wrong), then the work-zone average, which fails like the source's
     * indexing only for zones far outside the wire.
     */
    method Update(state: EDMState) returns (outcome: Outcome<string>)
      requires Valid()
      modifies state`wireTemperature, state.wireTemperature, state`wireAverageTemperature
      ensures old(state.isWireBroken) ==>
                outcome == Pass && state.wireTemperature == old(state.wireTemperature)
                && unchanged(state.wireTemperature)
                && state.wireAverageTemperature == old(state.wireAverageTemperature)
      ensures !old(state.isWireBroken) ==>
                var n := geometry.nSegments;
                var before := if old(state.wireTemperature.Length) == n then old(state.wireTemperature[..])
                              else Uniform(n, geometry.spoolT);
                && (old(state.wireTemperature.Length) == n ==> state.wireTemperature == old(state.wireTemperature))
                && (old(state.wireTemperature.Length) != n ==> fresh(state.wireTemperature))
                && state.wireTemperature[..] == NextField(geometry, InputsOf(state), before)
                && var avg := ZoneAverage(state.wireTemperature[..], geometry.zoneStart, geometry.zoneEnd);
                   (avg.Some? ==> outcome == Pass && state.wireAverageTemperature == avg)
                   && (avg.None? ==> outcome.Fail? && state.wireAverageTemperature == old(state.wireAverageTemperature))
    {
      if state.isWireBroken {
        return Pass;
      }
      var g := geometry;
      var n := g.nSegments;
      if state.wireTemperature.Length != n {
        state.wireTemperature := new real[n](_ => g.spoolT);
        assert state.wireTemperature[..] == Uniform(n, g.spoolT);
      }
      var t := state.wireTemperature;
      ghost var before := t[..];
      var inp := InputsOf(state);

      t[0] := g.spoolT;
      ghost var pinned := t[..];
      assert pinned == before[0 := g.spoolT];

      var rates := ComputeRates(t, inp);
      ApplyStep(t, rates, inp, pinned);
      ghost var stepped := t[..];
      t[0] := g.spoolT;
      assert t[..] == stepped[0 := g.spoolT];
      NextFieldFromSegments(g, inp, before, t[..]);

      var avg := ZoneAverage(t[..], g.zoneStart, g.zoneEnd);
      match avg {
        case Some(v) =>
          state.wireAverageTemperature := Some(v);
          outcome := Pass;
        case None =>
          outcome := Fail("IndexError: index out of bounds");
      }
    }
  }
}
