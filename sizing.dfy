/** Stream aggregation and ejector sizing: the calculation the tool runs when
    its "Calculate and Show Charts" button is pressed. The streams are given
    as a sequence of records instead of being read from input widgets, and
    the result is returned instead of being displayed. */
module Sizing {
  import opened Wrappers
  import opened Properties

  /** One declared process stream: the fluid kind, the flow rate (MMSCFD for
      gas, BPD otherwise), the pressure in psi and the optional API gravity. */
  datatype Stream = Stream(fluid: Fluid, flow: real, pressure: real, api: Option<real>)

  /** Only streams with a positive flow take part in the sizing. */
  predicate Qualifies(s: Stream) {
    s.flow > 0.0
  }

  /** A qualifying stream whose density estimate divides by zero. */
  predicate HitsApiPole(s: Stream) {
    Qualifies(s) && !DensityDefined(s.fluid, s.api)
  }

  /** No qualifying stream divides by zero in its density estimate. */
  predicate Computable(streams: seq<Stream>) {
    forall i | 0 <= i < |streams| :: !HitsApiPole(streams[i])
  }

  /** Index of the first stream at which the aggregation divides by zero. */
  predicate IsFirstPole(streams: seq<Stream>, index: nat) {
    index < |streams| && HitsApiPole(streams[index]) &&
    forall j | 0 <= j < index :: !HitsApiPole(streams[j])
  }

  function StreamDensity(s: Stream): real
    requires DensityDefined(s.fluid, s.api)
  {
    Density(s.fluid, s.pressure, s.api)
  }

  function StreamMassFlow(s: Stream): real
    requires DensityDefined(s.fluid, s.api)
  {
    MassFlow(s.fluid, s.flow, StreamDensity(s))
  }

  /** What the aggregation loop collects: the total mass flow in lbm/day, the
      density of each qualifying stream and its flow rate, in input order. */
  datatype Accumulation = Accumulation(totalMassFlow: real, densities: seq<real>, flows: seq<real>)

  /** The accumulators after one more qualifying stream. */
  function Include(acc: Accumulation, s: Stream): Accumulation
    requires DensityDefined(s.fluid, s.api)
  {
    Accumulation(acc.totalMassFlow + StreamMassFlow(s),
                 acc.densities + [StreamDensity(s)],
                 acc.flows + [s.flow])
  }

  /** The accumulators after the loop has visited every stream, one stream at
      a time from the first; a stream without a positive flow is skipped. */
  function Accumulated(streams: seq<Stream>): (acc: Accumulation)
    requires Computable(streams)
    ensures |acc.densities| == |acc.flows| <= |streams|
    ensures acc.densities == [] ==> acc.totalMassFlow == 0.0
  {
    if streams == [] then Accumulation(0.0, [], [])
    else
      var rest, last := streams[..|streams| - 1], streams[|streams| - 1];
      assert forall i | 0 <= i < |rest| :: rest[i] == streams[i];
      if Qualifies(last) then Include(Accumulated(rest), last) else Accumulated(rest)
  }

  /** Python's `sum` over a list of floats: a left fold from 0. */
  function Sum(xs: seq<real>): real {
    if xs == [] then 0.0 else Sum(xs[..|xs| - 1]) + xs[|xs| - 1]
  }

  /** Arithmetic mean, not weighted by anything. */
  function Mean(xs: seq<real>): real
    requires xs != []
  {
    Sum(xs) / (|xs| as real)
  }

  /** The qualifying streams, in input order: the reference the aggregation is
      compared with. */
  function Qualifying(streams: seq<Stream>): (q: seq<Stream>)
    ensures forall s :: s in q <==> s in streams && Qualifies(s)
    ensures |q| <= |streams|
  {
    if streams == [] then []
    else (if Qualifies(streams[0]) then [streams[0]] else []) + Qualifying(streams[1..])
  }

  predicate AllDefined(q: seq<Stream>) {
    forall s | s in q :: DensityDefined(s.fluid, s.api)
  }

  /** Filter-then-map view of the aggregation over a list of streams that
      all qualify: the sum of their mass flows, their densities and their
      flow rates. */
  function Projection(q: seq<Stream>): Accumulation
    requires AllDefined(q)
  {
    Accumulation(Sum(seq(|q|, i requires 0 <= i < |q| => StreamMassFlow(q[i]))),
                 seq(|q|, i requires 0 <= i < |q| => StreamDensity(q[i])),
                 seq(|q|, i requires 0 <= i < |q| => q[i].flow))
  }

  /** The loop of the calculation: visits the streams in order, skips those
      without a positive flow, and for the others estimates the density,
      converts the flow to mass flow and collects both. The division by zero
      of the oil correlation aborts it at the first stream where it happens. */
  method Accumulate(streams: seq<Stream>) returns (r: Result<Accumulation, Fault>)
    ensures r.Success? <==> Computable(streams)
    ensures r.Success? ==> r.value == Accumulated(streams)
    ensures r.Failure? ==> r.error.ApiPole? && IsFirstPole(streams, r.error.index)
  {
    var totalMassFlow := 0.0;
    var rhoList: seq<real> := [];
    var flows: seq<real> := [];
    var i := 0;
    while i < |streams|
      invariant 0 <= i <= |streams|
      invariant Computable(streams[..i])
      invariant Accumulation(totalMassFlow, rhoList, flows) == Accumulated(streams[..i])
    {
      var stream := streams[i];
      assert streams[..i + 1][..i] == streams[..i];
      if stream.flow > 0.0 {
        if !DensityDefined(stream.fluid, stream.api) {
          return Failure(ApiPole(i));
        }
        var rho := Density(stream.fluid, stream.pressure, stream.api);
        var massFlow := MassFlow(stream.fluid, stream.flow, rho);
        totalMassFlow := totalMassFlow + massFlow;
        rhoList := rhoList + [rho];
        flows := flows + [stream.flow];
      }
      i := i + 1;
    }
    assert streams[..i] == streams;
    return Success(Accumulation(totalMassFlow, rhoList, flows));
  }

  /** Why a calculation stopped without a result: the oil correlation divided
      by zero at a stream, the average density is zero, or the throat area is
      negative so that its square root is undefined. */
  datatype Fault = ApiPole(index: nat) | ZeroAverageDensity | NegativeThroatArea

  /** Assumed velocity through the throat, in ft/s, for every stream. */
  const DesignVelocity: real := 125.0
  const SecondsPerDay: real := 86400.0
  const InchesPerFoot: real := 12.0
  /** The value of Python's `math.pi`. */
  const Pi: real := 3.141592653589793

  /** The two chart series: the flow rate of each qualifying stream, paired
      with the assumed velocity and with the throat diameter. */
  datatype Chart = Chart(flows: seq<real>, velocities: seq<real>, diameters: seq<real>)

  /** The sizing result: mass flow in lbm/day, density in lb/ft³, throat area
      in ft², diameters in inches and the discharge pressure in psi. */
  datatype SizingResult = SizingResult(
    totalMassFlow: real,
    averageDensity: real,
    throatArea: real,
    throatDiameter: real,
    mixingDiameter: real,
    dischargePressure: real,
    chart: Chart)

  datatype Outcome = Sized(result: SizingResult) | InsufficientInput | Failed(fault: Fault)

  /** The guard of the sizing: a positive total and at least one density. */
  predicate Proceeds(acc: Accumulation) {
    acc.totalMassFlow > 0.0 && acc.densities != []
  }

  /** Throat area in ft² that carries the daily mass flow at the assumed
      velocity and the given density: mass flow = density × velocity × area. */
  function ThroatArea(totalMassFlow: real, avgRho: real): (area: real)
    requires avgRho != 0.0
    ensures area * (avgRho * DesignVelocity) * SecondsPerDay == totalMassFlow
    ensures avgRho > 0.0 ==> (area > 0.0 <==> totalMassFlow > 0.0)
  {
    (totalMassFlow / SecondsPerDay) / (avgRho * DesignVelocity)
  }

  /** Area of a circle of diameter `d`. */
  function CircleArea(d: real): real {
    Pi * d * d / 4.0
  }

  /** `sqrt` behaves as the square root on the non-negative reals. */
  ghost predicate IsSquareRoot(sqrt: real -> real) {
    forall x :: 0.0 <= x ==> 0.0 <= sqrt(x) && sqrt(x) * sqrt(x) == x
  }

  /** `r` is the result the sizing derives from the accumulators `acc`. */
  ghost predicate Describes(r: SizingResult, acc: Accumulation, dischargePressure: real) {
    && acc.densities != []
    && r.totalMassFlow == acc.totalMassFlow
    && r.averageDensity == Mean(acc.densities) && r.averageDensity != 0.0
    && r.throatArea == ThroatArea(acc.totalMassFlow, r.averageDensity) && r.throatArea >= 0.0
    && r.throatDiameter >= 0.0 && CircleArea(r.throatDiameter / InchesPerFoot) == r.throatArea
    && r.mixingDiameter == 2.0 * r.throatDiameter
    && r.dischargePressure == dischargePressure
    && r.chart.flows == acc.flows
    && |r.chart.velocities| == |acc.flows| && |r.chart.diameters| == |acc.flows|
    && (forall i | 0 <= i < |acc.flows| ::
          r.chart.velocities[i] == DesignVelocity && r.chart.diameters[i] == r.throatDiameter)
  }

  /** Which outcome the sizing takes once the loop has completed with `acc`. */
  ghost predicate Classified(o: Outcome, acc: Accumulation, dischargePressure: real) {
    && !(o.Failed? && o.fault.ApiPole?)
    && (o.InsufficientInput? <==> !Proceeds(acc))
    && (o == Failed(ZeroAverageDensity) <==> Proceeds(acc) && Mean(acc.densities) == 0.0)
    && (o == Failed(NegativeThroatArea) <==>
          Proceeds(acc) && Mean(acc.densities) != 0.0 &&
          ThroatArea(acc.totalMassFlow, Mean(acc.densities)) < 0.0)
    && (o.Sized? ==> Describes(o.result, acc, dischargePressure))
  }

  /** Twice the square root of `area / Pi` is the diameter of a circle of
      that area. */
  lemma DiameterOfRoot(area: real, s: real)
    requires area >= 0.0 && s >= 0.0 && s * s == area / Pi
    ensures CircleArea(2.0 * s) == area
  {
  }

  /** The whole calculation: aggregate the streams, then size the throat from
      the average density at the assumed velocity, double it for the mixing
      chamber and build the chart series. `sqrt` stands for `math.sqrt`. */
  method SizeEjector(streams: seq<Stream>, dischargePressure: real, sqrt: real -> real)
    returns (o: Outcome)
    requires IsSquareRoot(sqrt)
    ensures (o.Failed? && o.fault.ApiPole?) <==> !Computable(streams)
    ensures o.Failed? && o.fault.ApiPole? ==> IsFirstPole(streams, o.fault.index)
    ensures Computable(streams) ==> Classified(o, Accumulated(streams), dischargePressure)
  {
    var accumulated := Accumulate(streams);
    if accumulated.Failure? {
      return Failed(accumulated.error);
    }
    var acc := accumulated.value;
    if !(acc.totalMassFlow > 0.0 && |acc.densities| > 0) {
      return InsufficientInput;
    }
    var avgRho := Sum(acc.densities) / (|acc.densities| as real);
    var avgVelocity := DesignVelocity;
    var massFlowRate := acc.totalMassFlow / SecondsPerDay;
    if avgRho * avgVelocity == 0.0 {
      return Failed(ZeroAverageDensity);
    }
    var areaThroat := massFlowRate / (avgRho * avgVelocity);
    if areaThroat / Pi < 0.0 {
      return Failed(NegativeThroatArea);
    }
    var root := sqrt(areaThroat / Pi);
    var diameterThroat := 2.0 * root;
    var diameterThroatIn := diameterThroat * InchesPerFoot;
    var diameterMixingIn := 2.0 * diameterThroatIn;
    var n := |acc.flows|;
    var chart := Chart(acc.flows, seq(n, _ => avgVelocity), seq(n, _ => diameterThroatIn));
    DiameterOfRoot(areaThroat, root);
    assert diameterThroatIn / InchesPerFoot == diameterThroat;
    return Sized(SizingResult(acc.totalMassFlow, avgRho, areaThroat, diameterThroatIn,
                              diameterMixingIn, dischargePressure, chart));
  }
}
