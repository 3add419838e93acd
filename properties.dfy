/** Property estimator and mass-flow converter of the ejector sizing tool
    (`get_density` and `convert_mass_flow`). Quantities are exact reals: the
    floating-point rounding of the original is not modelled. */
module Properties {
  import opened Wrappers

  /** The fluid kind of a stream. The original compares the kind as a string;
      every string other than "Gas", "Oil" and "Water" is `Unrecognised`. */
  datatype Fluid = Gas | Oil | Water | Unrecognised

  /** Ideal-gas constant R in psi·ft³/(lbmol·°R). */
  const GasConstant: real := 10.73
  /** Fixed temperature T in °R. */
  const Temperature: real := 520.0
  /** Fixed molecular weight MW in lbm/lbmol. */
  const MolecularWeight: real := 18.0
  /** Density of water in lb/ft³; also the reference of the API correlation. */
  const WaterDensity: real := 62.4
  /** Density used for oil whose API gravity is absent or zero, in lb/ft³. */
  const OilFallbackDensity: real := 53.0
  /** Standard cubic feet in one MMSCF (million standard cubic feet). */
  const CubicFeetPerMillion: real := 1000000.0
  /** Cubic feet in one barrel. */
  const CubicFeetPerBarrel: real := 5.615

  /** Python truthiness of the optional API gravity: `None` and `0.0` are false. */
  predicate Truthy(api: Option<real>) {
    api.Some? && api.value != 0.0
  }

  /** The density estimate is free of a division by zero: the oil correlation
      divides by `api + 131.5` whenever the API gravity is truthy. */
  predicate DensityDefined(fluid: Fluid, api: Option<real>) {
    fluid == Oil && Truthy(api) ==> api.value + 131.5 != 0.0
  }

  /** API gravity as the industry defines it from a density, through the
      specific gravity relative to water: API = 141.5 / SG - 131.5. */
  function ApiGravity(rho: real): real
    requires rho != 0.0
  {
    141.5 / (rho / WaterDensity) - 131.5
  }

  /** Density in lb/ft³ of a fluid at a pressure in psi, with an optional API
      gravity. Gas follows the ideal-gas law at fixed T and MW, water is a
      constant, oil follows the API correlation or a fallback, and any other
      kind yields 0. */
  function Density(fluid: Fluid, pressure: real, api: Option<real>): (rho: real)
    requires DensityDefined(fluid, api)
    ensures fluid == Gas ==> rho * (GasConstant * Temperature) == pressure * MolecularWeight
    ensures fluid == Water ==> rho == WaterDensity
    ensures fluid == Oil && Truthy(api) ==> rho != 0.0 && ApiGravity(rho) == api.value
    ensures fluid == Oil && !Truthy(api) ==> rho == OilFallbackDensity
    ensures fluid == Unrecognised ==> rho == 0.0
  {
    match fluid
    case Gas => (pressure * MolecularWeight) / (GasConstant * Temperature)
    case Water => WaterDensity
    case Oil =>
      if Truthy(api) then
        var sg := 141.5 / (api.value + 131.5);
        assert sg * (api.value + 131.5) == 141.5;
        sg * WaterDensity
      else OilFallbackDensity
    case Unrecognised => 0.0
  }

  /** Mass flow in lbm/day of a stream of the given fluid. Gas flow is in
      MMSCFD and goes through moles at the fixed R, T and MW, ignoring `rho`;
      every other kind is in BPD and goes through cubic feet and `rho`. */
  function MassFlow(fluid: Fluid, flow: real, rho: real): (m: real)
    ensures fluid == Gas ==> m == flow * CubicFeetPerMillion * Density(Gas, 1.0, None)
    ensures fluid != Gas ==> m == (flow * CubicFeetPerBarrel) * rho
  {
    if fluid == Gas then
      var lbmol := (flow * CubicFeetPerMillion) / (GasConstant * Temperature);
      lbmol * MolecularWeight
    else
      var ft3 := flow * CubicFeetPerBarrel;
      ft3 * rho
  }

  /** The flow rate (MMSCFD for gas, BPD otherwise) that `MassFlow` turns into
      the mass flow `m`: the inverse conversion. */
  function FlowOf(fluid: Fluid, m: real, rho: real): real
    requires fluid != Gas ==> rho != 0.0
  {
    if fluid == Gas then
      m / MolecularWeight * (GasConstant * Temperature) / CubicFeetPerMillion
    else
      m / rho / CubicFeetPerBarrel
  }

  /** Gas density is linear in pressure, zero at zero pressure, has the sign of
      the pressure, and does not depend on the API gravity. */
  lemma GasDensityLinear(p: real, q: real, k: real, a: Option<real>, b: Option<real>)
    ensures Density(Gas, k * p + q, a) == k * Density(Gas, p, b) + Density(Gas, q, b)
    ensures Density(Gas, 0.0, a) == 0.0
    ensures Density(Gas, p, a) > 0.0 <==> p > 0.0
  {
  }

  /** Water density is the same constant whatever the pressure and API gravity. */
  lemma WaterDensityConstant(p: real, q: real, a: Option<real>, b: Option<real>)
    ensures Density(Water, p, a) == Density(Water, q, b) == 62.4
  {
  }

  /** The oil correlation is the inverse of the API gravity definition: the
      density it gives for a truthy API gravity `a` has API gravity `a`, and
      the density of any oil whose API gravity is truthy is recovered from it. */
  lemma OilDensityRoundTrip(p: real, a: real, rho: real)
    requires a != 0.0 && a + 131.5 != 0.0
    requires rho != 0.0 && ApiGravity(rho) != 0.0
    ensures ApiGravity(Density(Oil, p, Some(a))) == a
    ensures Density(Oil, p, Some(ApiGravity(rho))) == rho
  {
  }

  /** Oil of API gravity 10 has the density of water, and an API gravity of 0
      falls back to the same constant as an absent one. */
  lemma OilReferencePoints(p: real, q: real)
    ensures Density(Oil, p, Some(10.0)) == WaterDensity
    ensures Density(Oil, p, Some(0.0)) == Density(Oil, q, None) == 53.0
  {
  }

  /** Above the pole at -131.5, a higher API gravity means a lighter oil. */
  lemma OilDensityDecreasing(p: real, a1: real, a2: real)
    requires -131.5 < a1 < a2
    requires a1 != 0.0 && a2 != 0.0
    ensures Density(Oil, p, Some(a1)) > Density(Oil, p, Some(a2)) > 0.0
  {
    var d1, d2 := a1 + 131.5, a2 + 131.5;
    var x1, x2 := 141.5 / d1, 141.5 / d2;
    assert x1 * d1 == 141.5 && x2 * d2 == 141.5;
    assert x2 > 0.0;
    assert x2 * d1 < x2 * d2;
    calc {
      x2 * d1;
    <  x2 * d2;
    == 141.5;
    == x1 * d1;
    }
    assert x2 < x1;
    assert Density(Oil, p, Some(a1)) == x1 * WaterDensity;
    assert Density(Oil, p, Some(a2)) == x2 * WaterDensity;
  }

  /** Gas mass flow does not depend on the density passed in. */
  lemma GasMassFlowIgnoresDensity(flow: real, rho1: real, rho2: real)
    ensures MassFlow(Gas, flow, rho1) == MassFlow(Gas, flow, rho2)
  {
  }

  /** For every fluid the conversion is linear in the flow rate, and a zero
      flow has zero mass flow. */
  lemma MassFlowLinear(fluid: Fluid, f: real, g: real, k: real, rho: real)
    ensures MassFlow(fluid, k * f + g, rho) == k * MassFlow(fluid, f, rho) + MassFlow(fluid, g, rho)
    ensures MassFlow(fluid, 0.0, rho) == 0.0
  {
  }

  /** `FlowOf` inverts `MassFlow`: converting a flow rate to mass flow and back
      gives the flow rate, and conversely. */
  lemma MassFlowRoundTrip(fluid: Fluid, flow: real, m: real, rho: real)
    requires fluid != Gas ==> rho != 0.0
    ensures FlowOf(fluid, MassFlow(fluid, flow, rho), rho) == flow
    ensures MassFlow(fluid, FlowOf(fluid, m, rho), rho) == m
  {
  }

  /** A positive flow has a positive mass flow when the fluid is gas or its
      density is positive. */
  lemma MassFlowPositive(fluid: Fluid, flow: real, rho: real)
    requires flow > 0.0
    requires fluid == Gas || rho > 0.0
    ensures MassFlow(fluid, flow, rho) > 0.0
  {
  }
}
