# Ejector sizing engine

A Dafny model of the calculation engine of a small ejector (jet-pump) sizing
tool. The tool takes a list of process streams (gas, oil or water, each with a
flow rate, a pressure and, for oil, an optional API gravity), turns every
stream with a positive flow into a mass flow in lbm/day, sums them, averages
the stream densities, and sizes a nozzle throat for a fixed velocity of
125 ft/s. The mixing chamber is twice the throat diameter. A discharge
pressure is carried through to the result and enters no formula.

The model has three modules:

- `Properties` (`properties.dfy`): the density estimate per fluid kind and the
  conversion of a flow rate (MMSCFD for gas, BPD for liquids) to mass flow,
  as functions, with their inverses (the API-gravity definition, the flow rate
  recovered from a mass flow) and the lemmas that connect them.
- `Sizing` (`sizing.dfy`): the stream record, the aggregation loop as the
  method `Accumulate` proved against the recursive specification
  `Accumulated`, and the whole calculation as the method `SizeEjector`, whose
  outcome is a result, `InsufficientInput` (the tool's warning), or a fault.
- `SizingFacts` (`sizing_facts.dfy`): lemmas about the aggregation (it is a
  filter followed by a map and a sum; excluded streams never matter; densities
  do not depend on flow rates) and about the sizing formulas (continuity,
  monotonicity, the mixing-chamber area, uniqueness of the result).

`Wrappers` (`wrappers.dfy`) holds `Option` and `Result`.

Where the code raises an exception, the model returns a fault instead:
`ApiPole(i)` when the oil correlation divides by zero at stream `i`
(API gravity -131.5), `ZeroAverageDensity` when the throat-area formula
divides by zero (for instance a single gas stream at 0 psi), and
`NegativeThroatArea` when `math.sqrt` would be given a negative number
(a negative average density, for instance gas at negative pressure).

Three behaviours of the code that are easy to misread, kept as written:

- The oil correlation is used when the API gravity is truthy in Python's
  sense, so an API gravity of 0 (the default of the input field) falls back
  to 53 lb/ft³ like an absent one.
- The guard is `total_mass_flow > 0`, so a negative total (possible with
  negative densities) also ends in `InsufficientInput`, not only a zero one.
- The divisions by zero and the square root of a negative number are not
  handled by the code at all; they are the faults above.

The gas conversion computes moles as `flow * 1e6 / (R * T)` with no pressure
term; `Properties.MassFlow` states this as "gas mass flow equals 10⁶ standard
cubic feet times the density of the gas at 1 psi". The model keeps the
conversion as written.

## Model

| member | source | states |
|---|---|---|
| `Properties.Density` | ejector_sizing_mobile_charts_discharge.py:13-23 | gas obeys the ideal-gas law ρ·R·T = p·MW with R = 10.73, T = 520, MW = 18; water is 62.4; oil with a truthy API gravity has exactly that API gravity under the definition API = 141.5/SG − 131.5; oil with API absent or 0 is 53; any other kind is 0; defined except for oil at API −131.5 |
| `Properties.GasDensityLinear` | ejector_sizing_mobile_charts_discharge.py:14-18 | gas density is linear in pressure, zero at pressure 0, positive exactly when the pressure is, and independent of the API gravity |
| `Properties.WaterDensityConstant` | ejector_sizing_mobile_charts_discharge.py:19-20 | water density is 62.4 whatever the pressure and API gravity |
| `Properties.OilDensityRoundTrip` | ejector_sizing_mobile_charts_discharge.py:21-22 | the oil correlation and the API-gravity definition are inverse to each other, in both directions |
| `Properties.OilReferencePoints` | ejector_sizing_mobile_charts_discharge.py:21-22 | API 10 oil has water's density; API 0 and an absent API both give 53 |
| `Properties.OilDensityDecreasing` | ejector_sizing_mobile_charts_discharge.py:22 | above −131.5 a higher API gravity gives a strictly lower, positive density |
| `Properties.MassFlow` | ejector_sizing_mobile_charts_discharge.py:25-34 | gas: 10⁶ scf per MMSCF times the gas density at 1 psi, whatever `rho`; other kinds: barrels times 5.615 ft³ times `rho` |
| `Properties.GasMassFlowIgnoresDensity` | ejector_sizing_mobile_charts_discharge.py:29-31 | the gas branch gives the same mass flow for every density |
| `Properties.MassFlowLinear` | ejector_sizing_mobile_charts_discharge.py:25-34 | the conversion is linear in the flow rate for every fluid, and zero flow gives zero mass flow |
| `Properties.MassFlowRoundTrip` | ejector_sizing_mobile_charts_discharge.py:29-34 | `FlowOf` recovers the flow rate from the mass flow and conversely (liquids with nonzero density) |
| `Properties.MassFlowPositive` | ejector_sizing_mobile_charts_discharge.py:29-34 | a positive flow of gas, or of a liquid of positive density, has positive mass flow |
| `Sizing.Accumulated` | ejector_sizing_mobile_charts_discharge.py:66-77 | the loop's accumulators: as many densities as flows, no more than streams, and a zero total when no stream qualified |
| `Sizing.Qualifying` | ejector_sizing_mobile_charts_discharge.py:71-72 | a stream is kept exactly when it is in the input and has a positive flow |
| `Sizing.Accumulate` | ejector_sizing_mobile_charts_discharge.py:66-77 | succeeds exactly when no qualifying stream hits the oil pole, then returns `Accumulated`; otherwise reports the first such stream |
| `Sizing.ThroatArea` | ejector_sizing_mobile_charts_discharge.py:81-83 | the area satisfies continuity, area × ρ × 125 × 86400 = daily mass flow, and is positive exactly when the mass flow is, for positive ρ |
| `Sizing.DiameterOfRoot` | ejector_sizing_mobile_charts_discharge.py:84 | 2·√(A/π) is the diameter of a circle of area A |
| `Sizing.SizeEjector` | ejector_sizing_mobile_charts_discharge.py:65-99 | the oil-pole fault exactly when the loop would raise, at the first such stream; otherwise insufficient input exactly when the guard fails, a zero-density fault exactly when the mean density is 0, a negative-area fault exactly when the area is negative, and else a result: total and unweighted mean of the loop, the throat area, a throat diameter in inches whose circle has that area, a mixing diameter of twice it, the discharge pressure passed through, and chart series of one entry per qualifying stream, all 125 and all the throat diameter |
| `SizingFacts.ComputableIffQualifyingDefined` | ejector_sizing_mobile_charts_discharge.py:71-73 | the loop can fail only at a stream that qualifies |
| `SizingFacts.AccumulatedIsProjection` | ejector_sizing_mobile_charts_discharge.py:70-77 | the total is the sum of the mass flows of the qualifying streams, and the density and flow lists are those of the qualifying streams, in input order |
| `SizingFacts.SameQualifyingSameAccumulation` | ejector_sizing_mobile_charts_discharge.py:70-77 | two inputs with the same qualifying streams give the same accumulators |
| `SizingFacts.ExcludedStreamIsIgnored` | ejector_sizing_mobile_charts_discharge.py:71-72 | inserting a stream with flow ≤ 0 anywhere changes nothing, whatever its kind or API gravity |
| `SizingFacts.NoQualifyingStream` | ejector_sizing_mobile_charts_discharge.py:70-79 | with every flow ≤ 0 the accumulators are empty and the guard fails |
| `SizingFacts.NonZeroTotalHasDensities` | ejector_sizing_mobile_charts_discharge.py:79 | a nonzero total implies a non-empty density list |
| `SizingFacts.DensitiesIgnoreFlowRates` | ejector_sizing_mobile_charts_discharge.py:73-80 | the collected densities, hence the average, do not depend on the flow rates |
| `SizingFacts.MeanBounds` | ejector_sizing_mobile_charts_discharge.py:80 | the average density lies between the smallest and largest collected density |
| `SizingFacts.PositiveDensitiesGiveArea` | ejector_sizing_mobile_charts_discharge.py:79-84 | past the guard, positive densities give a positive mean and a positive throat area |
| `SizingFacts.GasAtZeroPressure` | ejector_sizing_mobile_charts_discharge.py:79-83 | one gas stream at 0 psi passes the guard with a mean density of 0 |
| `SizingFacts.ThroatAreaIncreasing` | ejector_sizing_mobile_charts_discharge.py:82-83 | at a fixed positive density, more mass flow needs strictly more throat area |
| `SizingFacts.CircleAreaIncreasing` | ejector_sizing_mobile_charts_discharge.py:84-85 | for non-negative diameters, larger area exactly when larger diameter |
| `SizingFacts.MixingChamberArea` | ejector_sizing_mobile_charts_discharge.py:86 | the mixing chamber has four times the throat area |
| `SizingFacts.ResultDeterminedByAccumulation` | ejector_sizing_mobile_charts_discharge.py:80-99 | the result is determined by the accumulators up to the discharge pressure it carries |
| `SizingFacts.LargerMassFlowWiderThroat` | ejector_sizing_mobile_charts_discharge.py:82-86 | with the same densities, more mass flow gives strictly wider throat and mixing chamber |
| `SizingFacts.GasAndWaterScenario` | ejector_sizing_mobile_charts_discharge.py:66-80 | 10 MMSCFD of gas at 300 psi with 1000 BPD of water: the exact total, densities, flows and unweighted mean |

## Left out

- Page setup, stream input widgets and the discharge-pressure field (lines 2, 6-9, 36-63): the model takes a sequence of stream records and a discharge pressure instead.
- The button (line 65): `SizeEjector` is the calculation it triggers.
- Display of the results and of the warning (lines 88-93, 105-106): presentation; the warning is the `InsufficientInput` outcome.
- Chart rendering with matplotlib (lines 96-104): a foreign library; only the two series it is given are modelled.
- Floating-point rounding and the two-decimal formatting: all quantities are exact reals, so no float result is reproduced bit for bit.
- `math.sqrt`: Dafny has no real square root, so `SizeEjector` takes `sqrt` as a parameter that must be the square root on the non-negative reals; `math.pi` is its decimal value as a constant.
- Exceptions: the two divisions by zero and the square root of a negative number end the button handler with an error in the code; the model returns them as faults.
- NaN: Python treats a NaN API gravity as truthy; the reals have no NaN.
- Fluid kinds as strings: every string other than "Gas", "Oil" and "Water" is one `Unrecognised` kind.
