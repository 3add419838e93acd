/** Properties of the aggregation and of the sizing formulas. */
module SizingFacts {
  import opened Wrappers
  import opened Properties
  import opened Sizing

  /** Filtering distributes over concatenation. */
  lemma {:induction false} QualifyingAppend(a: seq<Stream>, b: seq<Stream>)
    ensures Qualifying(a + b) == Qualifying(a) + Qualifying(b)
  {
    if a == [] {
      assert a + b == b;
    } else {
      assert (a + b)[1..] == a[1..] + b;
      QualifyingAppend(a[1..], b);
    }
  }

  /** The aggregation can divide by zero only at a qualifying stream. */
  lemma ComputableIffQualifyingDefined(streams: seq<Stream>)
    ensures Computable(streams) <==> AllDefined(Qualifying(streams))
  {
  }

  lemma ProjectionSnoc(q: seq<Stream>, x: Stream)
    requires AllDefined(q + [x])
    ensures AllDefined(q)
    ensures Projection(q + [x]) == Include(Projection(q), x)
  {
    var q' := q + [x];
    var ms' := seq(|q'|, i requires 0 <= i < |q'| => StreamMassFlow(q'[i]));
    var ms := seq(|q|, i requires 0 <= i < |q| => StreamMassFlow(q[i]));
    assert ms'[..|ms'| - 1] == ms;
    assert Sum(ms') == Sum(ms) + StreamMassFlow(x);
    var ds' := seq(|q'|, i requires 0 <= i < |q'| => StreamDensity(q'[i]));
    var ds := seq(|q|, i requires 0 <= i < |q| => StreamDensity(q[i]));
    assert ds' == ds + [StreamDensity(x)];
    var fs' := seq(|q'|, i requires 0 <= i < |q'| => q'[i].flow);
    var fs := seq(|q|, i requires 0 <= i < |q| => q[i].flow);
    assert fs' == fs + [x.flow];
  }

  /** The loop computes filter-then-map: the total is the sum of the mass
      flows of the qualifying streams, and the densities and flow rates are
      those of the qualifying streams, one entry each, in input order. */
  lemma {:induction false} AccumulatedIsProjection(streams: seq<Stream>)
    requires Computable(streams)
    ensures AllDefined(Qualifying(streams))
    ensures Accumulated(streams) == Projection(Qualifying(streams))
  {
    ComputableIffQualifyingDefined(streams);
    if streams != [] {
      var rest, last := streams[..|streams| - 1], streams[|streams| - 1];
      assert streams == rest + [last];
      assert Computable(rest) by {
        forall i | 0 <= i < |rest| ensures !HitsApiPole(rest[i]) {
          assert rest[i] == streams[i];
        }
      }
      AccumulatedIsProjection(rest);
      QualifyingAppend(rest, [last]);
      assert Qualifying([last]) == if Qualifies(last) then [last] else [];
      if Qualifies(last) {
        ProjectionSnoc(Qualifying(rest), last);
      } else {
        assert Qualifying(streams) == Qualifying(rest);
      }
    }
  }

  /** The aggregation depends only on which streams qualify, in which order. */
  lemma SameQualifyingSameAccumulation(s1: seq<Stream>, s2: seq<Stream>)
    requires Computable(s1)
    requires Qualifying(s1) == Qualifying(s2)
    ensures Computable(s2)
    ensures Accumulated(s1) == Accumulated(s2)
  {
    ComputableIffQualifyingDefined(s1);
    ComputableIffQualifyingDefined(s2);
    AccumulatedIsProjection(s1);
    AccumulatedIsProjection(s2);
  }

  /** A stream without a positive flow contributes nothing wherever it
      stands, whatever its other fields hold. */
  lemma ExcludedStreamIsIgnored(a: seq<Stream>, s: Stream, b: seq<Stream>)
    requires !Qualifies(s)
    requires Computable(a + b)
    ensures Computable(a + [s] + b)
    ensures Accumulated(a + [s] + b) == Accumulated(a + b)
  {
    QualifyingAppend(a, [s]);
    QualifyingAppend(a + [s], b);
    QualifyingAppend(a, b);
    assert Qualifying([s]) == [];
    SameQualifyingSameAccumulation(a + b, a + [s] + b);
  }

  /** Without a stream of positive flow, the sizing has nothing to work with. */
  lemma {:induction false} NoQualifyingStream(streams: seq<Stream>)
    requires forall i | 0 <= i < |streams| :: streams[i].flow <= 0.0
    ensures Computable(streams)
    ensures Accumulated(streams) == Accumulation(0.0, [], [])
    ensures !Proceeds(Accumulated(streams))
  {
    if streams != [] {
      var rest := streams[..|streams| - 1];
      assert forall i | 0 <= i < |rest| :: rest[i] == streams[i];
      NoQualifyingStream(rest);
    }
  }

  /** A total mass flow other than zero implies at least one qualifying
      stream, so the second half of the guard never decides alone. */
  lemma NonZeroTotalHasDensities(streams: seq<Stream>)
    requires Computable(streams)
    requires Accumulated(streams).totalMassFlow != 0.0
    ensures |Accumulated(streams).densities| > 0
    ensures |Qualifying(streams)| > 0
  {
    AccumulatedIsProjection(streams);
  }

  /** The collected densities do not depend on the flow rates: two inputs
      that agree on every stream's kind, pressure and API gravity and on which
      streams qualify collect the same densities, so the average density is
      not weighted by flow. */
  lemma {:induction false} DensitiesIgnoreFlowRates(s1: seq<Stream>, s2: seq<Stream>)
    requires |s1| == |s2|
    requires forall i | 0 <= i < |s1| ::
      s1[i].fluid == s2[i].fluid && s1[i].pressure == s2[i].pressure &&
      s1[i].api == s2[i].api && (Qualifies(s1[i]) <==> Qualifies(s2[i]))
    requires Computable(s1)
    ensures Computable(s2)
    ensures Accumulated(s1).densities == Accumulated(s2).densities
  {
    assert Computable(s2) by {
      forall i | 0 <= i < |s2| ensures !HitsApiPole(s2[i]) {
        assert !HitsApiPole(s1[i]);
      }
    }
    if s1 != [] {
      var r1, r2 := s1[..|s1| - 1], s2[..|s2| - 1];
      assert forall i | 0 <= i < |r1| :: r1[i] == s1[i] && r2[i] == s2[i];
      DensitiesIgnoreFlowRates(r1, r2);
    }
  }

  lemma {:induction false} SumBounds(xs: seq<real>, lo: real, hi: real)
    requires forall i | 0 <= i < |xs| :: lo <= xs[i] <= hi
    ensures (|xs| as real) * lo <= Sum(xs) <= (|xs| as real) * hi
  {
    if xs != [] {
      var init := xs[..|xs| - 1];
      assert forall i | 0 <= i < |init| :: init[i] == xs[i];
      SumBounds(init, lo, hi);
      assert (|xs| as real) * lo == (|init| as real) * lo + lo;
      assert (|xs| as real) * hi == (|init| as real) * hi + hi;
    }
  }

  /** The average density lies between the smallest and the largest density
      collected. */
  lemma MeanBounds(xs: seq<real>, lo: real, hi: real)
    requires xs != []
    requires forall i | 0 <= i < |xs| :: lo <= xs[i] <= hi
    ensures lo <= Mean(xs) <= hi
  {
    SumBounds(xs, lo, hi);
    var n := |xs| as real;
    assert Mean(xs) * n == Sum(xs);
  }

  /** When every collected density is positive, the sizing reaches a result:
      the average density is positive and so is the throat area. */
  lemma PositiveDensitiesGiveArea(acc: Accumulation)
    requires Proceeds(acc)
    requires forall i | 0 <= i < |acc.densities| :: acc.densities[i] > 0.0
    ensures Mean(acc.densities) > 0.0
    ensures ThroatArea(acc.totalMassFlow, Mean(acc.densities)) > 0.0
  {
    var lo := acc.densities[0];
    var hi := acc.densities[0];
    var k := 1;
    while k < |acc.densities|
      invariant 1 <= k <= |acc.densities|
      invariant 0.0 < lo
      invariant forall i | 0 <= i < k :: lo <= acc.densities[i] <= hi
    {
      if acc.densities[k] < lo { lo := acc.densities[k]; }
      if acc.densities[k] > hi { hi := acc.densities[k]; }
      k := k + 1;
    }
    MeanBounds(acc.densities, lo, hi);
  }

  /** A single gas stream at zero pressure passes the guard with an average
      density of zero: the throat-area division is then by zero. */
  lemma GasAtZeroPressure(flow: real, api: Option<real>)
    requires flow > 0.0
    ensures Computable([Stream(Gas, flow, 0.0, api)])
    ensures Proceeds(Accumulated([Stream(Gas, flow, 0.0, api)]))
    ensures Mean(Accumulated([Stream(Gas, flow, 0.0, api)]).densities) == 0.0
  {
    var streams := [Stream(Gas, flow, 0.0, api)];
    assert streams[..0] == [];
    var acc := Accumulated(streams);
    assert acc.densities == [0.0];
    assert Sum([0.0]) == Sum([]) + 0.0;
    MassFlowPositive(Gas, flow, 0.0);
  }

  /** Holding the average density fixed, a larger total mass flow needs a
      strictly larger throat area. */
  lemma ThroatAreaIncreasing(m1: real, m2: real, rho: real)
    requires rho > 0.0 && m1 < m2
    ensures ThroatArea(m1, rho) < ThroatArea(m2, rho)
  {
  }

  lemma ScaleStrict(c: real, x: real, y: real)
    requires c > 0.0
    requires x < y
    ensures c * x < c * y
  {
  }

  lemma SquareIncreasing(x: real, y: real)
    requires 0.0 <= x < y
    ensures x * x < y * y
  {
    calc {
      x * x;
    <= x * y;
    == y * x;
    <  { ScaleStrict(y, x, y); }
      y * y;
    }
  }

  /** Among non-negative diameters, a larger circle area means a larger
      diameter, and conversely. */
  lemma CircleAreaIncreasing(d1: real, d2: real)
    requires d1 >= 0.0 && d2 >= 0.0
    ensures CircleArea(d1) < CircleArea(d2) <==> d1 < d2
  {
    if d1 < d2 {
      calc {
        CircleArea(d1);
        (Pi / 4.0) * (d1 * d1);
      <  { SquareIncreasing(d1, d2); ScaleStrict(Pi / 4.0, d1 * d1, d2 * d2); }
        (Pi / 4.0) * (d2 * d2);
        CircleArea(d2);
      }
    } else if d2 < d1 {
      calc {
        CircleArea(d2);
        (Pi / 4.0) * (d2 * d2);
      <  { SquareIncreasing(d2, d1); ScaleStrict(Pi / 4.0, d2 * d2, d1 * d1); }
        (Pi / 4.0) * (d1 * d1);
        CircleArea(d1);
      }
    }
  }

  /** The mixing chamber, twice the throat diameter, has four times the throat
      area. */
  lemma MixingChamberArea(r: SizingResult, acc: Accumulation, dischargePressure: real)
    requires Describes(r, acc, dischargePressure)
    ensures CircleArea(r.mixingDiameter / InchesPerFoot) == 4.0 * r.throatArea
  {
  }

  /** The result is determined by the accumulators: two results described by
      the same accumulators differ at most in the discharge pressure they
      carry, which enters no formula. */
  lemma ResultDeterminedByAccumulation(r1: SizingResult, r2: SizingResult, acc: Accumulation, p1: real, p2: real)
    requires Describes(r1, acc, p1) && Describes(r2, acc, p2)
    ensures r1 == r2.(dischargePressure := p1)
  {
    CircleAreaIncreasing(r1.throatDiameter / InchesPerFoot, r2.throatDiameter / InchesPerFoot);
    CircleAreaIncreasing(r2.throatDiameter / InchesPerFoot, r1.throatDiameter / InchesPerFoot);
    assert r1.throatDiameter == r2.throatDiameter;
    assert r1.chart.velocities == r2.chart.velocities;
    assert r1.chart.diameters == r2.chart.diameters;
  }

  /** With the same densities, a larger total mass flow gives a strictly wider
      throat and mixing chamber. */
  lemma LargerMassFlowWiderThroat(r1: SizingResult, r2: SizingResult, a1: Accumulation, a2: Accumulation, p1: real, p2: real)
    requires Describes(r1, a1, p1) && Describes(r2, a2, p2)
    requires a1.densities == a2.densities && Mean(a1.densities) > 0.0
    requires a1.totalMassFlow < a2.totalMassFlow
    ensures r1.throatDiameter < r2.throatDiameter
    ensures r1.mixingDiameter < r2.mixingDiameter
  {
    ThroatAreaIncreasing(a1.totalMassFlow, a2.totalMassFlow, Mean(a1.densities));
    CircleAreaIncreasing(r1.throatDiameter / InchesPerFoot, r2.throatDiameter / InchesPerFoot);
  }

  /** A gas motive stream of 10 MMSCFD at 300 psi with a water suction stream
      of 1000 BPD: mass flows of 10·10⁶·18/(10.73·520) and 350376 lbm/day, and
      densities of 300·18/(10.73·520) and 62.4 lb/ft³, averaged unweighted. */
  lemma GasAndWaterScenario()
    ensures var streams := [Stream(Gas, 10.0, 300.0, None), Stream(Water, 1000.0, 0.0, None)];
      && Computable(streams)
      && Accumulated(streams).totalMassFlow == 180000000.0 / 5579.6 + 350376.0
      && Accumulated(streams).densities == [5400.0 / 5579.6, 62.4]
      && Accumulated(streams).flows == [10.0, 1000.0]
      && Mean(Accumulated(streams).densities) == (5400.0 / 5579.6 + 62.4) / 2.0
  {
    var streams := [Stream(Gas, 10.0, 300.0, None), Stream(Water, 1000.0, 0.0, None)];
    assert streams[..1] == [streams[0]];
    assert streams[..1][..0] == [];
    var xs := [5400.0 / 5579.6, 62.4];
    assert xs[..1] == [xs[0]] && [xs[0]][..0] == [];
    assert Sum(xs) == xs[0] + xs[1];
  }
}
