/**
 * Cost calculator for a region protected by a salt marsh and a floodwall.
 *
 * The marsh does not occupy a height band: it attenuates waves, lowering
 * the effective water height by a depth-dependent fraction that can never
 * exceed the surge part of the height. The floodwall occupies the band
 * (b2, t2]. Configuration 0 has neither measure, 1 only the marsh, 2 only
 * the floodwall and 3 both. Water levels are given in meters.
 */
module SaltMarshCosts {
  import opened Protection
  import opened Geometry
  import opened Costs

  /**
   * What the model assumes of the power law x^(-0.974) on (0.1, infinity):
   * it is non-negative and below 0.1^(-0.974), which is about 9.418.
   */
  ghost predicate DecayBounded(decay: real -> real) {
    forall x :: x > 0.1 ==> 0.0 <= decay(x) <= 9.42
  }

  /**
   * Fraction of the height the marsh removes; `decay` stands for
   * x^(-0.974). Shallow water (up to and including 0.1 m) is attenuated by
   * exactly 60%; deeper water by the power law, which stays below that, so
   * the factor is always a fraction in [0, 0.6].
   */
  function WaveAttenuation(h: real, decay: real -> real): (r: real)
    ensures h <= 0.1 ==> r == 0.60
    ensures DecayBounded(decay) ==> 0.0 <= r <= 0.60
  {
    if h <= 0.1 then 0.60 else (6.3398 * decay(h)) / 100.0
  }

  /** Height removed by the marsh: the attenuated share of h, capped at the surge. */
  function HeightReduction(h: real, surge: real, wa: real): (r: real)
    ensures r <= surge && r <= wa * h
    ensures r == surge || r == wa * h
  {
    var reduction := wa * h;
    if reduction >= surge then surge else reduction
  }

  /**
   * Height left after the marsh. For non-negative height and surge and a
   * fraction wa in [0, 1], the marsh never raises the water, never makes it
   * negative and never takes away more than the surge.
   */
  function ReducedHeight(h: real, surge: real, wa: real): (r: real)
    ensures h >= 0.0 && surge >= 0.0 && 0.0 <= wa <= 1.0 ==> 0.0 <= r <= h && h - surge <= r
  {
    if h >= 0.0 && 0.0 <= wa <= 1.0 then
      MulLe(wa, 1.0, h);
      MulLe(0.0, wa, h);
      h - HeightReduction(h, surge, wa)
    else h - HeightReduction(h, surge, wa)
  }

  /** Region parameters; `decay` is the power law used by the wave attenuation. */
  datatype Params = Params(
    exposureValue: real,
    vulnerabilityFactor: real,
    slope: real,
    cityHeight: real,
    marshWidth: real,
    b2: real, t2: real,
    decay: real -> real)
  {
    predicate WellDefined() {
      slope != 0.0 && cityHeight != 0.0
    }

    function Cf(): real {
      -vulnerabilityFactor * exposureValue
    }

    function VolZ(): real
      requires WellDefined()
    {
      NormalisingVolume(cityHeight, slope)
    }

    function H2(): real {
      t2 - b2
    }
  }

  /**
   * Effective height once the marsh has attenuated the water: it lies
   * between the SLR value and the total height.
   */
  function MarshHeight(p: Params, slrValue: real, surgeValue: real): (m: real)
    ensures DecayBounded(p.decay) && surgeValue >= 0.0 && slrValue + surgeValue >= 0.0 ==>
      0.0 <= m <= slrValue + surgeValue && slrValue <= m
  {
    var h := slrValue + surgeValue;
    ReducedHeight(h, surgeValue, WaveAttenuation(h, p.decay))
  }

  /**
   * Flooded area for the water levels (in meters) under each
   * configuration; on a rising floodplain no configuration floods more than
   * the open wedge of the total height.
   */
  function FloodArea(p: Params, slrValue: real, surgeValue: real, state: SystemState): (a: real)
    requires p.slope != 0.0
    ensures p.slope > 0.0 && DecayBounded(p.decay) && surgeValue >= 0.0 && slrValue + surgeValue >= 0.0 ==>
      a <= Triangle(slrValue + surgeValue, p.slope)
  {
    var h := slrValue + surgeValue;
    var m := MarshHeight(p, slrValue, surgeValue);
    var a :=
      if state == 0 then Triangle(h, p.slope)
      else if state == 1 then Triangle(m, p.slope)
      else if state == 2 then WallArea(h, p.b2, p.t2, p.slope)
      else WallArea(m, p.b2, p.t2, p.slope);
    if p.slope > 0.0 then
      LowerHeightBelowWedge(m, h, p.b2, p.t2, p.slope);
      a
    else a
  }

  /** A wall never adds area, and neither does a lower non-negative height. */
  lemma LowerHeightBelowWedge(m: real, h: real, b: real, t: real, s: real)
    requires s > 0.0
    ensures WallArea(h, b, t, s) <= Triangle(h, s)
    ensures 0.0 <= m <= h ==> Triangle(m, s) <= Triangle(h, s) && WallArea(m, b, t, s) <= Triangle(h, s)
  {
    WallAreaBelowTriangle(h, b, t, s);
    if 0.0 <= m <= h {
      TriangleMonotone(m, h, s);
      WallAreaBelowTriangle(m, b, t, s);
    }
  }

  /** Monetary and carbon flood damage for the water levels; the carbon follows the money. */
  function FloodDamage(p: Params, slrValue: real, surgeValue: real, state: SystemState): (r: Cost)
    requires p.WellDefined()
    ensures r.carbon == FloodCarbon(r.monetary)
    ensures FloodArea(p, slrValue, surgeValue, state) == 0.0 ==> r == Cost(0.0, 0.0)
  {
    DamageCost(p.Cf(), FloodArea(p, slrValue, surgeValue, state), p.VolZ())
  }

  /** Carbon of building the marsh (negative: a cost). */
  function MarshConstructionCarbon(p: Params): real {
    -(1.0 / 1000.0) * p.marshWidth
  }

  /** The marsh needs no maintenance and emits no maintenance carbon. */
  function MarshMaintenanceCarbon(): real {
    0.0
  }

  /**
   * One-time cost of an action: the marsh is charged by width, the
   * floodwall by height. Doing nothing is free, and no build earns money
   * when the width and the wall height are non-negative.
   */
  function ConstructionCost(p: Params, action: Action): (r: Cost)
    ensures action == 0 ==> r == Cost(0.0, 0.0)
    ensures p.marshWidth >= 0.0 && p.b2 <= p.t2 ==> r.monetary <= 0.0
  {
    if action == 0 then Cost(0.0, 0.0)
    else if action == 1 then Cost(-1000.0 * p.marshWidth, MarshConstructionCarbon(p))
    else Cost(FloodwallCostPerMeter * p.H2(), FloodwallConstructionCarbon(p.H2()))
  }

  /** Yearly maintenance: only the floodwall costs money. */
  function MaintenanceCost(p: Params, state: SystemState): (r: Cost)
    ensures r.monetary <= 0.0
    ensures r.monetary == 0.0 <==> state == 0 || state == 1
  {
    if state == 0 then Cost(0.0, 0.0)
    else if state == 1 then Cost(0.0, MarshMaintenanceCarbon())
    else if state == 2 then Cost(-100.0, FloodwallMaintenanceCarbon())
    else Cost(-100.0, MarshMaintenanceCarbon() + FloodwallMaintenanceCarbon())
  }

  /**
   * Yearly carbon uptake of the marsh (positive: a benefit): only a
   * configuration with the marsh takes up carbon, and never a negative
   * amount for a non-negative width.
   */
  function CarbonAbsorption(p: Params, state: SystemState): (r: real)
    ensures r != 0.0 ==> state == 1 || state == 3
    ensures p.marshWidth >= 0.0 ==> r >= 0.0
  {
    if state == 1 || state == 3 then 0.44 / 1000.0 * p.marshWidth else 0.0
  }

  /**
   * Neither measure increases the area, and both together are no worse
   * than either alone: the marsh lowers the height that the wall rule,
   * non-decreasing in the height, is then applied to.
   */
  lemma MarshNoWorse(p: Params, slrValue: real, surgeValue: real)
    requires p.slope > 0.0 && 0.0 <= p.b2 && DecayBounded(p.decay)
    requires surgeValue >= 0.0 && slrValue + surgeValue >= 0.0
    ensures FloodArea(p, slrValue, surgeValue, 1) <= FloodArea(p, slrValue, surgeValue, 0)
    ensures FloodArea(p, slrValue, surgeValue, 2) <= FloodArea(p, slrValue, surgeValue, 0)
    ensures FloodArea(p, slrValue, surgeValue, 3) <= FloodArea(p, slrValue, surgeValue, 2)
    ensures FloodArea(p, slrValue, surgeValue, 3) <= FloodArea(p, slrValue, surgeValue, 1)
  {
    var h := slrValue + surgeValue;
    var r := MarshHeight(p, slrValue, surgeValue);
    TriangleMonotone(r, h, p.slope);
    WallAreaBelowTriangle(h, p.b2, p.t2, p.slope);
    WallAreaBelowTriangle(r, p.b2, p.t2, p.slope);
    WallAreaMonotone(r, h, p.b2, p.t2, p.slope);
  }

  /** The same ordering for the monetary damage, given a non-positive value at risk. */
  lemma DamageOrdering(p: Params, slrValue: real, surgeValue: real)
    requires p.slope > 0.0 && p.cityHeight != 0.0 && p.Cf() <= 0.0 && 0.0 <= p.b2 && DecayBounded(p.decay)
    requires surgeValue >= 0.0 && slrValue + surgeValue >= 0.0
    ensures FloodDamage(p, slrValue, surgeValue, 3).monetary >= FloodDamage(p, slrValue, surgeValue, 2).monetary
    ensures FloodDamage(p, slrValue, surgeValue, 3).monetary >= FloodDamage(p, slrValue, surgeValue, 1).monetary
    ensures FloodDamage(p, slrValue, surgeValue, 1).monetary >= FloodDamage(p, slrValue, surgeValue, 0).monetary
    ensures FloodDamage(p, slrValue, surgeValue, 2).monetary >= FloodDamage(p, slrValue, surgeValue, 0).monetary
  {
    var v := p.VolZ();
    InversePositive(p.slope);
    assert v == 0.5 * (p.cityHeight * p.cityHeight) * (1.0 / p.slope);
    assert v > 0.0;
    MarshNoWorse(p, slrValue, surgeValue);
    DamageAntitone(p.Cf(), FloodArea(p, slrValue, surgeValue, 3), FloodArea(p, slrValue, surgeValue, 2), v);
    DamageAntitone(p.Cf(), FloodArea(p, slrValue, surgeValue, 3), FloodArea(p, slrValue, surgeValue, 1), v);
    DamageAntitone(p.Cf(), FloodArea(p, slrValue, surgeValue, 1), FloodArea(p, slrValue, surgeValue, 0), v);
    DamageAntitone(p.Cf(), FloodArea(p, slrValue, surgeValue, 2), FloodArea(p, slrValue, surgeValue, 0), v);
  }

  /** Building the marsh costs 1000 per meter of width; the floodwall 9200 per meter of height; doing nothing is free. */
  lemma ConstructionByAction(p: Params, action: Action)
    ensures action == 0 ==> ConstructionCost(p, action) == Cost(0.0, 0.0)
    ensures action == 1 ==> ConstructionCost(p, action) == Cost(-1000.0 * p.marshWidth, -0.001 * p.marshWidth)
    ensures action == 2 ==> ConstructionCost(p, action) == Cost(-9200.0 * (p.t2 - p.b2), 1.73016 * (p.t2 - p.b2))
  {
    Rates(0.0, p.H2());
  }

  /** Only the floodwall is maintained: the marsh alone is free, and the marsh adds nothing to the wall's charge. */
  lemma MaintenanceFloodwallOnly(p: Params, state: SystemState)
    ensures state == 0 || state == 1 ==> MaintenanceCost(p, state) == Cost(0.0, 0.0)
    ensures state == 2 || state == 3 ==> MaintenanceCost(p, state) == Cost(-100.0, 0.034265)
  {
    Rates(0.0, 0.0);
  }

  /** Carbon is taken up exactly in the configurations with the marsh, at 0.00044 per meter of width. */
  lemma AbsorptionOnlyWithMarsh(p: Params, state: SystemState)
    ensures CarbonAbsorption(p, state) == if state == 1 || state == 3 then 0.00044 * p.marshWidth else 0.0
    ensures p.marshWidth > 0.0 ==> (CarbonAbsorption(p, state) > 0.0 <==> state == 1 || state == 3)
  {
  }
}
