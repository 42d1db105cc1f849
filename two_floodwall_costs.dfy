/**
 * Cost calculator for a region protected by two floodwalls.
 *
 * The lower wall F1 occupies the height band (b1, t1] and the higher wall
 * F2 the band (b2, t2]. Configuration 0 has no wall, 1 only F1, 2 only F2
 * and 3 both.
 */
module TwoFloodwallCosts {
  import opened Protection
  import opened Geometry
  import opened Costs
  import opened Water

  /** Region parameters and the values the calculator derives from them at construction. */
  datatype Params = Params(
    exposureValue: real,
    vulnerabilityFactor: real,
    slope: real,
    cityHeight: real,
    b1: real, t1: real,
    b2: real, t2: real)
  {
    /** The divisions by the slope and by the normalising volume are defined. */
    predicate WellDefined() {
      slope != 0.0 && cityHeight != 0.0
    }

    /** The geometry the area rules are written for: a rising floodplain and F1 below F2. */
    predicate Ordered() {
      slope > 0.0 && 0.0 <= b1 <= t1 <= b2 <= t2
    }

    /** Value at risk, negative because it is a cost. */
    function Cf(): real {
      -vulnerabilityFactor * exposureValue
    }

    /** Normalising volume: the wedge flooded when water reaches the city height. */
    function VolZ(): real
      requires WellDefined()
    {
      NormalisingVolume(cityHeight, slope)
    }

    function H1(): real {
      t1 - b1
    }

    function H2(): real {
      t2 - b2
    }
  }

  /**
   * Flooded area for water height h under each configuration. No
   * configuration floods more than the open wedge, and below F1's base
   * every configuration floods exactly the open wedge.
   */
  function FloodArea(p: Params, h: real, state: SystemState): (a: real)
    requires p.slope != 0.0
    ensures p.slope > 0.0 ==> a <= Triangle(h, p.slope)
    ensures p.Ordered() && h <= p.b1 ==> a == Triangle(h, p.slope)
  {
    var s := p.slope;
    var a :=
      if state == 0 then Triangle(h, s)
      else if state == 1 then WallArea(h, p.b1, p.t1, s)
      else if state == 2 then WallArea(h, p.b2, p.t2, s)
      else if h <= p.b1 then Triangle(h, s)
      else if h > p.b1 && h <= p.t1 then WallBand(h, p.b1, s)
      else if h > p.t1 && h <= p.b2 then Triangle(h, s)
      else if h > p.b2 && h <= p.t2 then WallBand(h, p.b2, s)
      else Triangle(h, s);
    if s > 0.0 then
      WallAreaBelowTriangle(h, p.b1, p.t1, s);
      WallAreaBelowTriangle(h, p.b2, p.t2, s);
      WallBandBelowTriangle(h, p.b1, s);
      WallBandBelowTriangle(h, p.b2, s);
      a
    else a
  }

  /** Monetary and carbon flood damage for water height h; the carbon follows the money. */
  function FloodDamageAt(p: Params, h: real, state: SystemState): (r: Cost)
    requires p.WellDefined()
    ensures r.carbon == FloodCarbon(r.monetary)
    ensures FloodArea(p, h, state) == p.VolZ() ==> r.monetary == p.Cf()
    ensures FloodArea(p, h, state) == 0.0 ==> r == Cost(0.0, 0.0)
  {
    DamageCost(p.Cf(), FloodArea(p, h, state), p.VolZ())
  }

  /**
   * Flood damage for a pair of water-level indices; unprotected water at
   * the city height costs exactly the value at risk.
   */
  function FloodDamage(p: Params, w: WaterLookup, slrIndex: nat, surgeIndex: nat, state: SystemState): (r: Cost)
    requires p.WellDefined()
    ensures r.carbon == FloodCarbon(r.monetary)
    ensures state == 0 && IndexedHeight(w, slrIndex, surgeIndex) == p.cityHeight ==> r.monetary == p.Cf()
  {
    FloodDamageAt(p, IndexedHeight(w, slrIndex, surgeIndex), state)
  }

  /**
   * One-time cost of an action: building F1 or F2 is charged by wall
   * height. Doing nothing is free; with ordered walls a build costs money
   * and emits carbon.
   */
  function ConstructionCost(p: Params, action: Action): (r: Cost)
    ensures action == 0 ==> r == Cost(0.0, 0.0)
    ensures p.Ordered() ==> r.monetary <= 0.0 && r.carbon >= 0.0
  {
    if action == 0 then Cost(0.0, 0.0)
    else if action == 1 then Cost(FloodwallCostPerMeter * p.H1(), FloodwallConstructionCarbon(p.H1()))
    else Cost(FloodwallCostPerMeter * p.H2(), FloodwallConstructionCarbon(p.H2()))
  }

  /** Yearly maintenance: one flat floodwall charge in every configuration with a wall. */
  function MaintenanceCost(p: Params, state: SystemState): (r: Cost)
    ensures r.monetary <= 0.0
    ensures r.monetary == 0.0 <==> state == 0
  {
    if state == 0 then Cost(0.0, 0.0)
    else Cost(-100.0, FloodwallMaintenanceCarbon())
  }

  /**
   * Unprotected damage for a pair of indices: the water height is
   * slr * 0.02 + surge * 0.1 meters and the damage is the value at risk
   * times the squared ratio of that height to the city height.
   */
  lemma UnprotectedDamage(p: Params, w: WaterLookup, slrIndex: nat, surgeIndex: nat)
    requires p.WellDefined()
    ensures var h := IndexedHeight(w, slrIndex, surgeIndex);
      FloodDamage(p, w, slrIndex, surgeIndex, 0).monetary == p.Cf() * (h * h) / (p.cityHeight * p.cityHeight)
  {
    UnprotectedDamageAt(p, IndexedHeight(w, slrIndex, surgeIndex));
  }

  /** Unprotected damage at water height h: the value at risk times the squared ratio of h to the city height. */
  lemma UnprotectedDamageAt(p: Params, h: real)
    requires p.WellDefined()
    ensures FloodDamageAt(p, h, 0).monetary == p.Cf() * (h * h) / (p.cityHeight * p.cityHeight)
  {
    var cf, s, z := p.Cf(), p.slope, p.cityHeight;
    TriangleRatio(cf, h, z, s);
    calc {
      FloodDamageAt(p, h, 0).monetary;
      DamageCost(cf, FloodArea(p, h, 0), p.VolZ()).monetary;
      { assert FloodArea(p, h, 0) == Triangle(h, s) && p.VolZ() == Triangle(z, s); }
      DamageCost(cf, Triangle(h, s), Triangle(z, s)).monetary;
      cf * Triangle(h, s) / Triangle(z, s);
    }
  }

  /** Flooding the whole city height without protection costs exactly the value at risk. */
  lemma FullCityFlood(p: Params)
    requires p.WellDefined()
    ensures FloodDamageAt(p, p.cityHeight, 0).monetary == p.Cf()
  {
    assert FloodArea(p, p.cityHeight, 0) == p.VolZ();
  }

  /**
   * A single wall never increases the area. Inside its band (b < h <= t)
   * it saves exactly 0.5 * (h - b)^2 / slope; outside it the area is the
   * unprotected one, so h == b takes the unprotected branch and h == t the band.
   */
  lemma SingleWallNoWorse(p: Params, h: real)
    requires p.slope > 0.0
    ensures FloodArea(p, h, 1) <= FloodArea(p, h, 0)
    ensures FloodArea(p, h, 2) <= FloodArea(p, h, 0)
    ensures h > p.b1 && h <= p.t1 ==>
      FloodArea(p, h, 0) - FloodArea(p, h, 1) == 0.5 * (1.0 / p.slope) * ((h - p.b1) * (h - p.b1))
    ensures !(h > p.b1 && h <= p.t1) ==> FloodArea(p, h, 1) == FloodArea(p, h, 0)
    ensures h > p.b2 && h <= p.t2 ==>
      FloodArea(p, h, 0) - FloodArea(p, h, 2) == 0.5 * (1.0 / p.slope) * ((h - p.b2) * (h - p.b2))
    ensures !(h > p.b2 && h <= p.t2) ==> FloodArea(p, h, 2) == FloodArea(p, h, 0)
  {
    WallAreaBelowTriangle(h, p.b1, p.t1, p.slope);
    WallAreaBelowTriangle(h, p.b2, p.t2, p.slope);
  }

  /**
   * With F1 below F2, both walls act as F1 on (b1, t1], as F2 on (b2, t2]
   * and as no wall elsewhere, so both are no worse than either one alone.
   */
  lemma BothWalls(p: Params, h: real)
    requires p.Ordered()
    ensures FloodArea(p, h, 3) ==
      if h > p.b1 && h <= p.t1 then FloodArea(p, h, 1)
      else if h > p.b2 && h <= p.t2 then FloodArea(p, h, 2)
      else FloodArea(p, h, 0)
    ensures FloodArea(p, h, 3) <= FloodArea(p, h, 1)
    ensures FloodArea(p, h, 3) <= FloodArea(p, h, 2)
  {
    SingleWallNoWorse(p, h);
  }

  /** For h >= 0 the area of every configuration is non-decreasing in the water height. */
  lemma AreaMonotone(p: Params, state: SystemState, h1: real, h2: real)
    requires p.Ordered() && 0.0 <= h1 <= h2
    ensures FloodArea(p, h1, state) <= FloodArea(p, h2, state)
  {
    var s := p.slope;
    if state == 0 {
      TriangleMonotone(h1, h2, s);
    } else if state == 1 {
      WallAreaMonotone(h1, h2, p.b1, p.t1, s);
    } else if state == 2 {
      WallAreaMonotone(h1, h2, p.b2, p.t2, s);
    } else {
      BothWalls(p, h1);
      BothWalls(p, h2);
      SingleWallNoWorse(p, h1);
      TriangleMonotone(h1, h2, s);
      if h2 > p.b1 && h2 <= p.t1 {
        WallAreaMonotone(h1, h2, p.b1, p.t1, s);
      } else if h2 > p.b2 && h2 <= p.t2 {
        if h1 > p.b1 && h1 <= p.t1 {
          WallAreaBelowTriangle(h1, p.b1, p.t1, s);
          TriangleMonotone(h1, p.b2, s);
          WallBandAtBase(p.b2, s);
        }
        WallAreaMonotone(h1, h2, p.b2, p.t2, s);
      }
    }
  }

  /**
   * Edges of the bands: the area is continuous at each wall base, and at
   * each wall top it sits 0.5 * (t - b)^2 / slope below the unprotected
   * wedge that it returns to just above the top.
   */
  lemma AreaEdges(p: Params)
    requires p.Ordered() && p.b1 < p.t1 && p.b2 < p.t2
    ensures FloodArea(p, p.b1, 1) == FloodArea(p, p.b1, 0) && FloodArea(p, p.b1, 3) == FloodArea(p, p.b1, 0)
    ensures FloodArea(p, p.b2, 2) == FloodArea(p, p.b2, 0)
    ensures p.t1 < p.b2 ==> FloodArea(p, p.b2, 3) == FloodArea(p, p.b2, 0)
    ensures FloodArea(p, p.t1, 0) - FloodArea(p, p.t1, 1) == 0.5 * (1.0 / p.slope) * ((p.t1 - p.b1) * (p.t1 - p.b1))
    ensures FloodArea(p, p.t1, 3) == FloodArea(p, p.t1, 1)
    ensures FloodArea(p, p.t2, 0) - FloodArea(p, p.t2, 2) == 0.5 * (1.0 / p.slope) * ((p.t2 - p.b2) * (p.t2 - p.b2))
    ensures FloodArea(p, p.t2, 3) == FloodArea(p, p.t2, 2)
    ensures forall h :: h > p.t1 && h <= p.b2 ==> FloodArea(p, h, 3) == FloodArea(p, h, 0)
    ensures forall h :: h > p.t2 ==> FloodArea(p, h, 3) == FloodArea(p, h, 0)
  {
    WallAreaEdges(p.b1, p.t1, p.slope);
    WallAreaEdges(p.b2, p.t2, p.slope);
    forall h | h > p.t1 && h <= p.b2
      ensures FloodArea(p, h, 3) == FloodArea(p, h, 0)
    {
    }
    forall h | h > p.t2
      ensures FloodArea(p, h, 3) == FloodArea(p, h, 0)
    {
    }
  }

  /**
   * More protection means less damage: with a non-positive value at risk
   * the damage of both walls is no more negative than that of one wall,
   * and one wall's no more negative than none, in money and in carbon.
   */
  lemma DamageOrdering(p: Params, h: real)
    requires p.Ordered() && p.cityHeight != 0.0 && p.Cf() <= 0.0
    ensures FloodDamageAt(p, h, 3).monetary >= FloodDamageAt(p, h, 1).monetary >= FloodDamageAt(p, h, 0).monetary
    ensures FloodDamageAt(p, h, 3).monetary >= FloodDamageAt(p, h, 2).monetary >= FloodDamageAt(p, h, 0).monetary
    ensures FloodDamageAt(p, h, 3).carbon >= FloodDamageAt(p, h, 1).carbon >= FloodDamageAt(p, h, 0).carbon
    ensures FloodDamageAt(p, h, 3).carbon >= FloodDamageAt(p, h, 2).carbon >= FloodDamageAt(p, h, 0).carbon
  {
    var v := p.VolZ();
    InversePositive(p.slope);
    assert v == 0.5 * (p.cityHeight * p.cityHeight) * (1.0 / p.slope);
    assert v > 0.0;
    BothWalls(p, h);
    SingleWallNoWorse(p, h);
    DamageAntitone(p.Cf(), FloodArea(p, h, 3), FloodArea(p, h, 1), v);
    DamageAntitone(p.Cf(), FloodArea(p, h, 1), FloodArea(p, h, 0), v);
    DamageAntitone(p.Cf(), FloodArea(p, h, 3), FloodArea(p, h, 2), v);
    DamageAntitone(p.Cf(), FloodArea(p, h, 2), FloodArea(p, h, 0), v);
  }

  /** Building F1 or F2 costs 9200 per meter of wall height and emits 1.73016 per meter; doing nothing is free. */
  lemma ConstructionByAction(p: Params, action: Action)
    ensures action == 0 ==> ConstructionCost(p, action) == Cost(0.0, 0.0)
    ensures action == 1 ==> ConstructionCost(p, action) == Cost(-9200.0 * (p.t1 - p.b1), 1.73016 * (p.t1 - p.b1))
    ensures action == 2 ==> ConstructionCost(p, action) == Cost(-9200.0 * (p.t2 - p.b2), 1.73016 * (p.t2 - p.b2))
    ensures p.Ordered() ==> ConstructionCost(p, action).monetary <= 0.0 && ConstructionCost(p, action).carbon >= 0.0
  {
    Rates(0.0, p.H1());
    Rates(0.0, p.H2());
  }

  /** Maintenance is one flat floodwall charge; having both walls does not double it. */
  lemma MaintenanceNotDoubled(p: Params, state: SystemState)
    ensures state == 0 ==> MaintenanceCost(p, state) == Cost(0.0, 0.0)
    ensures state != 0 ==> MaintenanceCost(p, state) == Cost(-100.0, 0.034265)
    ensures MaintenanceCost(p, 3) == MaintenanceCost(p, 1) == MaintenanceCost(p, 2)
  {
    Rates(0.0, 0.0);
  }
}
