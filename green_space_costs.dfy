/**
 * Cost calculator for a region with a fixed seawall, a graded green space
 * and a floodwall.
 *
 * Water up to the seawall crest does no damage. Above it, the green space
 * occupies the band (bGreen, tGreen] and reduces the damage of the water
 * inside that band to 80%; the floodwall occupies (b2, t2] and holds the
 * water back like a wall. Configuration 0 has neither measure, 1 only the
 * green space, 2 only the floodwall and 3 both.
 */
module GreenSpaceCosts {
  import opened Protection
  import opened Geometry
  import opened Costs
  import opened Water

  /** Damage factor outside the green band and inside it. */
  const FullDamage: real := 1.0
  const GreenDamage: real := 0.8

  /**
   * Region parameters. `lGreen` is the slope length of the green space,
   * sqrt(((tGreen - bGreen) / slope)^2 + (tGreen - bGreen)^2), computed by
   * the caller; `SlopeLength` states that relation.
   */
  datatype Params = Params(
    exposureValue: real,
    vulnerabilityFactor: real,
    slope: real,
    cityHeight: real,
    seawallHeight: real,
    bGreen: real, tGreen: real,
    lGreen: real,
    b2: real, t2: real)
  {
    predicate WellDefined() {
      slope != 0.0 && cityHeight != 0.0
    }

    /** The seawall crest lies below the green band, which lies below the floodwall band. */
    predicate Ordered() {
      slope > 0.0 && seawallHeight <= bGreen <= tGreen <= b2 <= t2
    }

    /** `lGreen` is the non-negative square root of the squared slope length. */
    predicate SlopeLength() {
      slope != 0.0 && lGreen >= 0.0 &&
      lGreen * lGreen == ((tGreen - bGreen) / slope) * ((tGreen - bGreen) / slope) + (tGreen - bGreen) * (tGreen - bGreen)
    }

    function Cf(): real {
      -vulnerabilityFactor * exposureValue
    }

    function VolZ(): real
      requires WellDefined()
    {
      NormalisingVolume(cityHeight, slope)
    }

    function H2(): real {
      t2 - b2
    }
  }

  /**
   * Flooded area for water height h under each configuration. Water up to
   * the seawall crest floods nothing, whatever the configuration.
   */
  function FloodArea(p: Params, h: real, state: SystemState): (a: real)
    requires p.slope != 0.0
    ensures h <= p.seawallHeight ==> a == 0.0
  {
    var s := p.slope;
    var sw := p.seawallHeight;
    if state == 0 then
      if h <= sw then Triangle(0.0, s) else Triangle(h - sw, s)
    else if state == 1 then
      if h <= sw then 0.0
      else if h > sw && h <= p.bGreen then FullDamage * Triangle(h - sw, s)
      else if h > p.bGreen && h <= p.tGreen then
        var a1 := Triangle(p.bGreen - sw, s);
        var a2 := Triangle(h - sw, s) - a1;
        a1 * FullDamage + a2 * GreenDamage
      else
        var a1 := Triangle(p.bGreen - sw, s);
        var a2 := Triangle(p.tGreen - sw, s) - a1;
        var a3 := Triangle(h - sw, s) - a1 - a2;
        a1 * FullDamage + a2 * GreenDamage + a3 * FullDamage
    else if state == 2 then
      if h <= sw then 0.0
      else if h > p.b2 && h <= p.t2 then WallBand(h - sw, p.b2 - sw, s)
      else Triangle(h - sw, s)
    else
      if h <= sw then 0.0
      else if h > sw && h <= p.bGreen then FullDamage * Triangle(h - sw, s)
      else if h > p.bGreen && h <= p.tGreen then
        var a1 := Triangle(p.bGreen - sw, s);
        var a2 := Triangle(h - sw, s) - a1;
        a1 * FullDamage + a2 * GreenDamage
      else if h > p.tGreen && h <= p.b2 then
        var a1 := Triangle(p.bGreen - sw, s);
        var a2 := Triangle(p.tGreen - sw, s) - a1;
        var a3 := Triangle(h - sw, s) - a1 - a2;
        a1 * FullDamage + a2 * GreenDamage + a3 * FullDamage
      else if h > p.b2 && h <= p.t2 then
        var a1 := Triangle(p.bGreen - sw, s);
        var a2 := Triangle(p.tGreen - sw, s) - a1;
        var a3 := Triangle(p.b2 - sw, s) - a1 - a2;
        var a4 := (h - p.b2) * (p.b2 - sw) * (1.0 / s);
        a1 * FullDamage + a2 * GreenDamage + a3 * FullDamage + a4 * FullDamage
      else
        var a1 := Triangle(p.bGreen - sw, s);
        var a2 := Triangle(p.tGreen - sw, s) - a1;
        var a3 := Triangle(p.b2 - sw, s) - a1 - a2;
        var a4 := Triangle(h - sw, s) - a1 - a2 - a3;
        a1 * FullDamage + a2 * GreenDamage + a3 * FullDamage + a4 * FullDamage
  }

  /**
   * The unprotected area that lies inside the green band for water height
   * h: nothing below the band, and never negative when the band lies above
   * the seawall on a rising floodplain.
   */
  function GreenBandArea(p: Params, h: real): (g: real)
    requires p.slope != 0.0
    ensures h <= p.bGreen ==> g == 0.0
    ensures p.slope > 0.0 && p.seawallHeight <= p.bGreen <= p.tGreen ==> g >= 0.0
  {
    var top := if h <= p.tGreen then h else p.tGreen;
    if h <= p.bGreen then 0.0
    else if p.slope > 0.0 && p.seawallHeight <= p.bGreen <= p.tGreen then
      TriangleMonotone(p.bGreen - p.seawallHeight, top - p.seawallHeight, p.slope);
      Triangle(top - p.seawallHeight, p.slope) - Triangle(p.bGreen - p.seawallHeight, p.slope)
    else Triangle(top - p.seawallHeight, p.slope) - Triangle(p.bGreen - p.seawallHeight, p.slope)
  }

  /** Monetary and carbon flood damage for water height h; the carbon follows the money. */
  function FloodDamageAt(p: Params, h: real, state: SystemState): (r: Cost)
    requires p.WellDefined()
    ensures r.carbon == FloodCarbon(r.monetary)
    ensures h <= p.seawallHeight ==> r == Cost(0.0, 0.0)
  {
    DamageCost(p.Cf(), FloodArea(p, h, state), p.VolZ())
  }

  /** Flood damage for a pair of water-level indices; water that the seawall holds costs nothing. */
  function FloodDamage(p: Params, w: WaterLookup, slrIndex: nat, surgeIndex: nat, state: SystemState): (r: Cost)
    requires p.WellDefined()
    ensures r.carbon == FloodCarbon(r.monetary)
    ensures IndexedHeight(w, slrIndex, surgeIndex) <= p.seawallHeight ==> r == Cost(0.0, 0.0)
  {
    FloodDamageAt(p, IndexedHeight(w, slrIndex, surgeIndex), state)
  }

  /** Carbon of planting the green space (negative: a cost). */
  function GreenConstructionCarbon(p: Params): real {
    -(1.6 / 1000.0) * p.lGreen
  }

  /** Carbon of one year of green-space maintenance (negative: a cost). */
  function GreenMaintenanceCarbon(p: Params): real {
    -(0.09 / 1000.0) * p.lGreen
  }

  /**
   * One-time cost of an action: the green space is charged by slope
   * length, the floodwall by height. Doing nothing is free, and no build
   * earns money when the length and the wall height are non-negative.
   */
  function ConstructionCost(p: Params, action: Action): (r: Cost)
    ensures action == 0 ==> r == Cost(0.0, 0.0)
    ensures p.lGreen >= 0.0 && p.b2 <= p.t2 ==> r.monetary <= 0.0
  {
    if action == 0 then Cost(0.0, 0.0)
    else if action == 1 then Cost(-25.0 * p.lGreen, GreenConstructionCarbon(p))
    else Cost(FloodwallCostPerMeter * p.H2(), FloodwallConstructionCarbon(p.H2()))
  }

  /**
   * Yearly maintenance of the measures present: nothing without a measure,
   * and at least the flat floodwall charge of 100 whenever the floodwall
   * stands (for a non-negative slope length).
   */
  function MaintenanceCost(p: Params, state: SystemState): (r: Cost)
    ensures state == 0 ==> r == Cost(0.0, 0.0)
    ensures p.lGreen >= 0.0 ==> r.monetary <= 0.0
    ensures p.lGreen >= 0.0 && (state == 2 || state == 3) ==> r.monetary <= -100.0
  {
    if state == 0 then Cost(0.0, 0.0)
    else if state == 1 then Cost(-2.7 * p.lGreen, GreenMaintenanceCarbon(p))
    else if state == 2 then Cost(-100.0, FloodwallMaintenanceCarbon())
    else Cost(-2.7 * p.lGreen - 100.0, GreenMaintenanceCarbon(p) + FloodwallMaintenanceCarbon())
  }

  /**
   * Yearly carbon uptake of the green space (positive: a benefit): only a
   * configuration with the green space takes up carbon, and never a
   * negative amount for a non-negative slope length.
   */
  function CarbonAbsorption(p: Params, state: SystemState): (r: real)
    ensures r != 0.0 ==> state == 1 || state == 3
    ensures p.lGreen >= 0.0 ==> r >= 0.0
  {
    if state == 1 || state == 3 then 0.17 / 1000.0 * p.lGreen else 0.0
  }

  /**
   * The green space only lowers the damage of the water inside its band to
   * 80%: its area is the unprotected area minus a fifth of the band's
   * share, so it is never larger, and above tGreen the saving is constant.
   */
  lemma GreenSpaceSaving(p: Params, h: real)
    requires p.slope > 0.0 && p.seawallHeight <= p.bGreen <= p.tGreen
    ensures h > p.seawallHeight ==> FloodArea(p, h, 1) == FloodArea(p, h, 0) - 0.2 * GreenBandArea(p, h)
    ensures FloodArea(p, h, 1) <= FloodArea(p, h, 0)
    ensures h > p.tGreen ==>
      (FloodArea(p, h, 0) - FloodArea(p, h, 1) ==
       0.2 * (0.5 * (1.0 / p.slope)) * ((p.tGreen - p.seawallHeight) * (p.tGreen - p.seawallHeight)
                                        - (p.bGreen - p.seawallHeight) * (p.bGreen - p.seawallHeight)))
  {
  }

  /**
   * The green-space area is continuous at both band edges: each band term
   * added at an edge is zero there, so the area grows from its edge value
   * by 80% of the wedge increment inside the band and by the full
   * increment above it.
   */
  lemma GreenSpaceContinuity(p: Params, h: real)
    requires p.slope != 0.0 && p.seawallHeight <= p.bGreen <= p.tGreen
    ensures FloodArea(p, p.bGreen, 1) == FloodArea(p, p.bGreen, 0)
    ensures p.bGreen < h <= p.tGreen ==>
      (FloodArea(p, h, 1) - FloodArea(p, p.bGreen, 1) ==
       GreenDamage * (Triangle(h - p.seawallHeight, p.slope) - Triangle(p.bGreen - p.seawallHeight, p.slope)))
    ensures h > p.tGreen ==>
      (FloodArea(p, h, 1) - FloodArea(p, p.tGreen, 1) ==
       Triangle(h - p.seawallHeight, p.slope) - Triangle(p.tGreen - p.seawallHeight, p.slope))
  {
  }

  /**
   * The floodwall never increases the area. Inside its band (and above the
   * seawall) it saves exactly 0.5 * (h - b2)^2 / slope; elsewhere the area
   * is the unprotected one.
   */
  lemma FloodwallSaving(p: Params, h: real)
    requires p.slope > 0.0
    ensures FloodArea(p, h, 2) <= FloodArea(p, h, 0)
    ensures h > p.seawallHeight && h > p.b2 && h <= p.t2 ==>
      FloodArea(p, h, 0) - FloodArea(p, h, 2) == 0.5 * (1.0 / p.slope) * ((h - p.b2) * (h - p.b2))
    ensures !(h > p.b2 && h <= p.t2) ==> FloodArea(p, h, 2) == FloodArea(p, h, 0)
  {
    var sw := p.seawallHeight;
    if h > sw {
      WallBandGap(h - sw, p.b2 - sw, p.slope);
      WallBandBelowTriangle(h - sw, p.b2 - sw, p.slope);
    }
  }

  /**
   * With the bands stacked upwards, both measures act as the green space
   * alone up to b2, and are never worse than either measure alone.
   */
  lemma BothMeasures(p: Params, h: real)
    requires p.Ordered()
    ensures h <= p.b2 ==> FloodArea(p, h, 3) == FloodArea(p, h, 1)
    ensures FloodArea(p, h, 3) <= FloodArea(p, h, 1)
    ensures FloodArea(p, h, 3) <= FloodArea(p, h, 2)
  {
    var sw := p.seawallHeight;
    var s := p.slope;
    if h <= sw {
    } else if h <= p.b2 {
      GreenSpaceSaving(p, h);
      FloodwallSaving(p, h);
    } else {
      // Above b2 both measures take the green band's fifth off the area.
      var a1 := Triangle(p.bGreen - sw, s);
      var saved := 0.2 * (Triangle(p.tGreen - sw, s) - a1);
      TriangleMonotone(p.bGreen - sw, p.tGreen - sw, s);
      assert FloodArea(p, h, 1) == Triangle(h - sw, s) - saved;
      if h <= p.t2 {
        WallBandBelowTriangle(h - sw, p.b2 - sw, s);
        assert FloodArea(p, h, 2) == WallBand(h - sw, p.b2 - sw, s);
        assert FloodArea(p, h, 3) == WallBand(h - sw, p.b2 - sw, s) - saved;
      } else {
        assert FloodArea(p, h, 3) == Triangle(h - sw, s) - saved;
      }
    }
  }

  /**
   * Above the seawall, the floodwall alone is the one-wall rule applied to
   * heights measured from the seawall crest.
   */
  lemma FloodwallIsWallArea(p: Params, h: real)
    requires p.slope != 0.0 && p.seawallHeight <= p.b2 && h >= p.seawallHeight
    ensures FloodArea(p, h, 2) ==
      WallArea(h - p.seawallHeight, p.b2 - p.seawallHeight, p.t2 - p.seawallHeight, p.slope)
  {
  }

  /**
   * At and above tGreen, both measures are the one-wall rule from the
   * seawall crest less the green band's constant fifth.
   */
  lemma BothAboveGreen(p: Params, h: real)
    requires p.Ordered() && h >= p.tGreen
    ensures FloodArea(p, h, 3) ==
      WallArea(h - p.seawallHeight, p.b2 - p.seawallHeight, p.t2 - p.seawallHeight, p.slope)
      - 0.2 * (Triangle(p.tGreen - p.seawallHeight, p.slope) - Triangle(p.bGreen - p.seawallHeight, p.slope))
  {
    var sw := p.seawallHeight;
    var b := p.b2 - sw;
    if h > p.b2 && h <= p.t2 {
      assert (h - sw) - b == h - p.b2;
      assert Triangle(b, p.slope) == 0.5 * b * b * (1.0 / p.slope);
    }
  }

  /**
   * The unprotected area inside the green band grows no faster than the
   * whole unprotected wedge.
   */
  lemma GreenBandGrowth(p: Params, h1: real, h2: real)
    requires p.Ordered() && p.seawallHeight <= h1 <= h2
    ensures GreenBandArea(p, h2) - GreenBandArea(p, h1)
      <= Triangle(h2 - p.seawallHeight, p.slope) - Triangle(h1 - p.seawallHeight, p.slope)
  {
    var sw := p.seawallHeight;
    var s := p.slope;
    var c1 := if h1 <= p.bGreen then p.bGreen else if h1 <= p.tGreen then h1 else p.tGreen;
    var c2 := if h2 <= p.bGreen then p.bGreen else if h2 <= p.tGreen then h2 else p.tGreen;
    assert GreenBandArea(p, h1) == Triangle(c1 - sw, s) - Triangle(p.bGreen - sw, s);
    assert GreenBandArea(p, h2) == Triangle(c2 - sw, s) - Triangle(p.bGreen - sw, s);
    TriangleMonotone(h1 - sw, h2 - sw, s);
    if c1 < c2 {
      TriangleMonotone(h1 - sw, c1 - sw, s);
      TriangleMonotone(c2 - sw, h2 - sw, s);
    }
  }

  /** The green-space area is non-decreasing in the water height above the seawall. */
  lemma GreenSpaceMonotone(p: Params, h1: real, h2: real)
    requires p.Ordered() && p.seawallHeight <= h1 <= h2
    ensures FloodArea(p, h1, 1) <= FloodArea(p, h2, 1)
  {
    var sw := p.seawallHeight;
    GreenSpaceSaving(p, h1);
    GreenSpaceSaving(p, h2);
    assert FloodArea(p, h1, 1) == Triangle(h1 - sw, p.slope) - 0.2 * GreenBandArea(p, h1);
    GreenBandGrowth(p, h1, h2);
    TriangleMonotone(h1 - sw, h2 - sw, p.slope);
  }

  /** Every configuration's area is non-decreasing in the water height above the seawall. */
  lemma AreaMonotoneAbove(p: Params, state: SystemState, h1: real, h2: real)
    requires p.Ordered() && p.seawallHeight <= h1 <= h2
    ensures FloodArea(p, h1, state) <= FloodArea(p, h2, state)
  {
    var sw := p.seawallHeight;
    var s := p.slope;
    if state == 0 {
      TriangleMonotone(h1 - sw, h2 - sw, s);
    } else if state == 1 {
      GreenSpaceMonotone(p, h1, h2);
    } else if state == 2 {
      FloodwallIsWallArea(p, h1);
      FloodwallIsWallArea(p, h2);
      WallAreaMonotone(h1 - sw, h2 - sw, p.b2 - sw, p.t2 - sw, s);
    } else if h2 <= p.b2 {
      BothMeasures(p, h1);
      BothMeasures(p, h2);
      GreenSpaceMonotone(p, h1, h2);
    } else if h1 >= p.tGreen {
      BothAboveGreen(p, h1);
      BothAboveGreen(p, h2);
      WallAreaMonotone(h1 - sw, h2 - sw, p.b2 - sw, p.t2 - sw, s);
    } else {
      // Through tGreen: the green-space rule below it, the one-wall rule above it.
      BothMeasures(p, h1);
      BothMeasures(p, p.tGreen);
      GreenSpaceMonotone(p, h1, p.tGreen);
      BothAboveGreen(p, p.tGreen);
      BothAboveGreen(p, h2);
      WallAreaMonotone(p.tGreen - sw, h2 - sw, p.b2 - sw, p.t2 - sw, s);
    }
  }

  /** More water never floods less, in every configuration. */
  lemma AreaMonotone(p: Params, state: SystemState, h1: real, h2: real)
    requires p.Ordered() && h1 <= h2
    ensures FloodArea(p, h1, state) <= FloodArea(p, h2, state)
  {
    var sw := p.seawallHeight;
    if h2 <= sw {
    } else if h1 < sw {
      AreaMonotoneAbove(p, state, sw, h2);
    } else {
      AreaMonotoneAbove(p, state, h1, h2);
    }
  }

  /** Inside the floodwall band both floodwall configurations grow linearly from their value at b2. */
  lemma FloodwallBandGrowth(p: Params, h: real)
    requires p.Ordered() && p.b2 < h <= p.t2
    ensures FloodArea(p, h, 2) - FloodArea(p, p.b2, 2) == (h - p.b2) * (p.b2 - p.seawallHeight) * (1.0 / p.slope)
    ensures FloodArea(p, h, 3) - FloodArea(p, p.b2, 3) == (h - p.b2) * (p.b2 - p.seawallHeight) * (1.0 / p.slope)
  {
    var sw := p.seawallHeight;
    var b := p.b2 - sw;
    WallAreaEdges(b, p.t2 - sw, p.slope);
    FloodwallIsWallArea(p, p.b2);
    FloodwallIsWallArea(p, h);
    BothAboveGreen(p, p.b2);
    BothAboveGreen(p, h);
    assert (h - sw) - b == h - p.b2;
  }

  /** At t2 the floodwall holds back 0.5 * (t2 - b2)^2 / slope, with or without the green space. */
  lemma FloodwallTopSaving(p: Params)
    requires p.Ordered() && p.b2 < p.t2
    ensures FloodArea(p, p.t2, 0) - FloodArea(p, p.t2, 2) == 0.5 * (1.0 / p.slope) * ((p.t2 - p.b2) * (p.t2 - p.b2))
    ensures FloodArea(p, p.t2, 1) - FloodArea(p, p.t2, 3) == 0.5 * (1.0 / p.slope) * ((p.t2 - p.b2) * (p.t2 - p.b2))
  {
    var sw := p.seawallHeight;
    WallAreaBelowTriangle(p.t2 - sw, p.b2 - sw, p.t2 - sw, p.slope);
    FloodwallIsWallArea(p, p.t2);
    BothAboveGreen(p, p.t2);
    GreenSpaceSaving(p, p.t2);
    assert (p.t2 - sw) - (p.b2 - sw) == p.t2 - p.b2;
  }

  /** Above t2 the floodwall no longer changes the area. */
  lemma AboveFloodwall(p: Params, h: real)
    requires p.Ordered() && h > p.t2
    ensures FloodArea(p, h, 2) == FloodArea(p, h, 0)
    ensures FloodArea(p, h, 3) == FloodArea(p, h, 1)
  {
    FloodwallIsWallArea(p, h);
    BothAboveGreen(p, h);
    GreenSpaceSaving(p, h);
  }

  /**
   * Edges of the floodwall band, with and without the green space: the
   * area leaves b2 continuously and grows linearly inside the band, sits
   * 0.5 * (t2 - b2)^2 / slope below the floodwall-free area at t2, and
   * equals the floodwall-free area above t2.
   */
  lemma AreaEdges(p: Params)
    requires p.Ordered() && p.b2 < p.t2
    ensures forall h :: p.b2 < h <= p.t2 ==>
      FloodArea(p, h, 2) - FloodArea(p, p.b2, 2) == (h - p.b2) * (p.b2 - p.seawallHeight) * (1.0 / p.slope)
    ensures forall h :: p.b2 < h <= p.t2 ==>
      FloodArea(p, h, 3) - FloodArea(p, p.b2, 3) == (h - p.b2) * (p.b2 - p.seawallHeight) * (1.0 / p.slope)
    ensures FloodArea(p, p.t2, 0) - FloodArea(p, p.t2, 2) == 0.5 * (1.0 / p.slope) * ((p.t2 - p.b2) * (p.t2 - p.b2))
    ensures FloodArea(p, p.t2, 1) - FloodArea(p, p.t2, 3) == 0.5 * (1.0 / p.slope) * ((p.t2 - p.b2) * (p.t2 - p.b2))
    ensures forall h :: h > p.t2 ==> FloodArea(p, h, 2) == FloodArea(p, h, 0)
    ensures forall h :: h > p.t2 ==> FloodArea(p, h, 3) == FloodArea(p, h, 1)
  {
    FloodwallTopSaving(p);
    forall h | p.b2 < h <= p.t2
      ensures FloodArea(p, h, 2) - FloodArea(p, p.b2, 2) == (h - p.b2) * (p.b2 - p.seawallHeight) * (1.0 / p.slope)
      ensures FloodArea(p, h, 3) - FloodArea(p, p.b2, 3) == (h - p.b2) * (p.b2 - p.seawallHeight) * (1.0 / p.slope)
    {
      FloodwallBandGrowth(p, h);
    }
    forall h | h > p.t2
      ensures FloodArea(p, h, 2) == FloodArea(p, h, 0)
      ensures FloodArea(p, h, 3) == FloodArea(p, h, 1)
    {
      AboveFloodwall(p, h);
    }
  }

  /**
   * Planting the green space costs 25 per meter of slope length and stores
   * carbon; the floodwall costs 9200 per meter of height; doing nothing is free.
   */
  lemma ConstructionByAction(p: Params, action: Action)
    ensures action == 0 ==> ConstructionCost(p, action) == Cost(0.0, 0.0)
    ensures action == 1 ==> ConstructionCost(p, action) == Cost(-25.0 * p.lGreen, -0.0016 * p.lGreen)
    ensures action == 2 ==> ConstructionCost(p, action) == Cost(-9200.0 * (p.t2 - p.b2), 1.73016 * (p.t2 - p.b2))
  {
    Rates(0.0, p.H2());
  }

  /** Maintenance is additive: both measures cost exactly what the two single measures cost together. */
  lemma MaintenanceAdditive(p: Params)
    ensures MaintenanceCost(p, 0) == Cost(0.0, 0.0)
    ensures MaintenanceCost(p, 1) == Cost(-2.7 * p.lGreen, -0.00009 * p.lGreen)
    ensures MaintenanceCost(p, 2) == Cost(-100.0, 0.034265)
    ensures MaintenanceCost(p, 3).monetary == MaintenanceCost(p, 1).monetary + MaintenanceCost(p, 2).monetary
    ensures MaintenanceCost(p, 3).carbon == MaintenanceCost(p, 1).carbon + MaintenanceCost(p, 2).carbon
  {
    Rates(0.0, 0.0);
  }

  /** Carbon is taken up exactly in the configurations with the green space, at 0.00017 per meter of slope length. */
  lemma AbsorptionOnlyWithGreen(p: Params, state: SystemState)
    ensures CarbonAbsorption(p, state) == if state == 1 || state == 3 then 0.00017 * p.lGreen else 0.0
    ensures p.lGreen > 0.0 ==> (CarbonAbsorption(p, state) > 0.0 <==> state == 1 || state == 3)
    ensures CarbonAbsorption(p, 3) == CarbonAbsorption(p, 1) + CarbonAbsorption(p, 2)
  {
  }

  /** The slope length is at least the height the green space rises. */
  lemma SlopeLengthAtLeastRise(p: Params)
    requires p.SlopeLength()
    ensures p.lGreen >= p.tGreen - p.bGreen
  {
    var d := p.tGreen - p.bGreen;
    var r := d / p.slope;
    assert r * r >= 0.0;
    if p.lGreen < d {
      SquareLe(p.lGreen, d);
      assert p.lGreen * p.lGreen <= d * d;
      if p.lGreen * p.lGreen == d * d {
        assert r * r == 0.0;
      }
      StrictSquare(p.lGreen, d);
    }
  }

  lemma StrictSquare(x: real, y: real)
    requires 0.0 <= x < y
    ensures x * x < y * y
  {
    PositiveProduct(y - x, y + x);
    assert (y - x) * (y + x) == y * y - x * x;
  }
}
