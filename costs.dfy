/**
 * Cost records and the carbon conversions that every calculator shares.
 *
 * Monetary figures are signed negative for costs. Carbon figures are
 * greenhouse-gas-equivalent amounts that the environment later multiplies
 * by the year's social cost of carbon; no calculator applies it itself.
 */
module Costs {

  /** A monetary amount and its carbon counterpart. */
  datatype Cost = Cost(monetary: real, carbon: real)

  datatype Option<T> = None | Some(value: T)

  /** Floodwall build cost per meter of wall height (a 1.5 m wall costs 13800). */
  const FloodwallCostPerMeter: real := -13800.0 / 1.5

  /** Carbon of flood damage: 445.1 per million of 2007 damage, at 0.77 of the current value. */
  function FloodCarbon(floodDamage: real): real {
    445.1 * ((floodDamage / 1000000.0) * 0.77)
  }

  /** Carbon of building a floodwall of the given height. */
  function FloodwallConstructionCarbon(height: real): real {
    (8000.0 * height) * 0.89 / 1000000.0 * 243.0
  }

  /** Carbon of one year of floodwall maintenance. */
  function FloodwallMaintenanceCarbon(): real {
    100.0 * 0.89 / 1000000.0 * 385.0
  }

  /** Flood damage: the flooded area as a share of the normalising volume, times the (negative) value at risk. */
  function DamageCost(cf: real, area: real, volZ: real): (c: Cost)
    requires volZ != 0.0
    ensures c.carbon == FloodCarbon(c.monetary)
    ensures area == volZ ==> c.monetary == cf
    ensures area == 0.0 ==> c == Cost(0.0, 0.0)
  {
    var monetary := cf * area / volZ;
    Cost(monetary, FloodCarbon(monetary))
  }

  /** The floodwall and flood-carbon rates as plain numbers. */
  lemma Rates(m: real, height: real)
    ensures FloodwallCostPerMeter == -9200.0
    ensures FloodCarbon(m) == 0.000342727 * m
    ensures FloodwallConstructionCarbon(height) == 1.73016 * height
    ensures FloodwallMaintenanceCarbon() == 0.034265
  {
  }

  /** Flood carbon is linear, so scaling a damage scales its carbon by the same factor. */
  lemma FloodCarbonScales(m: real, k: real)
    ensures FloodCarbon(m * k) == FloodCarbon(m) * k
  {
    calc {
      FloodCarbon(m * k);
      0.000342727 * (m * k);
      (0.000342727 * m) * k;
      FloodCarbon(m) * k;
    }
  }

  /**
   * With a non-positive value at risk and a positive normalising volume,
   * less flooded area means a smaller (less negative) damage, in money and in carbon.
   */
  lemma DamageAntitone(cf: real, area1: real, area2: real, volZ: real)
    requires cf <= 0.0 && volZ > 0.0 && area1 <= area2
    ensures DamageCost(cf, area1, volZ).monetary >= DamageCost(cf, area2, volZ).monetary
    ensures DamageCost(cf, area1, volZ).carbon >= DamageCost(cf, area2, volZ).carbon
    ensures DamageCost(cf, area1, volZ).monetary <= 0.0 || area1 < 0.0
  {
    var k := 1.0 / volZ;
    assert k > 0.0;
    assert cf * area1 / volZ == (cf * k) * area1;
    assert cf * area2 / volZ == (cf * k) * area2;
    NonPositiveTimes(cf, k);
    NonPositiveTimes(cf * k, area2 - area1);
    if area1 >= 0.0 {
      NonPositiveTimes(cf * k, area1);
    }
  }

  lemma NonPositiveTimes(x: real, y: real)
    requires x <= 0.0 && y >= 0.0
    ensures x * y <= 0.0
  {
  }
}
