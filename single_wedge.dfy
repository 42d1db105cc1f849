/**
 * The original single-region environment: one floodplain wedge protected by
 * two floodwalls, F1 on (0.2, 1.7] and F2 on (1.9, 3.4], with a slope of
 * 0.0085 and a city height of 8.5.
 *
 * The configuration is kept as a one-hot row vector that each step
 * multiplies by the action's 0/1 table. The immediate cost of a step
 * prices the flood at the next configuration, the action taken and the
 * maintenance of the configuration the region had before the action.
 */
module SingleWedge {
  import opened Protection
  import opened Geometry
  import opened Costs
  import opened Water
  import TwoFloodwallCosts

  /** Years before the terminal reward applies, and the reward scale. */
  const Horizon: nat := 39
  const RewardScale: real := 1000000.0

  /** The initial water-level indices (SLR, surge). */
  const InitialSlr: nat := 4
  const InitialSurge: nat := 1

  /** The declared observation count, SLR bins plus surge bins. */
  const ObservationCount: nat := SurgeStates + SlrStates

  /** Fixed geometry of the wedge and the two walls. */
  const Slope: real := 0.0085
  const B1: real := 0.2
  const T1: real := 1.7
  const B2: real := 1.9
  const T2: real := 3.4

  /** The flood damage is multiplied by this factor once, whatever the year. */
  const Gamma: real := 0.97

  /** Height of the wall that every action is charged construction carbon for. */
  const ChargedWallHeight: real := 1.5

  /** The wedge as a two-floodwall region: value 15.3e6, vulnerability 0.07, city height 8.5. */
  const Region: TwoFloodwallCosts.Params :=
    TwoFloodwallCosts.Params(15300000.0, 0.07, Slope, 8.5, B1, T1, B2, T2)

  /** Index of a water state in the flattened (SLR, surge) grid. */
  function GetCombined(slrIndex: nat, surgeIndex: nat): nat {
    SurgeStates * slrIndex + surgeIndex
  }

  /** Water height of the wedge: ten times the SLR value; the surge value is not used. */
  function Height(w: WaterLookup, slrIndex: nat): real {
    w.slr(slrIndex) * 10.0
  }

  /**
   * Flooded area for water height h under each configuration, rule by rule.
   * No configuration floods less than nothing or more than the open wedge,
   * and below F1's base every configuration floods the open wedge.
   */
  function LegacyArea(h: real, system: SystemState): (a: real)
    ensures 0.0 <= a <= Triangle(h, Slope)
    ensures h <= B1 ==> a == Triangle(h, Slope)
  {
    var s := Slope;
    var a :=
      if system == 0 then 0.5 * (1.0 / s) * (h * h)
      else if system == 1 then
        if h > B1 && h <= T1 then 0.5 * B1 * B1 * (1.0 / s) + (h - B1) * B1 * (1.0 / s)
        else 0.5 * (1.0 / s) * (h * h)
      else if system == 2 then
        if h > B2 && h <= T2 then 0.5 * B2 * B2 * (1.0 / s) + (h - B2) * B2 * (1.0 / s)
        else 0.5 * (1.0 / s) * (h * h)
      else if h <= B1 then 0.5 * (1.0 / s) * (h * h)
      else if h > B1 && h <= T1 then 0.5 * (1.0 / s) * (B1 * B1) + (h - B1) * B1 * (1.0 / s)
      else if h > T1 && h <= B2 then 0.5 * (1.0 / s) * (h * h)
      else if h > B2 && h <= T2 then 0.5 * (1.0 / s) * (B2 * B2) + (h - B2) * B2 * (1.0 / s)
      else 0.5 * (1.0 / s) * (h * h);
    InversePositive(s);
    assert 0.0 <= h * h;
    var d1, d2 := h - B1, h - B2;
    WallBandGap(h, B1, s);
    WallBandGap(h, B2, s);
    assert 0.0 <= d1 * d1 && 0.0 <= d2 * d2;
    a
  }

  /** Priced carbon of a flood damage. */
  function FloodDamageGHG(floodDamage: real, sccSum: real): real {
    FloodCarbon(floodDamage) * sccSum
  }

  /** Priced carbon of building a floodwall of the given height. */
  function CarbonConstruction(height: real, sccSum: real): real {
    FloodwallConstructionCarbon(height) * sccSum
  }

  /** Priced carbon of one year of maintenance. */
  function AnnualMaintain(sccSum: real): real {
    FloodwallMaintenanceCarbon() * sccSum
  }

  /** Monetary flood damage of the wedge for water height h: a cost, so never positive. */
  function LegacyDamage(h: real, nextSystem: SystemState): (d: real)
    ensures d <= 0.0
    ensures h == 0.0 ==> d == 0.0
  {
    var area := LegacyArea(h, nextSystem);
    DamageAntitone(Region.Cf(), 0.0, area, Region.VolZ());
    DamageCost(Region.Cf(), area, Region.VolZ()).monetary
  }

  /**
   * The flood part of the immediate cost: money plus priced carbon, times
   * gamma. It is the monetary damage scaled by gamma (1 + 0.000342727 SCC),
   * and so never positive while the SCC is non-negative.
   */
  function FloodTerm(h: real, nextSystem: SystemState, sccSum: real): (t: real)
    ensures t == Gamma * (1.0 + 0.000342727 * sccSum) * LegacyDamage(h, nextSystem)
    ensures sccSum >= 0.0 ==> t <= 0.0
  {
    var cFlood := LegacyDamage(h, nextSystem);
    FloodTermLinear(cFlood, sccSum);
    var t := Gamma * (cFlood + FloodDamageGHG(cFlood, sccSum));
    if sccSum >= 0.0 then
      MulLe(cFlood, 0.0, Gamma * (1.0 + 0.000342727 * sccSum));
      t
    else t
  }

  /**
   * The construction part: the action's price plus the carbon of a 1.5 m
   * wall, for every action. Actions 0 to 2 pay 13800 per wall they build;
   * action 3 is credited 13800 per wall instead.
   */
  function ConstructionTerm(action: LegacyAction, sccSum: real): (t: real)
    ensures action < 3 ==> t == -13800.0 * (Walls(action) as real) + 2.59524 * sccSum
    ensures action == 3 ==> t == 13800.0 * (Walls(action) as real) + 2.59524 * sccSum
  {
    var actionCost :=
      if action == 0 then 0.0
      else if action == 1 || action == 2 then -13800.0
      else -2.0 * -13800.0;
    CarbonRates(0.0, ChargedWallHeight, sccSum);
    actionCost + CarbonConstruction(ChargedWallHeight, sccSum)
  }

  /**
   * The maintenance part, keyed on the configuration before the action:
   * 100 per wall standing, plus the yearly maintenance carbon in every
   * configuration.
   */
  function MaintenanceTerm(oldSystem: SystemState, sccSum: real): (m: real)
    ensures m == -100.0 * (Walls(oldSystem) as real) + 0.034265 * sccSum
  {
    var mainCost :=
      if oldSystem == 0 then 0.0
      else if oldSystem == 1 || oldSystem == 2 then -100.0
      else -2.0 * 100.0;
    CarbonRates(0.0, 0.0, sccSum);
    mainCost + AnnualMaintain(sccSum)
  }

  /** The unscaled reward of one step. */
  function ImmediateCost(w: WaterLookup, slrIndex: nat, surgeIndex: nat, action: LegacyAction,
                         oldSystem: SystemState, nextSystem: SystemState, sccSum: real): real
  {
    FloodTerm(Height(w, slrIndex), nextSystem, sccSum)
    + ConstructionTerm(action, sccSum) + MaintenanceTerm(oldSystem, sccSum)
  }

  /** Number of walls in a configuration. */
  function Walls(s: SystemState): nat {
    (if Includes(s, 1) then 1 else 0) + (if Includes(s, 2) then 1 else 0)
  }

  /** A length-4 vector that is the one-hot vector of its own argmax. */
  predicate IsOneHot(v: seq<int>) {
    |v| == 4 && v == OneHot(ArgMax(v))
  }

  /**
   * The combined index is a bijection between the (SLR, surge) grid and
   * 0 .. 77 * 72 - 1, which is larger than the declared observation count.
   */
  lemma CombinedRoundTrip(slrIndex: nat, surgeIndex: nat)
    requires surgeIndex < SurgeStates
    ensures GetCombined(slrIndex, surgeIndex) / SurgeStates == slrIndex
    ensures GetCombined(slrIndex, surgeIndex) % SurgeStates == surgeIndex
    ensures slrIndex < SlrStates ==> GetCombined(slrIndex, surgeIndex) < SlrStates * SurgeStates
    ensures GetCombined(InitialSlr, InitialSurge) > ObservationCount
  {
    var n := GetCombined(slrIndex, surgeIndex);
    assert n == 72 * slrIndex + surgeIndex;
    if slrIndex < SlrStates {
      assert 72 * slrIndex <= 72 * 76;
    }
  }

  lemma CombinedInjective(slr1: nat, surge1: nat, slr2: nat, surge2: nat)
    requires surge1 < SurgeStates && surge2 < SurgeStates
    ensures GetCombined(slr1, surge1) == GetCombined(slr2, surge2) <==> slr1 == slr2 && surge1 == surge2
  {
    CombinedRoundTrip(slr1, surge1);
    CombinedRoundTrip(slr2, surge2);
  }

  /** The legacy area rules are the two-floodwall calculator's rules for this wedge. */
  lemma LegacyAreaIsTwoFloodwall(h: real, system: SystemState)
    ensures Region.Ordered() && Region.WellDefined()
    ensures LegacyArea(h, system) == TwoFloodwallCosts.FloodArea(Region, h, system)
  {
    var s := Slope;
    assert Triangle(h, s) == 0.5 * (1.0 / s) * (h * h);
    assert WallBand(h, B1, s) == 0.5 * B1 * B1 * (1.0 / s) + (h - B1) * B1 * (1.0 / s);
    assert WallBand(h, B2, s) == 0.5 * B2 * B2 * (1.0 / s) + (h - B2) * B2 * (1.0 / s);
    assert 0.5 * (1.0 / s) * (B1 * B1) == 0.5 * B1 * B1 * (1.0 / s);
    assert 0.5 * (1.0 / s) * (B2 * B2) == 0.5 * B2 * B2 * (1.0 / s);
  }

  /**
   * At one meter of water the open wedge floods 0.5 / 0.0085 (about 58.82);
   * with F1 built, 1.0 lies in (0.2, 1.7] and the area drops to 0.18 / 0.0085
   * (about 21.18); F2 alone does not reach that height and changes nothing.
   */
  lemma OneMeterAreas()
    ensures LegacyArea(1.0, 0) == 0.5 / Slope
    ensures LegacyArea(1.0, 1) == 0.18 / Slope
    ensures LegacyArea(1.0, 2) == LegacyArea(1.0, 0)
    ensures LegacyArea(1.0, 3) == LegacyArea(1.0, 1) < LegacyArea(1.0, 0)
  {
    var k := 1.0 / Slope;
    assert LegacyArea(1.0, 1) == 0.5 * B1 * B1 * k + (1.0 - B1) * B1 * k;
    assert 0.5 * B1 * B1 * k + (1.0 - B1) * B1 * k == 0.18 * k;
  }

  /** The carbon helpers as plain rates times the social cost of carbon. */
  lemma CarbonRates(floodDamage: real, height: real, sccSum: real)
    ensures FloodDamageGHG(floodDamage, sccSum) == 0.000342727 * floodDamage * sccSum
    ensures CarbonConstruction(height, sccSum) == 1.73016 * height * sccSum
    ensures AnnualMaintain(sccSum) == 0.034265 * sccSum
  {
    Rates(floodDamage, height);
  }

  /** The flood term is the monetary damage times a factor that is positive for a non-negative SCC. */
  lemma FloodTermLinear(cFlood: real, sccSum: real)
    ensures Gamma * (cFlood + FloodDamageGHG(cFlood, sccSum)) == Gamma * (1.0 + 0.000342727 * sccSum) * cFlood
    ensures sccSum >= 0.0 ==> Gamma * (1.0 + 0.000342727 * sccSum) > 0.0
  {
    Rates(cFlood, 0.0);
    assert FloodDamageGHG(cFlood, sccSum) == 0.000342727 * cFlood * sccSum;
  }

  /** More walls never make the monetary damage worse: both walls, then one wall, then none. */
  lemma LegacyDamageOrdering(h: real)
    ensures LegacyDamage(h, 3) >= LegacyDamage(h, 1) >= LegacyDamage(h, 0)
    ensures LegacyDamage(h, 3) >= LegacyDamage(h, 2) >= LegacyDamage(h, 0)
  {
    LegacyAreaIsTwoFloodwall(h, 0);
    LegacyAreaIsTwoFloodwall(h, 1);
    LegacyAreaIsTwoFloodwall(h, 2);
    LegacyAreaIsTwoFloodwall(h, 3);
    assert Region.Cf() <= 0.0;
    TwoFloodwallCosts.DamageOrdering(Region, h);
  }

  /** For a non-negative SCC the flood term is non-decreasing in the monetary damage. */
  lemma FloodTermMonotone(m1: real, m2: real, sccSum: real)
    requires m1 <= m2 && sccSum >= 0.0
    ensures Gamma * (m1 + FloodDamageGHG(m1, sccSum)) <= Gamma * (m2 + FloodDamageGHG(m2, sccSum))
  {
    FloodTermLinear(m1, sccSum);
    FloodTermLinear(m2, sccSum);
    MulLe(m1, m2, Gamma * (1.0 + 0.000342727 * sccSum));
  }

  /**
   * With a non-negative social cost of carbon, more walls never make the
   * flood term worse: both walls are at least as good as either wall, and
   * either wall at least as good as none.
   */
  lemma FloodTermOrdering(h: real, sccSum: real)
    requires sccSum >= 0.0
    ensures FloodTerm(h, 3, sccSum) >= FloodTerm(h, 1, sccSum) >= FloodTerm(h, 0, sccSum)
    ensures FloodTerm(h, 3, sccSum) >= FloodTerm(h, 2, sccSum) >= FloodTerm(h, 0, sccSum)
  {
    LegacyDamageOrdering(h);
    FloodTermMonotone(LegacyDamage(h, 0), LegacyDamage(h, 1), sccSum);
    FloodTermMonotone(LegacyDamage(h, 1), LegacyDamage(h, 3), sccSum);
    FloodTermMonotone(LegacyDamage(h, 0), LegacyDamage(h, 2), sccSum);
    FloodTermMonotone(LegacyDamage(h, 2), LegacyDamage(h, 3), sccSum);
  }

  /**
   * Every action, doing nothing included, is charged the carbon of a 1.5 m
   * wall; one wall costs 13800; action 3 adds 27600 instead of charging it.
   */
  lemma ConstructionCharges(action: LegacyAction, sccSum: real)
    ensures action == 0 ==> ConstructionTerm(action, sccSum) == 2.59524 * sccSum
    ensures action == 1 || action == 2 ==> ConstructionTerm(action, sccSum) == -13800.0 + 2.59524 * sccSum
    ensures action == 3 ==> ConstructionTerm(action, sccSum) == 27600.0 + 2.59524 * sccSum
    ensures ConstructionTerm(3, sccSum) > ConstructionTerm(0, sccSum) > ConstructionTerm(1, sccSum)
  {
    CarbonRates(0.0, ChargedWallHeight, sccSum);
  }

  /**
   * The flood never adds to the immediate cost while the SCC is
   * non-negative, so a step costs at least its construction and maintenance
   * parts; without water it costs exactly those.
   */
  lemma ImmediateCostBound(w: WaterLookup, slrIndex: nat, surgeIndex: nat, action: LegacyAction,
                           oldSystem: SystemState, nextSystem: SystemState, sccSum: real)
    ensures var c := ImmediateCost(w, slrIndex, surgeIndex, action, oldSystem, nextSystem, sccSum);
            var rest := ConstructionTerm(action, sccSum) + MaintenanceTerm(oldSystem, sccSum);
            (sccSum >= 0.0 ==> c <= rest) && (Height(w, slrIndex) == 0.0 ==> c == rest)
  {
    var h := Height(w, slrIndex);
    var t := FloodTerm(h, nextSystem, sccSum);
    assert h == 0.0 ==> LegacyDamage(h, nextSystem) == 0.0;
  }

  /** The immediate cost reads neither the surge index nor the surge table. */
  lemma ImmediateCostIgnoresSurge(w1: WaterLookup, w2: WaterLookup, slrIndex: nat, surge1: nat, surge2: nat,
                                  action: LegacyAction, oldSystem: SystemState, nextSystem: SystemState, sccSum: real)
    requires w1.slr == w2.slr
    ensures ImmediateCost(w1, slrIndex, surge1, action, oldSystem, nextSystem, sccSum)
         == ImmediateCost(w2, slrIndex, surge2, action, oldSystem, nextSystem, sccSum)
  {
  }

  /** The product of a one-hot vector with any table is one-hot at the OR of state and action. */
  lemma OneHotStep(v: seq<int>, action: LegacyAction)
    requires IsOneHot(v)
    ensures IsOneHot(VecMat(v, TransitionMatrix(action)))
    ensures ArgMax(VecMat(v, TransitionMatrix(action))) == Or(ArgMax(v), action)
  {
    var k: SystemState := ArgMax(v);
    ProductIsOneHot(k, action);
    ArgMaxOfOneHot(Or(k, action));
  }

  lemma InitialIsOneHot()
    ensures IsOneHot([1, 0, 0, 0]) && ArgMax([1, 0, 0, 0]) == 0
  {
    ArgMaxOfOneHot(0);
    assert OneHot(0) == [1, 0, 0, 0];
  }

  class Environment {
    var year: nat
    /** The water state the next draw starts from: (SLR index, surge index). */
    var state: (nat, nat)
    /** The configuration as a one-hot row vector. */
    var system: seq<int>
    var previousSystem: seq<int>
    const lookup: WaterLookup
    /** Discounted social cost of carbon, one entry per year. */
    const scc: seq<real>
    /** Terminal reward by action, next configuration and combined water index. */
    const terminal: (LegacyAction, SystemState, nat) -> real

    ghost predicate Valid()
      reads this
    {
      IsOneHot(system) && IsOneHot(previousSystem)
    }

    constructor (lookup: WaterLookup, scc: seq<real>, terminal: (LegacyAction, SystemState, nat) -> real)
      ensures Valid()
      ensures year == 0 && state == (InitialSlr, InitialSurge)
      ensures system == [1, 0, 0, 0] && previousSystem == [1, 0, 0, 0]
      ensures this.lookup == lookup && this.scc == scc && this.terminal == terminal
    {
      year := 0;
      state := (InitialSlr, InitialSurge);
      system := [1, 0, 0, 0];
      previousSystem := [1, 0, 0, 0];
      this.lookup := lookup;
      this.scc := scc;
      this.terminal := terminal;
      InitialIsOneHot();
    }

    /**
     * The configuration part of a step: the vector is multiplied by the
     * action's table and the old vector is kept as the previous one.
     */
    method Transition(action: LegacyAction) returns (prev: SystemState, next: SystemState)
      requires Valid()
      modifies this`system, this`previousSystem
      ensures Valid()
      ensures previousSystem == old(system)
      ensures system == VecMat(old(system), TransitionMatrix(action))
      ensures prev == ArgMax(old(system)) && next == ArgMax(system) && next == Or(prev, action)
      ensures state == old(state) && year == old(year)
    {
      prev := ArgMax(system);
      OneHotStep(system, action);
      previousSystem := system;
      system := VecMat(system, TransitionMatrix(action));
      next := ArgMax(system);
    }

    /**
     * One year with the drawn water state (nextSlr, nextSurge). The reward is
     * the immediate cost scaled down by a million, replaced by the scaled
     * terminal reward once the year is past the horizon. The stored water
     * state is not advanced.
     */
    method Step(action: LegacyAction, nextSlr: nat, nextSurge: nat)
      returns (nextState: (nat, nat), reward: real, done: bool)
      requires Valid() && year < |scc|
      requires nextSlr < SlrStates && nextSurge < SurgeStates
      modifies this`system, this`previousSystem, this`year
      ensures Valid()
      ensures previousSystem == old(system)
      ensures system == VecMat(old(system), TransitionMatrix(action))
      ensures ArgMax(system) == Or(ArgMax(old(system)), action)
      ensures state == old(state) && year == old(year) + 1
      ensures nextState == (nextSlr, nextSurge)
      ensures done <==> old(year) > Horizon
      ensures var prev: SystemState := ArgMax(old(system));
              var next := Or(prev, action);
              reward == if old(year) > Horizon
                        then terminal(action, next, GetCombined(nextSlr, nextSurge)) / RewardScale
                        else ImmediateCost(lookup, nextSlr, nextSurge, action, prev, next, scc[old(year)]) / RewardScale
    {
      nextState := (nextSlr, nextSurge);
      var prevSystem, nextSystem := Transition(action);
      var immediate := ImmediateCost(lookup, nextSlr, nextSurge, action, prevSystem, nextSystem, scc[year]);
      reward := immediate / RewardScale;
      var combined := GetCombined(nextSlr, nextSurge);
      if year > Horizon {
        done := true;
        reward := terminal(action, nextSystem, combined) / RewardScale;
      } else {
        done := false;
      }
      year := year + 1;
    }

    /** Back to year 0, the initial water state and no walls; the previous configuration is kept. */
    method Reset() returns (observation: (nat, nat))
      requires Valid()
      modifies this
      ensures Valid()
      ensures year == 0 && state == (InitialSlr, InitialSurge) && system == [1, 0, 0, 0]
      ensures previousSystem == old(previousSystem)
      ensures observation == state
    {
      year := 0;
      state := (InitialSlr, InitialSurge);
      system := [1, 0, 0, 0];
      InitialIsOneHot();
      observation := state;
    }
  }
}
