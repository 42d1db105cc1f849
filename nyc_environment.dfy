/**
 * The five-region New York City simulator.
 *
 * Each year every region takes one action (0: do nothing, 1: build the
 * first measure, 2: build the floodwall), its protection configuration
 * advances, the water moves to a new pair of SLR and surge indices, and
 * every region is priced by its own calculator. Regions upslope without
 * a floodwall then push extra flood damage onto their downslope
 * neighbours, and the yearly reward is the discounted sum over regions.
 */
module Nyc {
  import opened Protection
  import opened Geometry
  import opened Costs
  import opened Water
  import TwoFloodwallCosts
  import GreenSpaceCosts
  import SaltMarshCosts

  /** Regions, in the order the simulator iterates over them. */
  type Component = c: nat | c < 5
  const Bronx: Component := 0
  const Manhattan: Component := 1
  const Brooklyn: Component := 2
  const Queens: Component := 3
  const StatenIsland: Component := 4

  const Horizon: nat := 39
  const DiscountFactor: real := 0.97
  const DefaultInteractionFactor: real := 0.20
  const InitialSlr: nat := 4
  const InitialSurge: nat := 1

  /** Lateral flooding runs from the first (higher) region of a pair to the second (lower). */
  const InteractionPairs: seq<(Component, Component)> := [
    (Manhattan, Brooklyn),
    (Manhattan, Bronx),
    (Brooklyn, Queens),
    (Brooklyn, Bronx),
    (Brooklyn, StatenIsland)
  ]

  /**
   * The oyster-reef calculator is not part of this model; Queens is priced
   * by whatever cost functions it is given. `absorption` is None when the
   * calculator offers no carbon uptake.
   */
  datatype ReefModel = ReefModel(
    floodDamage: (nat, nat, SystemState) -> Cost,
    construction: Action -> Cost,
    maintenance: SystemState -> Cost,
    absorption: Option<SystemState -> real>)

  /** The cost calculator a region is priced by. */
  datatype Calculator =
    | TwoFloodwall(twoFloodwall: TwoFloodwallCosts.Params)
    | GreenSpace(greenSpace: GreenSpaceCosts.Params)
    | OysterReef(reef: ReefModel)
    | SaltMarsh(saltMarsh: SaltMarshCosts.Params)
  {
    predicate WellDefined() {
      match this
      case TwoFloodwall(p) => p.WellDefined()
      case GreenSpace(p) => p.WellDefined()
      case OysterReef(_) => true
      case SaltMarsh(p) => p.WellDefined()
    }

    /**
     * Flood damage for the current water indices. The salt-marsh
     * calculator reads its two arguments as meters, and is handed the
     * indices themselves.
     */
    function FloodDamage(w: WaterLookup, slrIndex: nat, surgeIndex: nat, state: SystemState): (r: Cost)
      requires WellDefined()
      ensures !OysterReef? ==> r.carbon == FloodCarbon(r.monetary)
    {
      match this
      case TwoFloodwall(p) => TwoFloodwallCosts.FloodDamage(p, w, slrIndex, surgeIndex, state)
      case GreenSpace(p) => GreenSpaceCosts.FloodDamage(p, w, slrIndex, surgeIndex, state)
      case OysterReef(r) => r.floodDamage(slrIndex, surgeIndex, state)
      case SaltMarsh(p) => SaltMarshCosts.FloodDamage(p, slrIndex as real, surgeIndex as real, state)
    }

    function ConstructionCost(action: Action): Cost {
      match this
      case TwoFloodwall(p) => TwoFloodwallCosts.ConstructionCost(p, action)
      case GreenSpace(p) => GreenSpaceCosts.ConstructionCost(p, action)
      case OysterReef(r) => r.construction(action)
      case SaltMarsh(p) => SaltMarshCosts.ConstructionCost(p, action)
    }

    function MaintenanceCost(state: SystemState): Cost {
      match this
      case TwoFloodwall(p) => TwoFloodwallCosts.MaintenanceCost(p, state)
      case GreenSpace(p) => GreenSpaceCosts.MaintenanceCost(p, state)
      case OysterReef(r) => r.maintenance(state)
      case SaltMarsh(p) => SaltMarshCosts.MaintenanceCost(p, state)
    }

    /** Yearly carbon uptake; zero for a calculator without one. */
    function CarbonUptake(state: SystemState): real {
      match this
      case TwoFloodwall(_) => 0.0
      case GreenSpace(p) => GreenSpaceCosts.CarbonAbsorption(p, state)
      case OysterReef(r) => if r.absorption.Some? then r.absorption.value(state) else 0.0
      case SaltMarsh(p) => SaltMarshCosts.CarbonAbsorption(p, state)
    }
  }

  /**
   * One region's priced year. Carbon fields are already multiplied by the
   * social cost of carbon; the uptake entry is present only when non-zero.
   */
  datatype CostRecord = CostRecord(
    floodDamage: real,
    floodCarbon: real,
    construction: real,
    constructionCarbon: real,
    maintenance: real,
    maintenanceCarbon: real,
    carbonUptake: Option<real>)

  function Uptake(r: CostRecord): real {
    if r.carbonUptake.Some? then r.carbonUptake.value else 0.0
  }

  /** The plain sum of a record's entries. */
  function ComponentTotal(r: CostRecord): real {
    r.floodDamage + r.floodCarbon + r.construction + r.constructionCarbon
    + r.maintenance + r.maintenanceCarbon + Uptake(r)
  }

  function MonetaryTotal(r: CostRecord): real {
    r.floodDamage + r.construction + r.maintenance
  }

  function CarbonTotal(r: CostRecord): real {
    r.floodCarbon + r.constructionCarbon + r.maintenanceCarbon + Uptake(r)
  }

  function Pow(x: real, n: nat): real {
    if n == 0 then 1.0 else x * Pow(x, n - 1)
  }

  /**
   * Discounts the monetary entries of `r` by 0.97^year and adds the carbon
   * entries undiscounted; in year 0 that is the plain total. The total
   * passed in is not used.
   */
  function ApplyDiscount(total: real, r: CostRecord, year: nat): (d: real)
    ensures year == 0 ==> d == ComponentTotal(r)
  {
    MonetaryTotal(r) * Pow(DiscountFactor, year) + CarbonTotal(r)
  }

  /**
   * The year's reward: discounted record totals, summed in region order;
   * in year 0 it is the plain monetary sum plus the carbon sum.
   */
  function TotalReward(rs: seq<CostRecord>, year: nat): (t: real)
    ensures year == 0 ==> t == SumMonetary(rs) + SumCarbon(rs)
    decreases |rs|
  {
    if |rs| == 0 then 0.0
    else
      var last := rs[|rs| - 1];
      TotalReward(rs[..|rs| - 1], year) + ApplyDiscount(ComponentTotal(last), last, year)
  }

  /** One more region added to the year's reward. */
  lemma TotalRewardExtend(rs: seq<CostRecord>, k: nat, year: nat, discounted: real)
    requires k < |rs| && discounted == ApplyDiscount(ComponentTotal(rs[k]), rs[k], year)
    ensures TotalReward(rs[..k + 1], year) == TotalReward(rs[..k], year) + discounted
  {
    assert rs[..k + 1][..k] == rs[..k];
  }

  function SumMonetary(rs: seq<CostRecord>): real
    decreases |rs|
  {
    if |rs| == 0 then 0.0 else SumMonetary(rs[..|rs| - 1]) + MonetaryTotal(rs[|rs| - 1])
  }

  function SumCarbon(rs: seq<CostRecord>): real
    decreases |rs|
  {
    if |rs| == 0 then 0.0 else SumCarbon(rs[..|rs| - 1]) + CarbonTotal(rs[|rs| - 1])
  }

  function LastAction(actions: seq<Action>): Option<Action> {
    if |actions| > 0 then Some(actions[|actions| - 1]) else None
  }

  /**
   * Prices one region: the specification of one iteration of the pricing
   * loop. No recorded action means no construction charge, and the uptake
   * entry is present exactly when the calculator reports a non-zero uptake.
   */
  function ComponentCost(c: Calculator, w: WaterLookup, slrIndex: nat, surgeIndex: nat,
                         state: SystemState, lastAction: Option<Action>, scc: real): (r: CostRecord)
    requires c.WellDefined()
    ensures lastAction.None? ==> r.construction == 0.0 && r.constructionCarbon == 0.0
    ensures r.carbonUptake.Some? <==> c.CarbonUptake(state) != 0.0
  {
    var flood := c.FloodDamage(w, slrIndex, surgeIndex, state);
    var construction := if lastAction.Some? then c.ConstructionCost(lastAction.value) else Cost(0.0, 0.0);
    var maintenance := c.MaintenanceCost(state);
    var uptake := c.CarbonUptake(state);
    var uptakeEntry: Option<real> := if uptake != 0.0 then Some(uptake * scc) else None;
    CostRecord(
      flood.monetary, flood.carbon * scc,
      construction.monetary, construction.carbon * scc,
      maintenance.monetary, maintenance.carbon * scc,
      uptakeEntry)
  }

  predicate AllWellDefined(cs: seq<Calculator>) {
    forall i :: 0 <= i < |cs| ==> cs[i].WellDefined()
  }

  /** Prices every region, one record per region in region order. */
  function PriceAll(cs: seq<Calculator>, w: WaterLookup, slrIndex: nat, surgeIndex: nat,
                    states: seq<SystemState>, histories: seq<seq<Action>>, scc: real): (r: seq<CostRecord>)
    requires |cs| == 5 && |states| == 5 && |histories| == 5 && AllWellDefined(cs)
    ensures |r| == 5
  {
    seq(5, i requires 0 <= i < 5 =>
      ComponentCost(cs[i], w, slrIndex, surgeIndex, states[i], LastAction(histories[i]), scc))
  }

  /**
   * Every region's next configuration: its state OR its action, which
   * NextState shows is what the product-then-argmax transition yields.
   */
  function AdvanceAll(states: seq<SystemState>, actions: seq<Action>): (r: seq<SystemState>)
    requires |states| == 5 && |actions| == 5
    ensures |r| == 5
  {
    seq(5, i requires 0 <= i < 5 => Or(states[i], actions[i]))
  }

  /** Appends one entry to each region's history. */
  function RecordAll<T>(histories: seq<seq<T>>, entries: seq<T>): (r: seq<seq<T>>)
    requires |histories| == 5 && |entries| == 5
    ensures |r| == 5
  {
    seq(5, i requires 0 <= i < 5 => histories[i] + [entries[i]])
  }

  /**
   * Whether a region's critical floodwall stands. Both kinds of region ask
   * the same question: is the floodwall bit of the configuration set.
   */
  function HasCriticalFloodwall(comp: Component, state: SystemState): (r: bool)
    ensures r <==> Includes(state, 2)
  {
    if comp == Bronx || comp == Brooklyn then state == 2 || state == 3
    else state == 2 || state == 3
  }

  /** A downslope region's flood damage and flood carbon, raised by the interaction factor; nothing else changes. */
  function Amplify(r: CostRecord, f: real): (a: CostRecord)
    ensures SameBesidesFlood(a, r)
  {
    r.(floodDamage := r.floodDamage * (1.0 + f), floodCarbon := r.floodCarbon * (1.0 + f))
  }

  /**
   * Lateral flooding, pair by pair: each pair whose upper region lacks its
   * floodwall amplifies the lower region's current record, so amplifications
   * of the same region compound.
   */
  function Interact(costs: seq<CostRecord>, states: seq<SystemState>,
                    pairs: seq<(Component, Component)>, f: real): (r: seq<CostRecord>)
    requires |costs| == 5 && |states| == 5
    ensures |r| == 5
    ensures forall c: Component :: SameBesidesFlood(r[c], costs[c])
    decreases |pairs|
  {
    if |pairs| == 0 then costs
    else
      var high := pairs[0].0;
      var low := pairs[0].1;
      var next := if HasCriticalFloodwall(high, states[high]) then costs else costs[low := Amplify(costs[low], f)];
      Interact(next, states, pairs[1..], f)
  }

  /** How many pairs amplify region c: its unprotected upslope neighbours. */
  function Hits(states: seq<SystemState>, pairs: seq<(Component, Component)>, c: Component): nat
    requires |states| == 5
    decreases |pairs|
  {
    if |pairs| == 0 then 0
    else
      var hit := if pairs[0].1 == c && !HasCriticalFloodwall(pairs[0].0, states[pairs[0].0]) then 1 else 0;
      hit + Hits(states, pairs[1..], c)
  }

  function Unprotected(states: seq<SystemState>, c: Component): nat
    requires |states| == 5
  {
    if HasCriticalFloodwall(c, states[c]) then 0 else 1
  }

  /** Two records that agree on everything except the flood entries. */
  predicate SameBesidesFlood(a: CostRecord, b: CostRecord) {
    && a.construction == b.construction && a.constructionCarbon == b.constructionCarbon
    && a.maintenance == b.maintenance && a.maintenanceCarbon == b.maintenanceCarbon
    && a.carbonUptake == b.carbonUptake
  }

  /** Amplifying once more and then scaling by k is scaling by (1 + f) * k. */
  lemma AmplifyThenScale(r: CostRecord, f: real, k: real, m: real)
    requires m == (1.0 + f) * k
    ensures Amplify(r, f).floodDamage * k == r.floodDamage * m
    ensures Amplify(r, f).floodCarbon * k == r.floodCarbon * m
    ensures SameBesidesFlood(Amplify(r, f), r)
  {
  }

  /** Amplify applied n times. */
  function AmplifyN(r: CostRecord, f: real, n: nat): CostRecord
    decreases n
  {
    if n == 0 then r else AmplifyN(Amplify(r, f), f, n - 1)
  }

  /** n amplifications scale both flood entries by (1 + f)^n and leave the rest alone. */
  lemma {:induction false} AmplifyNScales(r: CostRecord, f: real, n: nat)
    ensures AmplifyN(r, f, n).floodDamage == r.floodDamage * Pow(1.0 + f, n)
    ensures AmplifyN(r, f, n).floodCarbon == r.floodCarbon * Pow(1.0 + f, n)
    ensures SameBesidesFlood(AmplifyN(r, f, n), r)
    decreases n
  {
    if n == 0 {
      assert r.floodDamage * 1.0 == r.floodDamage;
      assert r.floodCarbon * 1.0 == r.floodCarbon;
    } else {
      assert AmplifyN(r, f, n) == AmplifyN(Amplify(r, f), f, n - 1);
      assert Pow(1.0 + f, n) == (1.0 + f) * Pow(1.0 + f, n - 1);
      AmplifyNScales(Amplify(r, f), f, n - 1);
      AmplifyThenScale(r, f, Pow(1.0 + f, n - 1), Pow(1.0 + f, n));
    }
  }

  /**
   * The interaction amplifies region c once per unprotected upslope
   * neighbour; with AmplifyNScales this is its closed form.
   */
  lemma {:induction false} InteractCounts(costs: seq<CostRecord>, states: seq<SystemState>,
                                          pairs: seq<(Component, Component)>, f: real, c: Component)
    requires |costs| == 5 && |states| == 5
    ensures Interact(costs, states, pairs, f)[c] == AmplifyN(costs[c], f, Hits(states, pairs, c))
    decreases |pairs|
  {
    if |pairs| > 0 {
      var high := pairs[0].0;
      var low := pairs[0].1;
      var next := if HasCriticalFloodwall(high, states[high]) then costs else costs[low := Amplify(costs[low], f)];
      assert Interact(costs, states, pairs, f) == Interact(next, states, pairs[1..], f);
      InteractCounts(next, states, pairs[1..], f, c);
      if low == c && !HasCriticalFloodwall(high, states[high]) {
        assert Hits(states, pairs, c) == Hits(states, pairs[1..], c) + 1;
        assert next[c] == Amplify(costs[c], f);
      } else {
        assert Hits(states, pairs, c) == Hits(states, pairs[1..], c);
        assert next[c] == costs[c];
      }
    }
  }

  /** The city's pairs, unfolded: which pair can reach region c. */
  lemma NycHitsUnfold(states: seq<SystemState>, c: Component)
    requires |states| == 5
    ensures Hits(states, InteractionPairs, c)
      == (if c == Brooklyn then Unprotected(states, Manhattan) else 0)
       + (if c == Bronx then Unprotected(states, Manhattan) else 0)
       + (if c == Queens then Unprotected(states, Brooklyn) else 0)
       + (if c == Bronx then Unprotected(states, Brooklyn) else 0)
       + (if c == StatenIsland then Unprotected(states, Brooklyn) else 0)
  {
    var p0 := InteractionPairs;
    var p1 := p0[1..];
    var p2 := p1[1..];
    var p3 := p2[1..];
    var p4 := p3[1..];
    var p5 := p4[1..];
    assert p4 == [(Brooklyn, StatenIsland)];
    assert |p5| == 0;
    var uM := Unprotected(states, Manhattan);
    var uB := Unprotected(states, Brooklyn);
    assert Hits(states, p5, c) == 0;
    assert p4[0] == (Brooklyn, StatenIsland);
    assert Hits(states, p4, c) == (if c == StatenIsland then uB else 0) + Hits(states, p5, c);
    assert p3[0] == (Brooklyn, Bronx);
    assert Hits(states, p3, c) == (if c == Bronx then uB else 0) + Hits(states, p4, c);
    assert p2[0] == (Brooklyn, Queens);
    assert Hits(states, p2, c) == (if c == Queens then uB else 0) + Hits(states, p3, c);
    assert p1[0] == (Manhattan, Bronx);
    assert Hits(states, p1, c) == (if c == Bronx then uM else 0) + Hits(states, p2, c);
    assert p0[0] == (Manhattan, Brooklyn);
    assert Hits(states, p0, c) == (if c == Brooklyn then uM else 0) + Hits(states, p1, c);
  }

  /** Who floods whom in the city. */
  lemma NycHits(states: seq<SystemState>)
    requires |states| == 5
    ensures Hits(states, InteractionPairs, Manhattan) == 0
    ensures Hits(states, InteractionPairs, Brooklyn) == Unprotected(states, Manhattan)
    ensures Hits(states, InteractionPairs, Queens) == Unprotected(states, Brooklyn)
    ensures Hits(states, InteractionPairs, StatenIsland) == Unprotected(states, Brooklyn)
    ensures Hits(states, InteractionPairs, Bronx) == Unprotected(states, Manhattan) + Unprotected(states, Brooklyn)
  {
    NycHitsUnfold(states, Manhattan);
    NycHitsUnfold(states, Brooklyn);
    NycHitsUnfold(states, Queens);
    NycHitsUnfold(states, StatenIsland);
    NycHitsUnfold(states, Bronx);
  }

  /**
   * Manhattan, the highest region, is never amplified; the Bronx, below
   * both Manhattan and Brooklyn, is amplified twice (by 1.44 at the
   * default factor) when neither of them has a floodwall; Brooklyn follows
   * Manhattan, and Queens and Staten Island follow Brooklyn, rising by 1.2
   * when it lacks its floodwall and unchanged when it has one. Flood damage
   * and flood carbon rise together.
   */
  lemma NycInteractions(costs: seq<CostRecord>, states: seq<SystemState>)
    requires |costs| == 5 && |states| == 5
    ensures Interact(costs, states, InteractionPairs, DefaultInteractionFactor)[Manhattan] == costs[Manhattan]
    ensures states[Manhattan] < 2 && states[Brooklyn] < 2 ==>
      && Interact(costs, states, InteractionPairs, DefaultInteractionFactor)[Bronx].floodDamage
        == costs[Bronx].floodDamage * 1.44
      && Interact(costs, states, InteractionPairs, DefaultInteractionFactor)[Bronx].floodCarbon
        == costs[Bronx].floodCarbon * 1.44
    ensures states[Manhattan] >= 2 && states[Brooklyn] >= 2 ==>
      Interact(costs, states, InteractionPairs, DefaultInteractionFactor)[Bronx] == costs[Bronx]
    ensures states[Manhattan] < 2 ==>
      && Interact(costs, states, InteractionPairs, DefaultInteractionFactor)[Brooklyn].floodDamage
        == costs[Brooklyn].floodDamage * 1.2
      && Interact(costs, states, InteractionPairs, DefaultInteractionFactor)[Brooklyn].floodCarbon
        == costs[Brooklyn].floodCarbon * 1.2
    ensures states[Manhattan] >= 2 ==>
      Interact(costs, states, InteractionPairs, DefaultInteractionFactor)[Brooklyn] == costs[Brooklyn]
    ensures states[Brooklyn] < 2 ==>
      && Interact(costs, states, InteractionPairs, DefaultInteractionFactor)[Queens].floodDamage
        == costs[Queens].floodDamage * 1.2
      && Interact(costs, states, InteractionPairs, DefaultInteractionFactor)[Queens].floodCarbon
        == costs[Queens].floodCarbon * 1.2
      && Interact(costs, states, InteractionPairs, DefaultInteractionFactor)[StatenIsland].floodDamage
        == costs[StatenIsland].floodDamage * 1.2
      && Interact(costs, states, InteractionPairs, DefaultInteractionFactor)[StatenIsland].floodCarbon
        == costs[StatenIsland].floodCarbon * 1.2
    ensures states[Brooklyn] >= 2 ==>
      && Interact(costs, states, InteractionPairs, DefaultInteractionFactor)[Queens] == costs[Queens]
      && Interact(costs, states, InteractionPairs, DefaultInteractionFactor)[StatenIsland] == costs[StatenIsland]
  {
    var f := DefaultInteractionFactor;
    NycHits(states);
    InteractCounts(costs, states, InteractionPairs, f, Manhattan);
    InteractCounts(costs, states, InteractionPairs, f, Bronx);
    InteractCounts(costs, states, InteractionPairs, f, Brooklyn);
    InteractCounts(costs, states, InteractionPairs, f, Queens);
    InteractCounts(costs, states, InteractionPairs, f, StatenIsland);
    assert AmplifyN(costs[Bronx], f, 2) == Amplify(Amplify(costs[Bronx], f), f);
    assert AmplifyN(costs[Brooklyn], f, 1) == Amplify(costs[Brooklyn], f);
    assert AmplifyN(costs[Queens], f, 1) == Amplify(costs[Queens], f);
    assert AmplifyN(costs[StatenIsland], f, 1) == Amplify(costs[StatenIsland], f);
  }

  /**
   * For every calculator except the reef (whose costs are given), a
   * record's flood carbon is the flood-carbon rate applied to its flood
   * damage, priced at the social cost of carbon; scaling both by the same
   * factor, as the interaction does, keeps that relation.
   */
  lemma FloodCarbonFollowsDamage(c: Calculator, w: WaterLookup, slrIndex: nat, surgeIndex: nat,
                                 state: SystemState, last: Option<Action>, scc: real, k: real)
    requires c.WellDefined() && !c.OysterReef?
    ensures var r := ComponentCost(c, w, slrIndex, surgeIndex, state, last, scc);
      r.floodCarbon * k == FloodCarbon(r.floodDamage * k) * scc
  {
    var r := ComponentCost(c, w, slrIndex, surgeIndex, state, last, scc);
    RecordFloodCarbon(c, w, slrIndex, surgeIndex, state, last, scc);
    PricedCarbonScales(r.floodDamage, scc, k);
  }

  /** A priced record's flood carbon is the flood-carbon rate of its flood damage, times the SCC. */
  lemma RecordFloodCarbon(c: Calculator, w: WaterLookup, slrIndex: nat, surgeIndex: nat,
                          state: SystemState, last: Option<Action>, scc: real)
    requires c.WellDefined() && !c.OysterReef?
    ensures var r := ComponentCost(c, w, slrIndex, surgeIndex, state, last, scc);
      r.floodCarbon == FloodCarbon(r.floodDamage) * scc
  {
    var flood := c.FloodDamage(w, slrIndex, surgeIndex, state);
    RecordFloodEntries(c, w, slrIndex, surgeIndex, state, last, scc);
    assert flood.carbon == FloodCarbon(flood.monetary);
  }

  /** The flood entries of a priced record are the calculator's, the carbon times the SCC. */
  lemma RecordFloodEntries(c: Calculator, w: WaterLookup, slrIndex: nat, surgeIndex: nat,
                           state: SystemState, last: Option<Action>, scc: real)
    requires c.WellDefined()
    ensures var flood := c.FloodDamage(w, slrIndex, surgeIndex, state);
      var r := ComponentCost(c, w, slrIndex, surgeIndex, state, last, scc);
      r.floodDamage == flood.monetary && r.floodCarbon == flood.carbon * scc
  {
  }

  /** Priced flood carbon scales with the damage. */
  lemma PricedCarbonScales(m: real, scc: real, k: real)
    ensures FloodCarbon(m) * scc * k == FloodCarbon(m * k) * scc
  {
    FloodCarbonScales(m, k);
    assert FloodCarbon(m) * scc * k == FloodCarbon(m) * k * scc;
  }

  /**
   * The uptake entry is present exactly when the calculator reports a
   * non-zero uptake, and no recorded action means no construction charge.
   */
  lemma ComponentCostEntries(c: Calculator, w: WaterLookup, slrIndex: nat, surgeIndex: nat,
                             state: SystemState, last: Option<Action>, scc: real)
    requires c.WellDefined()
    ensures var r := ComponentCost(c, w, slrIndex, surgeIndex, state, last, scc);
      && r.carbonUptake == (if c.CarbonUptake(state) != 0.0 then Some(c.CarbonUptake(state) * scc) else None)
      && r.maintenance == c.MaintenanceCost(state).monetary
      && ComponentTotal(r) == MonetaryTotal(r) + CarbonTotal(r)
  {
  }

  /**
   * Construction is charged for the action just taken even when it does
   * not change the configuration: rebuilding F1 in the Bronx in state 1.
   */
  lemma RepeatedBuildCharged(p: TwoFloodwallCosts.Params, w: WaterLookup, slrIndex: nat, surgeIndex: nat, scc: real)
    requires p.WellDefined() && p.b1 < p.t1
    ensures NextState(1, 1) == 1
    ensures ComponentCost(TwoFloodwall(p), w, slrIndex, surgeIndex, 1, Some(1), scc).construction
      == -9200.0 * (p.t1 - p.b1)
    ensures ComponentCost(TwoFloodwall(p), w, slrIndex, surgeIndex, 1, Some(1), scc).construction < 0.0
  {
    TwoFloodwallCosts.ConstructionByAction(p, 1);
  }

  /**
   * Staten Island's calculator takes the two indices as meters: its
   * damage ignores the value tables and is that of the height
   * slrIndex + surgeIndex.
   */
  lemma StatenIslandReadsIndices(p: SaltMarshCosts.Params, w1: WaterLookup, w2: WaterLookup,
                                 slrIndex: nat, surgeIndex: nat, state: SystemState)
    requires p.WellDefined()
    ensures SaltMarsh(p).FloodDamage(w1, slrIndex, surgeIndex, state)
      == SaltMarsh(p).FloodDamage(w2, slrIndex, surgeIndex, state)
    ensures SaltMarsh(p).FloodDamage(w1, slrIndex, surgeIndex, 0)
      == DamageCost(p.Cf(), Triangle((slrIndex + surgeIndex) as real, p.slope), p.VolZ())
  {
  }

  lemma {:induction false} PowBounds(x: real, n: nat)
    requires 0.0 < x <= 1.0
    ensures 0.0 < Pow(x, n) <= 1.0
  {
    if n > 0 {
      PowBounds(x, n - 1);
      PositiveProduct(x, Pow(x, n - 1));
      MulLe(x, 1.0, Pow(x, n - 1));
    }
  }

  /**
   * The discount touches only money: the discounted total is the plain
   * total less the share (1 - 0.97^year) of the monetary part. It equals
   * the plain total in year 0, never lies below it when the monetary part
   * is a cost, and does not depend on the total it is handed.
   */
  lemma DiscountOnlyMonetary(total: real, other: real, r: CostRecord, year: nat)
    ensures ApplyDiscount(total, r, year)
      == ComponentTotal(r) - (1.0 - Pow(DiscountFactor, year)) * MonetaryTotal(r)
    ensures year == 0 ==> ApplyDiscount(total, r, year) == ComponentTotal(r)
    ensures MonetaryTotal(r) <= 0.0 ==> ApplyDiscount(total, r, year) >= ComponentTotal(r)
    ensures ApplyDiscount(total, r, year) == ApplyDiscount(other, r, year)
  {
    var d := Pow(DiscountFactor, year);
    PowBounds(DiscountFactor, year);
    assert MonetaryTotal(r) * d == MonetaryTotal(r) - (1.0 - d) * MonetaryTotal(r);
    if MonetaryTotal(r) <= 0.0 {
      NonPositiveTimes(MonetaryTotal(r), 1.0 - d);
      assert (1.0 - d) * MonetaryTotal(r) == MonetaryTotal(r) * (1.0 - d);
    }
  }

  /** The year's reward is the discounted monetary sum plus the undiscounted carbon sum. */
  lemma {:induction false} RewardSplit(rs: seq<CostRecord>, year: nat)
    ensures TotalReward(rs, year) == SumMonetary(rs) * Pow(DiscountFactor, year) + SumCarbon(rs)
    ensures year == 0 ==> TotalReward(rs, year) == SumMonetary(rs) + SumCarbon(rs)
    decreases |rs|
  {
    var d := Pow(DiscountFactor, year);
    if |rs| > 0 {
      var init := rs[..|rs| - 1];
      var last := rs[|rs| - 1];
      RewardSplit(init, year);
      assert (SumMonetary(init) + MonetaryTotal(last)) * d == SumMonetary(init) * d + MonetaryTotal(last) * d;
    }
    if year == 0 {
      assert d == 1.0;
      assert SumMonetary(rs) * 1.0 == SumMonetary(rs);
    }
  }

  /**
   * What a step charges for construction: once this year's actions are
   * recorded, each region's construction entry is the charge for its own
   * action, whether or not the action changed its configuration, and the
   * interaction leaves it alone.
   */
  lemma ChosenActionCharged(cs: seq<Calculator>, w: WaterLookup, slrIndex: nat, surgeIndex: nat,
                            states: seq<SystemState>, histories: seq<seq<Action>>, actions: seq<Action>,
                            scc: real, f: real)
    requires |cs| == 5 && |states| == 5 && |histories| == 5 && |actions| == 5 && AllWellDefined(cs)
    ensures forall c: Component ::
      Interact(PriceAll(cs, w, slrIndex, surgeIndex, states, RecordAll(histories, actions), scc),
               states, InteractionPairs, f)[c].construction
        == cs[c].ConstructionCost(actions[c]).monetary
  {
    var priced := PriceAll(cs, w, slrIndex, surgeIndex, states, RecordAll(histories, actions), scc);
    forall c: Component
      ensures Interact(priced, states, InteractionPairs, f)[c].construction
        == cs[c].ConstructionCost(actions[c]).monetary
    {
      InteractCounts(priced, states, InteractionPairs, f, c);
      AmplifyNScales(priced[c], f, Hits(states, InteractionPairs, c));
      assert LastAction(RecordAll(histories, actions)[c]) == Some(actions[c]);
    }
  }

  /** The environment: one protection configuration, action history and cost history per region. */
  class NYCEnvironment {
    var year: nat
    var slrIndex: nat
    var surgeIndex: nat
    var systemStates: seq<SystemState>
    var actionHistory: seq<seq<Action>>
    var costHistory: seq<seq<CostRecord>>
    const calculators: seq<Calculator>
    const lookup: WaterLookup
    /** Social cost of carbon, one entry per year. */
    const scc: seq<real>
    const interactionFactor: real

    ghost predicate Valid()
      reads this
    {
      && |systemStates| == 5 && |actionHistory| == 5 && |costHistory| == 5
      && |calculators| == 5 && AllWellDefined(calculators)
      && ManhattanSlopeLength()
      && slrIndex < SlrStates && surgeIndex < SurgeStates
    }

    /** Manhattan's green space was handed the slope length its band determines. */
    ghost predicate ManhattanSlopeLength()
      reads this
    {
      |calculators| == 5 && calculators[Manhattan].GreenSpace? && calculators[Manhattan].greenSpace.SlopeLength()
    }

    /** Regions in order Bronx, Manhattan, Brooklyn, Queens, Staten Island; the factor defaults to 0.20. */
    constructor (bronx: TwoFloodwallCosts.Params, manhattan: GreenSpaceCosts.Params,
                 brooklyn: TwoFloodwallCosts.Params, queens: ReefModel,
                 statenIsland: SaltMarshCosts.Params,
                 lookup: WaterLookup, scc: seq<real>, interactionFactor: Option<real>)
      requires bronx.WellDefined() && manhattan.WellDefined() && brooklyn.WellDefined()
      requires manhattan.SlopeLength() && statenIsland.WellDefined()
      ensures Valid()
      ensures year == 0 && slrIndex == InitialSlr && surgeIndex == InitialSurge
      ensures systemStates == [0, 0, 0, 0, 0]
      ensures actionHistory == [[], [], [], [], []] && costHistory == [[], [], [], [], []]
      ensures calculators == [TwoFloodwall(bronx), GreenSpace(manhattan), TwoFloodwall(brooklyn),
                              OysterReef(queens), SaltMarsh(statenIsland)]
      ensures this.lookup == lookup && this.scc == scc
      ensures this.interactionFactor
        == if interactionFactor.Some? then interactionFactor.value else DefaultInteractionFactor
    {
      year := 0;
      this.interactionFactor :=
        if interactionFactor.Some? then interactionFactor.value else DefaultInteractionFactor;
      this.lookup := lookup;
      this.scc := scc;
      calculators := [TwoFloodwall(bronx), GreenSpace(manhattan), TwoFloodwall(brooklyn),
                      OysterReef(queens), SaltMarsh(statenIsland)];
      systemStates := [0, 0, 0, 0, 0];
      actionHistory := [[], [], [], [], []];
      costHistory := [[], [], [], [], []];
      slrIndex, surgeIndex := InitialSlr, InitialSurge;
    }

    /**
     * Advances every region's configuration by its action (one-hot vector
     * times the action's matrix, then argmax) and records the action.
     */
    method UpdateSystemStates(actions: seq<Action>)
      requires Valid() && |actions| == 5
      modifies this`systemStates, this`actionHistory
      ensures Valid()
      ensures systemStates == AdvanceAll(old(systemStates), actions)
      ensures forall i :: 0 <= i < 5 ==> systemStates[i] == Or(old(systemStates)[i], actions[i])
      ensures actionHistory == RecordAll(old(actionHistory), actions)
      ensures year == old(year) && slrIndex == old(slrIndex) && surgeIndex == old(surgeIndex)
      ensures costHistory == old(costHistory)
    {
      for i := 0 to 5
        invariant Valid()
        invariant forall k :: 0 <= k < i ==> systemStates[k] == Or(old(systemStates)[k], actions[k])
        invariant forall k :: i <= k < 5 ==> systemStates[k] == old(systemStates)[k]
        invariant forall k :: 0 <= k < i ==> actionHistory[k] == old(actionHistory)[k] + [actions[k]]
        invariant forall k :: i <= k < 5 ==> actionHistory[k] == old(actionHistory)[k]
        invariant year == old(year) && slrIndex == old(slrIndex) && surgeIndex == old(surgeIndex)
        invariant costHistory == old(costHistory)
      {
        var current := systemStates[i];
        var action := actions[i];
        var newSystem: SystemState := ArgMax(VecMat(OneHot(current), TransitionMatrix(action)));
        assert newSystem == NextState(current, action);
        systemStates := systemStates[i := newSystem];
        actionHistory := actionHistory[i := actionHistory[i] + [action]];
      }
    }

    /** Prices every region at the current water indices and configurations. */
    method CalculateComponentCosts() returns (costs: seq<CostRecord>)
      requires Valid() && year < |scc|
      ensures costs == PriceAll(calculators, lookup, slrIndex, surgeIndex, systemStates, actionHistory, scc[year])
    {
      ghost var spec := PriceAll(calculators, lookup, slrIndex, surgeIndex, systemStates, actionHistory, scc[year]);
      costs := [];
      for i := 0 to 5
        invariant |costs| == i
        invariant forall k :: 0 <= k < i ==> costs[k] == spec[k]
      {
        var lastAction := LastAction(actionHistory[i]);
        var record := ComponentCost(calculators[i], lookup, slrIndex, surgeIndex, systemStates[i],
                                    lastAction, scc[year]);
        costs := costs + [record];
      }
    }

    /** Applies lateral flooding to freshly priced records, pair by pair. */
    method ApplySystemInteractions(costs: seq<CostRecord>) returns (modified: seq<CostRecord>)
      requires Valid() && |costs| == 5
      ensures modified == Interact(costs, systemStates, InteractionPairs, interactionFactor)
      ensures forall c: Component :: SameBesidesFlood(modified[c], costs[c])
    {
      modified := costs;
      var pairs := InteractionPairs;
      for k := 0 to |pairs|
        invariant |modified| == 5
        invariant Interact(modified, systemStates, pairs[k..], interactionFactor)
          == Interact(costs, systemStates, pairs, interactionFactor)
      {
        var high := pairs[k].0;
        var low := pairs[k].1;
        assert pairs[k..][0] == pairs[k] && pairs[k..][1..] == pairs[k + 1..];
        if !HasCriticalFloodwall(high, systemStates[high]) {
          modified := modified[low := Amplify(modified[low], interactionFactor)];
        }
      }
      assert pairs[|pairs|..] == [];
    }

    /**
     * The reward loop of a step: sums the discounted totals of the
     * regions in order and appends each region's record to its history.
     */
    method AccumulateReward(modifiedCosts: seq<CostRecord>) returns (totalReward: real)
      requires Valid() && |modifiedCosts| == 5
      modifies this`costHistory
      ensures Valid()
      ensures totalReward == TotalReward(modifiedCosts, year)
      ensures costHistory == RecordAll(old(costHistory), modifiedCosts)
      ensures year == old(year) && slrIndex == old(slrIndex) && surgeIndex == old(surgeIndex)
      ensures systemStates == old(systemStates) && actionHistory == old(actionHistory)
    {
      totalReward := 0.0;
      for k := 0 to 5
        invariant Valid()
        invariant totalReward == TotalReward(modifiedCosts[..k], year)
        invariant forall i :: 0 <= i < k ==> costHistory[i] == old(costHistory)[i] + [modifiedCosts[i]]
        invariant forall i :: k <= i < 5 ==> costHistory[i] == old(costHistory)[i]
        invariant year == old(year) && slrIndex == old(slrIndex) && surgeIndex == old(surgeIndex)
        invariant systemStates == old(systemStates) && actionHistory == old(actionHistory)
      {
        var costs := modifiedCosts[k];
        var compTotal := costs.floodDamage + costs.floodCarbon + costs.construction
          + costs.constructionCarbon + costs.maintenance + costs.maintenanceCarbon;
        if costs.carbonUptake.Some? {
          compTotal := compTotal + costs.carbonUptake.value;
        }
        DiscountOnlyMonetary(compTotal, ComponentTotal(costs), costs, year);
        compTotal := ApplyDiscount(compTotal, costs, year);
        TotalRewardExtend(modifiedCosts, k, year, compTotal);
        totalReward := totalReward + compTotal;
        costHistory := costHistory[k := costHistory[k] + [costs]];
      }
      assert modifiedCosts[..5] == modifiedCosts;
    }

    /** The water moves to the given indices and every region acts. */
    method Advance(actions: seq<Action>, nextSlr: nat, nextSurge: nat)
      requires Valid() && |actions| == 5
      requires nextSlr < SlrStates && nextSurge < SurgeStates
      modifies this`slrIndex, this`surgeIndex, this`systemStates, this`actionHistory
      ensures Valid()
      ensures slrIndex == nextSlr && surgeIndex == nextSurge
      ensures systemStates == AdvanceAll(old(systemStates), actions)
      ensures actionHistory == RecordAll(old(actionHistory), actions)
      ensures year == old(year) && costHistory == old(costHistory)
    {
      slrIndex, surgeIndex := nextSlr, nextSurge;
      UpdateSystemStates(actions);
    }

    /**
     * Prices the regions at the current water and configurations, applies
     * lateral flooding and accumulates the year's reward.
     */
    method Settle() returns (reward: real, modifiedCosts: seq<CostRecord>)
      requires Valid() && year < |scc|
      modifies this`costHistory
      ensures Valid()
      ensures year == old(year) && slrIndex == old(slrIndex) && surgeIndex == old(surgeIndex)
      ensures systemStates == old(systemStates) && actionHistory == old(actionHistory)
      ensures modifiedCosts == Interact(
        PriceAll(calculators, lookup, slrIndex, surgeIndex, systemStates, actionHistory, scc[year]),
        systemStates, InteractionPairs, interactionFactor)
      ensures reward == TotalReward(modifiedCosts, year)
      ensures costHistory == RecordAll(old(costHistory), modifiedCosts)
    {
      var componentCosts := CalculateComponentCosts();
      modifiedCosts := ApplySystemInteractions(componentCosts);
      reward := AccumulateReward(modifiedCosts);
    }

    /**
     * One year: the water moves to the given indices, the regions act and
     * are priced, lateral flooding is applied, and the discounted reward is
     * summed. Each region is charged for the action just taken.
     */
    method Step(actions: seq<Action>, nextSlr: nat, nextSurge: nat)
      returns (reward: real, done: bool, modifiedCosts: seq<CostRecord>)
      requires Valid() && |actions| == 5 && year < |scc|
      requires nextSlr < SlrStates && nextSurge < SurgeStates
      modifies this
      ensures Valid()
      ensures slrIndex == nextSlr && surgeIndex == nextSurge
      ensures systemStates == AdvanceAll(old(systemStates), actions)
      ensures actionHistory == RecordAll(old(actionHistory), actions)
      ensures modifiedCosts == Interact(
        PriceAll(calculators, lookup, nextSlr, nextSurge, systemStates, actionHistory, scc[old(year)]),
        systemStates, InteractionPairs, interactionFactor)
      ensures reward == TotalReward(modifiedCosts, old(year))
      ensures costHistory == RecordAll(old(costHistory), modifiedCosts)
      ensures done <==> old(year) >= Horizon
      ensures year == old(year) + 1
    {
      Advance(actions, nextSlr, nextSurge);
      reward, modifiedCosts := Settle();
      done := year >= Horizon;
      year := year + 1;
    }

    /** Back to year 0, the initial water indices, no protection and empty histories. */
    method Reset() returns (slr: nat, surge: nat, states: seq<SystemState>)
      requires Valid()
      modifies this
      ensures Valid()
      ensures year == 0 && slrIndex == InitialSlr && surgeIndex == InitialSurge
      ensures systemStates == [0, 0, 0, 0, 0]
      ensures actionHistory == [[], [], [], [], []] && costHistory == [[], [], [], [], []]
      ensures slr == slrIndex && surge == surgeIndex && states == systemStates
    {
      year := 0;
      slrIndex, surgeIndex := InitialSlr, InitialSurge;
      for i := 0 to 5
        invariant Valid()
        invariant year == 0 && slrIndex == InitialSlr && surgeIndex == InitialSurge
        invariant forall k :: 0 <= k < i ==> systemStates[k] == 0 && actionHistory[k] == [] && costHistory[k] == []
      {
        systemStates := systemStates[i := 0];
        actionHistory := actionHistory[i := []];
        costHistory := costHistory[i := []];
      }
      slr, surge, states := slrIndex, surgeIndex, [0, 0, 0, 0, 0];
    }
  }
}
