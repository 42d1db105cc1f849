# NYC coastal protection environment, modelled in Dafny

The system is a reinforcement-learning environment for coastal flood
protection in New York City. Five regions (Bronx, Manhattan, Brooklyn,
Queens, Staten Island) each choose one action per year: do nothing, build
the lower or nature-based measure, or build the floodwall. Each region's
protection configuration (0 none, 1 lower measure, 2 floodwall, 3 both)
advances by a one-hot vector times a 0/1 transition table, followed by
argmax. Water is a pair of indices: a sea-level-rise (SLR) bin and a
storm-surge bin.

Every year each region is priced by its own cost calculator:
- two floodwalls (Bronx, Brooklyn);
- seawall, green space and floodwall (Manhattan);
- oyster reef (Queens);
- salt marsh and floodwall (Staten Island).

A price has three parts: flood damage from the flooded area of a sloped
wedge, construction for the action just taken, and yearly maintenance.
Each part has a carbon counterpart priced at the year's social cost of
carbon (SCC), plus an optional carbon uptake. Lateral flooding then raises
the flood entries of a downslope region by 20% for every upslope neighbour
without its floodwall. The year's reward sums every region's total, with
the monetary part discounted by 0.97^year. An older single-region
environment (`Environment`) prices one wedge with two floodwalls directly.

Modules, one per source file plus shared pieces:
- `Protection`: the transition tables, the vector-times-table product, argmax, and the proof that the step is the bitwise OR of state and action.
- `Geometry`: the wedge and wall-band area rules and their monotonicity.
- `Costs`: cost records and the carbon conversions.
- `Water`: the index-to-height lookup.
- `TwoFloodwallCosts`, `GreenSpaceCosts`, `SaltMarshCosts`: the three calculators.
- `Nyc`: the five-region environment, a class whose methods update its state in place.
- `SingleWedge`: the legacy environment, also a class.

All arithmetic is on exact reals.

## Model

| member | source | states |
|---|---|---|
| Protection.ArgMax | nyc_environment.py:296 | the result is the first index holding the largest entry |
| Protection.VecMat | nyc_environment.py:293-295 | the vector-times-table product has four entries, and a one-hot vector for state s times a table is row s of that table |
| Protection.TransitionMatrix | nyc_environment.py:67-80 | each table is 4 by 4, and row s of the table for action a is one-hot at position s OR a |
| Protection.ArgMaxOfOneHot | nyc_environment.py:296 | argmax of the one-hot vector at k is k |
| Protection.NextState | nyc_environment.py:286-300 | the product-then-argmax transition is the bitwise OR of state and action |
| Protection.ProductIsOneHot | single_wedge_2_floodwall_environment.py:59-62 | a one-hot configuration times any table is one-hot at state OR action |
| Protection.TransitionTable | nyc_environment.py:67-80 | action 0 keeps every state; action 1 leads to 1 from 0 and 1, otherwise to 3; action 2 leads to 2 from 0 and 2, otherwise to 3; legacy action 3 always leads to 3 |
| Protection.AbsorbingAndIdempotent | single_wedge_2_floodwall_environment.py:30-33 | state 3 is absorbing, and repeating an action changes nothing |
| Protection.NeverRemoves | nyc_environment.py:67-80 | the next configuration contains the current one and the action's structure |
| Protection.OrderIndependent | nyc_environment.py:67-80 | two actions commute; actions 1 and 2 from state 0 reach 3 in either order |
| Geometry.NormalisingVolume | cost_calculators/two_floodwall_costs.py:30 | the normalising volume is non-zero and equals the open wedge at the city height |
| Geometry.WallBandGap | cost_calculators/two_floodwall_costs.py:66-72 | a wall inside its band saves exactly 0.5 (h - b)^2 / s compared with the open wedge |
| Geometry.WallBandBelowTriangle | cost_calculators/two_floodwall_costs.py:66-72 | the wall-band area never exceeds the open wedge for a positive slope |
| Geometry.WallAreaBelowTriangle | cost_calculators/two_floodwall_costs.py:66-80 | one wall never increases the area; it saves 0.5 (h - b)^2 / s inside its band and nothing outside |
| Geometry.TriangleMonotone | cost_calculators/two_floodwall_costs.py:63-64 | the open wedge grows with the water height for heights of at least 0 |
| Geometry.WallBandMonotone | cost_calculators/two_floodwall_costs.py:67-69 | the wall-band area grows with the water height |
| Geometry.WallBandAtBase | cost_calculators/two_floodwall_costs.py:67-69 | at its base the wall band equals the open wedge |
| Geometry.WallAreaMonotone | cost_calculators/two_floodwall_costs.py:66-80 | the one-wall area is non-decreasing in the water height, across both band edges |
| Geometry.WallAreaEdges | cost_calculators/two_floodwall_costs.py:66-80 | the one-wall area is continuous at the base, linear inside the band, 0.5 (t - b)^2 / s below the wedge at the top, and the wedge above the top |
| Costs.DamageCost | cost_calculators/two_floodwall_costs.py:97-106 | the carbon is the flood carbon of the monetary damage; flooding the normalising volume costs exactly the value at risk; zero area costs nothing |
| Costs.Rates | cost_calculators/two_floodwall_costs.py:149-165 | the flood, construction and maintenance carbon rates as plain numbers; the build rate is 9200 per meter |
| Costs.FloodCarbonScales | cost_calculators/two_floodwall_costs.py:149-153 | flood carbon is linear in the damage |
| Costs.DamageAntitone | cost_calculators/two_floodwall_costs.py:97-101 | with a negative value at risk, less area means a damage that is no more negative, in money and in carbon |
| Water.IndexedHeight | cost_calculators/two_floodwall_costs.py:57-60 | non-negative SLR and surge values give a non-negative water height |
| TwoFloodwallCosts.FloodArea | cost_calculators/two_floodwall_costs.py:62-95 | on a rising floodplain no configuration floods more than the open wedge; below F1's base every configuration floods exactly the open wedge |
| TwoFloodwallCosts.FloodDamageAt | cost_calculators/two_floodwall_costs.py:97-106 | the carbon is the flood carbon of the money; flooding the normalising volume costs exactly the value at risk; no flooded area costs nothing |
| TwoFloodwallCosts.FloodDamage | cost_calculators/two_floodwall_costs.py:42-106 | the carbon follows the money, and unprotected water at the city height costs exactly the value at risk |
| TwoFloodwallCosts.ConstructionCost | cost_calculators/two_floodwall_costs.py:108-133 | doing nothing is free; with ordered walls a build costs money and emits carbon |
| TwoFloodwallCosts.MaintenanceCost | cost_calculators/two_floodwall_costs.py:135-147 | maintenance is never a gain, and is free exactly when no wall stands |
| TwoFloodwallCosts.UnprotectedDamage | cost_calculators/two_floodwall_costs.py:57-64 | unprotected damage is the value at risk times (h / city height)^2, where h = slr * 0.02 + surge * 0.1 |
| TwoFloodwallCosts.UnprotectedDamageAt | cost_calculators/two_floodwall_costs.py:62-64 | at water height h the unprotected damage is the value at risk times (h / city height)^2 |
| TwoFloodwallCosts.FullCityFlood | cost_calculators/two_floodwall_costs.py:29-30 | water at the city height costs exactly the value at risk |
| TwoFloodwallCosts.SingleWallNoWorse | cost_calculators/two_floodwall_costs.py:66-80 | F1 or F2 alone never increases the area; each saves 0.5 (h - b)^2 / s inside its band and nothing outside |
| TwoFloodwallCosts.BothWalls | cost_calculators/two_floodwall_costs.py:82-95 | both walls act as F1 in F1's band, as F2 in F2's band and as no wall elsewhere, so they are no worse than either wall alone |
| TwoFloodwallCosts.AreaMonotone | cost_calculators/two_floodwall_costs.py:62-95 | the area of every configuration is non-decreasing in the water height |
| TwoFloodwallCosts.AreaEdges | cost_calculators/two_floodwall_costs.py:66-95 | the area is continuous at the wall bases, below the wedge at the wall tops, and equal to the wedge between and above the bands |
| TwoFloodwallCosts.DamageOrdering | cost_calculators/two_floodwall_costs.py:62-101 | damage ordering: both walls no worse than one wall, and one wall no worse than none, in money; in carbon, both walls no worse than F2 alone and F2 no worse than none |
| TwoFloodwallCosts.ConstructionByAction | cost_calculators/two_floodwall_costs.py:108-133 | doing nothing is free; building F1 or F2 costs 9200 per meter of its height and emits 1.73016 per meter |
| TwoFloodwallCosts.MaintenanceNotDoubled | cost_calculators/two_floodwall_costs.py:135-147 | any wall costs 100 a year plus maintenance carbon, and both walls cost the same as one |
| GreenSpaceCosts.FloodArea | cost_calculators/green_space_costs.py:67-145 | water up to the seawall crest floods nothing in any configuration |
| GreenSpaceCosts.GreenBandArea | cost_calculators/green_space_costs.py:77-97 | the in-band share is zero up to the band's base and never negative for an ordered band above the seawall |
| GreenSpaceCosts.FloodDamageAt | cost_calculators/green_space_costs.py:147-154 | the carbon is the flood carbon of the money, and water up to the seawall crest costs nothing |
| GreenSpaceCosts.FloodDamage | cost_calculators/green_space_costs.py:49-154 | the same for a pair of water-level indices |
| GreenSpaceCosts.ConstructionCost | cost_calculators/green_space_costs.py:156-181 | doing nothing is free; with a non-negative slope length and an ordered floodwall a build is never a gain |
| GreenSpaceCosts.MaintenanceCost | cost_calculators/green_space_costs.py:183-204 | no structure costs nothing; maintenance is never a gain; any configuration with the floodwall costs at least 100 |
| GreenSpaceCosts.CarbonAbsorption | cost_calculators/green_space_costs.py:206-212 | uptake is non-zero only with the green space, and never negative |
| GreenSpaceCosts.GreenSpaceSaving | cost_calculators/green_space_costs.py:77-97 | the green space removes exactly a fifth of the in-band area, so it is never worse than no protection; above the band the saving is constant |
| GreenSpaceCosts.GreenSpaceContinuity | cost_calculators/green_space_costs.py:77-97 | the green-space area is continuous at both band edges: 80% of the wedge increment inside the band, the full increment above it |
| GreenSpaceCosts.FloodwallSaving | cost_calculators/green_space_costs.py:99-107 | the floodwall never increases the area, saves 0.5 (h - b2)^2 / s inside its band and nothing outside |
| GreenSpaceCosts.BothMeasures | cost_calculators/green_space_costs.py:109-145 | both measures equal the green space alone up to b2, and are no worse than either measure alone |
| GreenSpaceCosts.FloodwallIsWallArea | cost_calculators/green_space_costs.py:99-107 | above the seawall, the floodwall configuration is the one-wall area of the wedge measured from the seawall crest |
| GreenSpaceCosts.BothAboveGreen | cost_calculators/green_space_costs.py:109-145 | above the green band, both measures are the floodwall area less a fifth of the full green band |
| GreenSpaceCosts.GreenBandGrowth | cost_calculators/green_space_costs.py:77-97 | the in-band share never shrinks as the water rises |
| GreenSpaceCosts.GreenSpaceMonotone | cost_calculators/green_space_costs.py:77-97 | the green-space area never shrinks as the water rises above the seawall |
| GreenSpaceCosts.AreaMonotoneAbove | cost_calculators/green_space_costs.py:67-145 | above the seawall, the area of every configuration never shrinks as the water rises |
| GreenSpaceCosts.AreaMonotone | cost_calculators/green_space_costs.py:67-145 | for ordered parameters, the area of every configuration is non-decreasing in the water height |
| GreenSpaceCosts.FloodwallBandGrowth | cost_calculators/green_space_costs.py:99-145 | inside the floodwall band, the floodwall and both-measures areas grow linearly from their value at the band's base |
| GreenSpaceCosts.FloodwallTopSaving | cost_calculators/green_space_costs.py:99-145 | at the floodwall top, the floodwall saves 0.5 (t2 - b2)^2 / s, with or without the green space |
| GreenSpaceCosts.AboveFloodwall | cost_calculators/green_space_costs.py:99-145 | above the floodwall top, the floodwall changes nothing, with or without the green space |
| GreenSpaceCosts.AreaEdges | cost_calculators/green_space_costs.py:99-145 | the area is linear inside the floodwall band, below the wedge at the floodwall top, and unchanged by the floodwall above it |
| GreenSpaceCosts.ConstructionByAction | cost_calculators/green_space_costs.py:156-181 | the green space costs 25 per meter of slope length and emits -0.0016 per meter; the floodwall costs 9200 per meter of height; doing nothing is free |
| GreenSpaceCosts.MaintenanceAdditive | cost_calculators/green_space_costs.py:183-204 | maintenance per configuration; both measures cost exactly the sum of the two single measures, in money and carbon |
| GreenSpaceCosts.AbsorptionOnlyWithGreen | cost_calculators/green_space_costs.py:206-212 | uptake is 0.00017 per meter of slope length exactly in configurations 1 and 3, and zero otherwise |
| GreenSpaceCosts.SlopeLengthAtLeastRise | cost_calculators/green_space_costs.py:41-42 | the slope length, as the square root of the squared run plus the squared rise, is at least the rise |
| SaltMarshCosts.HeightReduction | cost_calculators/salt_marsh_costs.py:76-81 | the removed height is the attenuated height capped at the surge: no more than either, and equal to one of them |
| SaltMarshCosts.WaveAttenuation | cost_calculators/salt_marsh_costs.py:5-18 | water up to 0.1 m is attenuated by exactly 60%, and for a bounded power law the factor always lies in [0, 0.6] |
| SaltMarshCosts.ReducedHeight | cost_calculators/salt_marsh_costs.py:76-81 | the reduced height is never negative, never above the water height, and never lower by more than the surge |
| SaltMarshCosts.MarshHeight | cost_calculators/salt_marsh_costs.py:67-81 | the height after the marsh lies between the SLR value and the total height |
| SaltMarshCosts.FloodArea | cost_calculators/salt_marsh_costs.py:67-105 | on a rising floodplain no configuration floods more than the open wedge of the total height |
| SaltMarshCosts.LowerHeightBelowWedge | cost_calculators/salt_marsh_costs.py:82-105 | a wall never adds area, and neither does a lower non-negative height |
| SaltMarshCosts.FloodDamage | cost_calculators/salt_marsh_costs.py:55-114 | the carbon is the flood carbon of the money, and no flooded area costs nothing |
| SaltMarshCosts.ConstructionCost | cost_calculators/salt_marsh_costs.py:116-141 | doing nothing is free; with a non-negative width and an ordered floodwall a build is never a gain |
| SaltMarshCosts.MaintenanceCost | cost_calculators/salt_marsh_costs.py:143-162 | maintenance is never a gain, and is free exactly when the floodwall is absent |
| SaltMarshCosts.CarbonAbsorption | cost_calculators/salt_marsh_costs.py:164-169 | uptake is non-zero only with the marsh, and never negative |
| SaltMarshCosts.MarshNoWorse | cost_calculators/salt_marsh_costs.py:71-105 | neither measure increases the area, and both together are no worse than either alone |
| SaltMarshCosts.DamageOrdering | cost_calculators/salt_marsh_costs.py:71-109 | the same ordering for the monetary damage |
| SaltMarshCosts.ConstructionByAction | cost_calculators/salt_marsh_costs.py:116-141 | the marsh costs 1000 per meter of width and emits -0.001 per meter; the floodwall costs 9200 per meter of height |
| SaltMarshCosts.MaintenanceFloodwallOnly | cost_calculators/salt_marsh_costs.py:143-162 | only the floodwall is maintained; the marsh adds neither money nor carbon |
| SaltMarshCosts.AbsorptionOnlyWithMarsh | cost_calculators/salt_marsh_costs.py:164-169 | uptake is 0.00044 per meter of width exactly in configurations 1 and 3 |
| Nyc.HasCriticalFloodwall | nyc_environment.py:246-255 | true exactly when the configuration contains the floodwall, for both kinds of region |
| Nyc.Calculator.FloodDamage | nyc_environment.py:196-197 | for every calculator but the oyster reef the flood carbon is the carbon rate of the flood damage |
| Nyc.ComponentCost | nyc_environment.py:184-231 | no recorded action means no construction charge, and the uptake entry is present exactly when the uptake is non-zero |
| Nyc.PriceAll | nyc_environment.py:184-231 | one record per region |
| Nyc.Amplify | nyc_environment.py:239-242 | an amplification changes nothing but the flood damage and the flood carbon |
| Nyc.Interact | nyc_environment.py:233-244 | the interaction keeps one record per region and changes only flood damage and flood carbon |
| Nyc.ApplyDiscount | nyc_environment.py:257-268 | in year 0 the discounted total is the plain total |
| Nyc.TotalReward | nyc_environment.py:134-149 | in year 0 the reward is the monetary sum plus the carbon sum |
| Nyc.TotalRewardExtend | nyc_environment.py:135-146 | adding one more region adds its discounted total to the reward |
| Nyc.AmplifyThenScale | nyc_environment.py:239-242 | one amplification multiplies both flood entries by 1 + f and changes nothing else |
| Nyc.AmplifyNScales | nyc_environment.py:237-242 | n amplifications multiply both flood entries by (1 + f)^n and change nothing else |
| Nyc.InteractCounts | nyc_environment.py:233-244 | the pair-by-pair interaction amplifies a region once per pair that names it downslope of an upslope region without its floodwall |
| Nyc.NycHits | nyc_environment.py:83-89 | Manhattan is never amplified; Brooklyn is hit by Manhattan, Queens and Staten Island by Brooklyn, the Bronx by both |
| Nyc.NycInteractions | nyc_environment.py:233-244 | Manhattan's record is unchanged; the Bronx's flood damage and flood carbon rise by 1.44 when neither Manhattan nor Brooklyn has its floodwall, and stay unchanged when both have it; Brooklyn's rise by 1.2 exactly when Manhattan lacks its floodwall; Queens' and Staten Island's rise by 1.2 exactly when Brooklyn lacks its floodwall |
| Nyc.FloodCarbonFollowsDamage | nyc_environment.py:217-219 | flood carbon stays the carbon rate of the flood damage times the SCC, even after both are scaled |
| Nyc.RecordFloodCarbon | nyc_environment.py:217-219 | a priced record's flood carbon is the carbon rate of its flood damage times the SCC |
| Nyc.ComponentCostEntries | nyc_environment.py:199-227 | the uptake entry is the uptake times the SCC; maintenance is the calculator's; the component total splits into money and carbon |
| Nyc.RepeatedBuildCharged | nyc_environment.py:199-205 | rebuilding F1 in state 1 leaves the state unchanged but is charged again |
| Nyc.StatenIslandReadsIndices | nyc_environment.py:196-197 | Staten Island's damage ignores the value tables and is that of the height slrIndex + surgeIndex |
| Nyc.DiscountOnlyMonetary | nyc_environment.py:257-268 | discounting keeps the carbon part and scales only the money by 0.97^year; it is the identity in year 0, never below the plain total for a cost, and ignores the total passed in |
| Nyc.RewardSplit | nyc_environment.py:134-149 | the reward is the discounted monetary sum plus the undiscounted carbon sum |
| Nyc.ChosenActionCharged | nyc_environment.py:199-205 | after a step, each region's construction entry is the charge for the action just taken, untouched by the interaction |
| Nyc.NYCEnvironment.constructor | nyc_environment.py:16-106 | year 0, water (4, 1), every region in state 0 with empty histories, the calculators in region order, and an interaction factor of 0.20 unless given |
| Nyc.NYCEnvironment.UpdateSystemStates | nyc_environment.py:286-300 | each region's state becomes state OR action; the action is appended to its history; nothing else changes |
| Nyc.NYCEnvironment.CalculateComponentCosts | nyc_environment.py:184-231 | each region is priced at the current indices, its new state and its last action, with carbon times the year's SCC |
| Nyc.NYCEnvironment.ApplySystemInteractions | nyc_environment.py:233-244 | the result is the pair-by-pair interaction, and only the flood entries change |
| Nyc.NYCEnvironment.AccumulateReward | nyc_environment.py:134-149 | the reward is the sum of the regions' discounted totals, and each record is appended to its region's history |
| Nyc.NYCEnvironment.Advance | nyc_environment.py:121-126 | the water moves to the given indices and every region acts |
| Nyc.NYCEnvironment.Settle | nyc_environment.py:128-149 | pricing, interaction and reward for the current state |
| Nyc.NYCEnvironment.Step | nyc_environment.py:108-167 | the new indices, states and histories; the interacted records of the new state; the reward; done exactly when the year was at least 39; the year increases by one |
| Nyc.NYCEnvironment.Reset | nyc_environment.py:270-284 | year 0, water (4, 1), every region in state 0 with empty histories; returns that observation |
| SingleWedge.CombinedRoundTrip | single_wedge_2_floodwall_environment.py:138-143 | the combined index 72 * slr + surge decodes back to both indices and stays below 77 * 72; the initial water state already lies above the declared observation count of 149 |
| SingleWedge.CombinedInjective | single_wedge_2_floodwall_environment.py:138-143 | two water states share a combined index exactly when they are equal |
| SingleWedge.LegacyArea | single_wedge_2_floodwall_environment.py:164-202 | no configuration floods less than nothing or more than the open wedge; below F1's base every configuration floods the open wedge |
| SingleWedge.LegacyDamage | single_wedge_2_floodwall_environment.py:164-202 | the monetary flood damage is never positive, and is zero without water |
| SingleWedge.FloodTerm | single_wedge_2_floodwall_environment.py:206 | the flood term is gamma (1 + 0.000342727 SCC) times the monetary damage, and never positive for a non-negative SCC |
| SingleWedge.ConstructionTerm | single_wedge_2_floodwall_environment.py:208-228 | actions 0 to 2 pay 13800 per wall built, action 3 is credited 13800 per wall, and every action adds the carbon of a 1.5 m wall, 2.59524 times the SCC |
| SingleWedge.MaintenanceTerm | single_wedge_2_floodwall_environment.py:230-249 | maintenance is 100 per wall standing before the action, plus the maintenance carbon in every configuration |
| SingleWedge.ImmediateCostBound | single_wedge_2_floodwall_environment.py:145-252 | with a non-negative SCC a step costs at least its construction and maintenance parts, and exactly those without water |
| SingleWedge.LegacyAreaIsTwoFloodwall | single_wedge_2_floodwall_environment.py:160-202 | the legacy area rules are the two-floodwall calculator's for slope 0.0085 and walls (0.2, 1.7] and (1.9, 3.4] |
| SingleWedge.OneMeterAreas | single_wedge_2_floodwall_environment.py:165-202 | at one meter the open wedge floods 0.5 / 0.0085 and F1 reduces that to 0.18 / 0.0085 |
| SingleWedge.CarbonRates | single_wedge_2_floodwall_environment.py:254-277 | the three carbon helpers are fixed rates times the SCC |
| SingleWedge.FloodTermLinear | single_wedge_2_floodwall_environment.py:206 | the flood term is gamma (1 + 0.000342727 SCC) times the monetary damage |
| SingleWedge.LegacyDamageOrdering | single_wedge_2_floodwall_environment.py:164-206 | the monetary flood damage of the wedge is ordered: both walls no worse than one wall, one wall no worse than none |
| SingleWedge.FloodTermMonotone | single_wedge_2_floodwall_environment.py:206 | with a non-negative SCC the flood term never decreases as the monetary damage grows |
| SingleWedge.FloodTermOrdering | single_wedge_2_floodwall_environment.py:164-206 | with a non-negative SCC, both walls are no worse than one wall and one wall no worse than none |
| SingleWedge.ConstructionCharges | single_wedge_2_floodwall_environment.py:208-228 | every action, doing nothing included, pays the carbon of a 1.5 m wall; one wall costs 13800; action 3 adds 27600 |
| SingleWedge.ImmediateCostIgnoresSurge | single_wedge_2_floodwall_environment.py:154-157 | the immediate cost reads neither the surge index nor the surge table |
| SingleWedge.OneHotStep | single_wedge_2_floodwall_environment.py:57-62 | the configuration vector stays one-hot, at the OR of the old configuration and the action |
| SingleWedge.Environment.constructor | single_wedge_2_floodwall_environment.py:10-39 | year 0, water (4, 1), and the no-wall vector as both the current and the previous configuration |
| SingleWedge.Environment.Transition | single_wedge_2_floodwall_environment.py:57-62 | the old vector becomes the previous configuration and the new one is its product with the action's table; the returned configurations are the argmaxes of both, the new one being the OR of the old one and the action; the water state and the year are unchanged |
| SingleWedge.Environment.Step | single_wedge_2_floodwall_environment.py:41-89 | the previous configuration becomes the old vector and the new one is the product; the stored water state is not advanced; done exactly when the year was above 39; the reward is the immediate cost, or the terminal reward once past the horizon, divided by 10^6 |
| SingleWedge.Environment.Reset | single_wedge_2_floodwall_environment.py:94-99 | year 0, water (4, 1), no walls; the previous configuration is kept |

## Behaviour of the code worth noting

- Lateral flooding is applied pair by pair to the already-amplified records. Amplifications of one region therefore compound multiplicatively, in pair order. There is no bidirectional variant.
- Heights are `slr * 0.02 + surge * 0.1` meters, as in the calculators.
- The cost history stores the interacted records before discounting.
- A step after `done` is not rejected.

## Left out

- Sampling the next water indices from the transition tables is random. The next indices are inputs of `Step` instead, bounded by 77 and 72.
- Loading the `.mat` tables is left out. The SCC table is a constructor argument. The `slr`/`surge` value tables are a pair of total functions (`WaterLookup`).
- The gym spaces, the observation and info dictionaries, `render`, `get_state_vector` and the console output are left out. The legacy `get_transition` only loads the water transition tables.
- The legacy constructor calls `get_rewards` and `get_terminal_reward` (single_wedge_2_floodwall_environment.py:38-39), but neither is defined in that file, so both are not part of this model. The terminal-reward table is a constructor argument of `Environment`; the per-step reward is `ImmediateCost`, as `step` computes it.
- `oyster_reef_costs.py` is not part of this model. Queens' calculator is a `ReefModel` that carries its flood, construction, maintenance and optional uptake functions.
- SaltMarshCosts.WaveAttenuation: the power law h^(-0.974) is a parameter `decay`. The salt-marsh lemmas assume it lies in [0, 9.42] for h > 0.1 (`DecayBounded`); the model does not fix its exact values, and the environment leaves Staten Island's `decay` unconstrained, since none of its contracts relies on the bound.
- GreenSpaceCosts.SlopeLengthAtLeastRise: the slope length from `np.sqrt` is a parameter, tied to its square by a predicate. The environment requires that predicate of Manhattan's calculator, as part of its invariant.
- Floating-point rounding is not modelled. All arithmetic is on exact reals.
- Invalid actions and configurations are excluded by the subset types `Action` (0 to 2), `LegacyAction` (0 to 3) and `SystemState` (0 to 3) instead of being modelled as errors. On such inputs the source fails: the legacy environment prints "invalid system" or "invalid action" and then fails on an unassigned cost (single_wedge_2_floodwall_environment.py:204, 226, 247), `update_system_states` raises a KeyError on `system_trans[action]` (nyc_environment.py:295), and the calculators raise an UnboundLocalError for an unknown action (cost_calculators/two_floodwall_costs.py:120-130).
- A zero slope, a zero city height or a zero normalising volume is excluded by the calculators' `WellDefined` preconditions rather than modelled as an error. With such parameters the source raises a division by zero or produces an infinite or undefined value.
- The unused `total_height` computed at the start of `_calculate_component_costs` is left out.
- Staten Island receives the index pair where its calculator expects values in meters. This is modelled as written, as `StatenIslandReadsIndices` states.
- `Nyc.NYCEnvironment.AccumulateReward` is the reward loop of `step`, and `Advance` and `Settle` are its first and second halves. They are separate methods in the model only.
- The shallow copy in `_apply_system_interactions` shares the record dictionaries with the pre-interaction costs. The model works on record values, and nothing reads the pre-interaction costs afterwards.
- Nyc.NYCEnvironment.Step: the per-region construction charge is stated by `ChosenActionCharged` about the same expressions, not as a postcondition of `Step`.
