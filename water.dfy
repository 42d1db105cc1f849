/**
 * Discretised water levels.
 *
 * The state of the water is a pair of bin indices, one for sea-level rise
 * (SLR) and one for storm surge. The lookups `slr(index)` and
 * `surge(index)` of the simulator's value tables are supplied from outside
 * as two total functions.
 */
module Water {

  /** The external value tables, one raw magnitude per bin index. */
  datatype WaterLookup = WaterLookup(slr: nat -> real, surge: nat -> real)

  /** Number of SLR and surge bins. */
  const SlrStates: nat := 77
  const SurgeStates: nat := 72

  /**
   * Water height in meters from the indices: SLR in 2 cm steps, surge in
   * 10 cm steps. Non-negative table values give a non-negative height.
   */
  function IndexedHeight(w: WaterLookup, slrIndex: nat, surgeIndex: nat): (h: real)
    ensures w.slr(slrIndex) >= 0.0 && w.surge(surgeIndex) >= 0.0 ==> h >= 0.0
  {
    w.slr(slrIndex) * 0.02 + w.surge(surgeIndex) * 0.1
  }
}
