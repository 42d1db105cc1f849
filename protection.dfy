/**
 * The protection state machine shared by both environments.
 *
 * A region's protection configuration is one of four states (0 none,
 * 1 lower or nature-based measure, 2 higher floodwall, 3 both). The source
 * advances it by multiplying a one-hot row vector with a fixed 0/1 matrix
 * per action and taking numpy's argmax of the product. This module models
 * exactly that computation and proves that it is the bitwise OR of state
 * and action.
 */
module Protection {

  /** Protection configuration of a region: 0 none, 1 lower measure, 2 floodwall, 3 both. */
  type SystemState = s: int | 0 <= s <= 3

  /** Action of the multi-region environment: 0 do nothing, 1 build the lower measure, 2 build the floodwall. */
  type Action = a: int | 0 <= a <= 2

  /** Action of the single-region environment, which adds 3: build both floodwalls. */
  type LegacyAction = a: int | 0 <= a <= 3

  type Matrix = seq<seq<int>>

  predicate IsSquare4(m: Matrix) {
    |m| == 4 && forall i :: 0 <= i < 4 ==> |m[i]| == 4
  }

  /** The vector `np.zeros(4)` with a 1 written at position s. */
  function OneHot(s: SystemState): seq<int> {
    if s == 0 then [1, 0, 0, 0]
    else if s == 1 then [0, 1, 0, 0]
    else if s == 2 then [0, 0, 1, 0]
    else [0, 0, 0, 1]
  }

  /** The transition table of each action; actions 0 to 2 are shared by both environments. */
  function TransitionMatrix(a: LegacyAction): (m: Matrix)
    ensures IsSquare4(m)
    ensures m[0] == OneHot(Or(0, a)) && m[1] == OneHot(Or(1, a))
    ensures m[2] == OneHot(Or(2, a)) && m[3] == OneHot(Or(3, a))
  {
    if a == 0 then [[1, 0, 0, 0], [0, 1, 0, 0], [0, 0, 1, 0], [0, 0, 0, 1]]
    else if a == 1 then [[0, 1, 0, 0], [0, 1, 0, 0], [0, 0, 0, 1], [0, 0, 0, 1]]
    else if a == 2 then [[0, 0, 1, 0], [0, 0, 0, 1], [0, 0, 1, 0], [0, 0, 0, 1]]
    else [[0, 0, 0, 1], [0, 0, 0, 1], [0, 0, 0, 1], [0, 0, 0, 1]]
  }

  /** Row vector times matrix, as numpy's `v.dot(m)`. */
  function VecMat(v: seq<int>, m: Matrix): (r: seq<int>)
    requires |v| == 4 && IsSquare4(m)
    ensures |r| == 4
    ensures v == OneHot(0) ==> r == m[0]
    ensures v == OneHot(1) ==> r == m[1]
    ensures v == OneHot(2) ==> r == m[2]
    ensures v == OneHot(3) ==> r == m[3]
  {
    var r := seq(4, j requires 0 <= j < 4 => v[0] * m[0][j] + v[1] * m[1][j] + v[2] * m[2][j] + v[3] * m[3][j]);
    assert forall s: SystemState, j | 0 <= j < 4 && v == OneHot(s) :: r[j] == m[s][j];
    r
  }

  /** numpy's argmax: the first index that holds the largest entry. */
  function ArgMax(v: seq<int>): (k: nat)
    requires |v| > 0
    ensures k < |v|
    ensures forall j :: 0 <= j < |v| ==> v[j] <= v[k]
    ensures forall j :: 0 <= j < k ==> v[j] < v[k]
  {
    if |v| == 1 then 0
    else
      var k := ArgMax(v[..|v| - 1]);
      if v[|v| - 1] > v[k] then |v| - 1 else k
  }

  /**
   * The next configuration as the simulator computes it, argmax(one_hot(s) . M[a]);
   * it is the bitwise OR of state and action.
   */
  function NextState(s: SystemState, a: LegacyAction): (n: SystemState)
    ensures n == Or(s, a)
  {
    ProductIsOneHot(s, a);
    ArgMaxOfOneHot(Or(s, a));
    ArgMax(VecMat(OneHot(s), TransitionMatrix(a)))
  }

  /** Bitwise OR of state and action: bit 0 is the lower measure, bit 1 the floodwall. */
  function Or(s: SystemState, a: LegacyAction): SystemState {
    ((s as bv2) | (a as bv2)) as int
  }

  /** Does configuration n contain every structure of configuration s? */
  predicate Includes(n: SystemState, s: SystemState) {
    (n as bv2) & (s as bv2) == s as bv2
  }

  lemma ArgMaxOfOneHot(k: SystemState)
    ensures ArgMax(OneHot(k)) == k
  {
    var v := OneHot(k);
    assert v[k] == 1;
    assert forall j :: 0 <= j < 4 && j != k ==> v[j] == 0;
  }

  /** The three tables of the multi-region environment, row by row. */
  lemma TransitionTable(s: SystemState)
    ensures NextState(s, 0) == s
    ensures NextState(s, 1) == (if s == 0 || s == 1 then 1 else 3)
    ensures NextState(s, 2) == (if s == 0 || s == 2 then 2 else 3)
    ensures NextState(s, 3) == 3
  {
    if s == 0 {} else if s == 1 {} else if s == 2 {} else {}
  }

  /** State 3 is absorbing and repeating an action changes nothing. */
  lemma AbsorbingAndIdempotent(s: SystemState, a: LegacyAction)
    ensures NextState(3, a) == 3
    ensures NextState(NextState(s, a), a) == NextState(s, a)
  {
  }

  /** No action removes a structure: the next configuration includes the current one and the action. */
  lemma NeverRemoves(s: SystemState, a: LegacyAction)
    ensures Includes(NextState(s, a), s)
    ensures Includes(NextState(s, a), a)
  {
  }

  /** The order of two actions does not matter; from state 0, actions 1 and 2 in either order reach 3. */
  lemma OrderIndependent(s: SystemState, a: LegacyAction, b: LegacyAction)
    ensures NextState(NextState(s, a), b) == NextState(NextState(s, b), a)
    ensures NextState(NextState(0, 1), 2) == 3 && NextState(NextState(0, 2), 1) == 3
  {
  }

  /** The product of a one-hot vector with a table is again one-hot, at the OR position. */
  lemma ProductIsOneHot(s: SystemState, a: LegacyAction)
    ensures VecMat(OneHot(s), TransitionMatrix(a)) == OneHot(Or(s, a))
  {
  }
}
