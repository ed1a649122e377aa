/** Scoring terms that both coupling engines use in the same form. */
module Scores {

  /** `1.0 / (1 + imbalance)`: the magic-square quality of a candidate. */
  function Quality(imbalance: real): (q: real)
    requires imbalance >= 0.0
    ensures 0.0 < q <= 1.0
    ensures q == 1.0 <==> imbalance == 0.0
  {
    1.0 / (1.0 + imbalance)
  }

  /** Less imbalance never gives less quality. */
  lemma QualityAntitone(x: real, y: real)
    requires 0.0 <= x <= y
    ensures Quality(y) <= Quality(x)
  {
    assert Quality(y) * (1.0 + y) == 1.0;
    assert Quality(x) * (1.0 + x) == 1.0;
  }

  /** The order-parity bonus: 1.0 for odd orders, 0.3 for even ones. */
  function ParityBonus(n: nat): (p: real)
    ensures p == 1.0 <==> n % 2 == 1
    ensures p == 0.3 <==> n % 2 == 0
  {
    if n % 2 == 1 then 1.0 else 0.3
  }

  /** `min(1.0, max(0.0, x))`. */
  function Clamp01(x: real): (r: real)
    ensures 0.0 <= r <= 1.0
    ensures 0.0 <= x <= 1.0 ==> r == x
  {
    if x < 0.0 then 0.0 else if x > 1.0 then 1.0 else x
  }
}
