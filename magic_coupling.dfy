/**
 * Coupling of two magic squares: they are imprinted, scaled by the coupling
 * strength, on the diagonal blocks of a random transition state of order
 * n_a + n_b; the transition then tries to collapse to a stable square through
 * a truncated SVD, which is kept only if its normalised imbalance is below
 * 0.1; a stability score in [0, 1] rates the outcome.
 */
module MagicCouplings {
  import opened Options
  import opened Matrices
  import opened Scores
  import LineSums
  import MagicSquareCore

  /** The tolerance `_is_valid_magic_configuration` uses by default. */
  const VALID_TOLERANCE: real := 0.1
  /** The energy term the score uses when the transition is not larger than the stable state. */
  const NEUTRAL_ENERGY: real := 0.5

  /**
   * The values the source draws from numpy, supplied by the caller:
   * - uniform: `np.random.rand(n, n)`, the base of the transition state;
   * - projection: `U[:, :k] @ diag(s[:k]) @ Vt[:k, :]`, the rank-k SVD
   *   reconstruction of the transition for the collapse's target order k,
   *   which has the transition's own order n;
   * - energyTanh: `tanh(norm(transition) - norm(stable))`.
   */
  datatype Draws = Draws(uniform: Matrix, projection: Matrix, energyTanh: real)

  /** The shapes those values have for a transition of order n. */
  predicate DrawsFit(d: Draws, n: nat)
  {
    IsSquare(d.uniform) && |d.uniform| == n && IsSquare(d.projection) && |d.projection| == n
  }

  /** The dictionary `couple_squares` returns. */
  datatype CouplingResult = CouplingResult(
    transitionState: Matrix,
    stableState: Option<Matrix>,
    transitionOrder: nat,
    stableOrder: Option<nat>,
    stabilityScore: real,
    couplingSuccess: bool)

  /** The transition state: the uniform base plus `a` and `b`, scaled by the strength, on its diagonal blocks. */
  function Imprinted(a: Matrix, b: Matrix, strength: real, uniform: Matrix): (t: Matrix)
    requires IsSquare(a) && IsSquare(b) && IsSquare(uniform) && |uniform| == |a| + |b|
    ensures IsSquare(t) && |t| == |a| + |b|
  {
    Add(uniform, Scale(BlockDiagonal(a, b), strength))
  }

  /**
   * Entry by entry, the imprint adds `strength * a` in the top-left block,
   * `strength * b` in the bottom-right block, and leaves the two
   * off-diagonal blocks as drawn.
   */
  lemma ImprintedEntries(a: Matrix, b: Matrix, strength: real, uniform: Matrix)
    requires IsSquare(a) && IsSquare(b) && IsSquare(uniform) && |uniform| == |a| + |b|
    ensures var t, na := Imprinted(a, b, strength, uniform), |a|;
      forall i, j :: 0 <= i < |t| && 0 <= j < |t| ==>
        t[i][j] == if i < na && j < na then uniform[i][j] + a[i][j] * strength
                   else if na <= i && na <= j then uniform[i][j] + b[i - na][j - na] * strength
                   else uniform[i][j]
  {
  }

  /** The collapse's target order: the largest odd number below n, i.e. n-1 or n-2. */
  function CollapseTarget(n: int): (target: int)
    ensures target % 2 == 1
    ensures n - 2 <= target < n
  {
    if (n - 1) % 2 == 1 then n - 1 else n - 2
  }

  /** A target order of at least 3 needs a transition of order at least 4. */
  lemma CollapseTargetAtLeastThree(n: nat)
    ensures CollapseTarget(n) >= 3 <==> n >= 4
  {
  }

  /**
   * `_is_valid_magic_configuration`: order at least 3 and the imbalance,
   * divided by the number of entries, below the tolerance.
   */
  function IsValidMagicConfiguration(square: Matrix, tolerance: real): (valid: bool)
    requires IsSquare(square)
    ensures valid ==> |square| >= 3
    ensures |square| >= 3 && MagicSquareCore.Imbalance(square) == 0.0 ==> (valid <==> tolerance > 0.0)
  {
    if |square| < 3 then false
    else
      var n := |square| as real;
      MagicSquareCore.Imbalance(square) / (n * n) < tolerance
  }

  /** An exactly magic square of order at least 3 is a valid configuration at any positive tolerance. */
  lemma MagicIsValidConfiguration(square: Matrix, c: real, tolerance: real)
    requires IsSquare(square) && |square| >= 3 && LineSums.AllLinesEqual(square, c)
    requires tolerance > 0.0
    ensures IsValidMagicConfiguration(square, tolerance)
  {
    MagicSquareCore.MagicHasZeroImbalance(square, c);
  }

  /** Raising the tolerance keeps a valid configuration valid. */
  lemma ValidConfigurationMonotone(square: Matrix, tolerance: real, tolerance': real)
    requires IsSquare(square) && tolerance <= tolerance'
    requires IsValidMagicConfiguration(square, tolerance)
    ensures IsValidMagicConfiguration(square, tolerance')
  {
  }

  /** The Lo Shu square is a valid configuration at the default tolerance. */
  lemma LoShuIsValidConfiguration()
    ensures IsValidMagicConfiguration(MagicSquareCore.GenerateMagicSquare3x3(), VALID_TOLERANCE)
  {
    MagicSquareCore.LoShuIsMagic();
  }

  /**
   * `_collapse_to_stable`: None when the target order is below 3; otherwise
   * the SVD reconstruction if it is a valid configuration, else None.
   */
  function CollapseToStable(transition: Matrix, projection: Matrix): (stable: Option<Matrix>)
    requires IsSquare(transition) && IsSquare(projection) && |projection| == |transition|
    ensures stable.Some? <==> |transition| >= 4 && IsValidMagicConfiguration(projection, VALID_TOLERANCE)
    ensures stable.Some? ==> stable.value == projection && |stable.value| == |transition|
  {
    if CollapseTarget(|transition|) < 3 then None
    else if IsValidMagicConfiguration(projection, VALID_TOLERANCE) then Some(projection)
    else None
  }

  /**
   * `_calculate_stability_score`: 0 without a stable state; otherwise
   * 0.4 * quality + 0.4 * energy + 0.2 * parity bonus, clamped to [0, 1],
   * where the energy term is the tanh draw only when the transition is larger
   * than the stable state and 0.5 otherwise.
   */
  function CalculateStabilityScore(transition: Matrix, stable: Option<Matrix>, energyTanh: real): (score: real)
    requires stable.Some? ==> IsSquare(stable.value) && |stable.value| >= 1
    ensures 0.0 <= score <= 1.0
    ensures stable.None? ==> score == 0.0
    ensures stable.Some? && |transition| <= |stable.value| ==> score > 0.2
    ensures (stable.Some? && |transition| <= |stable.value| && |stable.value| % 2 == 1 &&
             MagicSquareCore.Imbalance(stable.value) == 0.0) ==> score == 0.8
  {
    match stable
    case None => 0.0
    case Some(s) =>
      var stableQuality := Quality(MagicSquareCore.Imbalance(s));
      var stabilityFromEnergy := if |transition| > |s| then energyTanh else NEUTRAL_ENERGY;
      var parityBonus := ParityBonus(|s|);
      Clamp01(stableQuality * 0.4 + stabilityFromEnergy * 0.4 + parityBonus * 0.2)
  }

  /**
   * The collapse keeps the transition's order, so the energy term is always
   * 0.5 and the tanh draw never affects the score.
   */
  lemma StabilityIgnoresEnergy(transition: Matrix, projection: Matrix, e: real, e': real)
    requires IsSquare(transition) && IsSquare(projection) && |projection| == |transition|
    ensures CalculateStabilityScore(transition, CollapseToStable(transition, projection), e)
         == CalculateStabilityScore(transition, CollapseToStable(transition, projection), e')
  {
  }

  /**
   * `parity_stability_score`: 0 for None; otherwise a base of
   * 0.8 + 0.2 * (1 - 1/n) for odd n or 0.3 + 0.2 * (1 - 1/n) for even n, less
   * imbalance / (100 n), floored at 0.
   */
  function ParityStabilityScore(square: Option<Matrix>): (score: real)
    requires square.Some? ==> IsSquare(square.value) && |square.value| >= 1
    ensures score >= 0.0
    ensures square.None? ==> score == 0.0
    ensures square.Some? ==> score <= ParityBase(|square.value|)
    ensures square.Some? && MagicSquareCore.Imbalance(square.value) == 0.0 ==> score == ParityBase(|square.value|)
  {
    match square
    case None => 0.0
    case Some(m) =>
      var n := |m|;
      var imbalancePenalty := MagicSquareCore.Imbalance(m) / (n as real * 100.0);
      Max(0.0, ParityBase(n) - imbalancePenalty)
  }

  /** The parity base: in [0.8, 1) for odd orders, in [0.3, 0.5) for even ones. */
  function ParityBase(n: nat): (base: real)
    requires n >= 1
    ensures n % 2 == 1 ==> 0.8 <= base < 1.0
    ensures n % 2 == 0 ==> 0.3 <= base < 0.5
  {
    var growth := 0.2 * (1.0 - 1.0 / n as real);
    if n % 2 == 1 then 0.8 + growth else 0.3 + growth
  }

  /** Within one parity, a larger order has a larger base. */
  lemma ParityBaseGrows(n: nat, m: nat)
    requires 1 <= n <= m && n % 2 == m % 2
    ensures ParityBase(n) <= ParityBase(m)
  {
    assert 1.0 / m as real <= 1.0 / n as real by {
      assert n as real <= m as real;
    }
  }

  /** Two perfect squares: any odd order scores higher than any even order. */
  lemma OddOrderOutscoresEven(odd: Matrix, even: Matrix)
    requires IsSquare(odd) && |odd| >= 1 && |odd| % 2 == 1 && MagicSquareCore.Imbalance(odd) == 0.0
    requires IsSquare(even) && |even| >= 1 && |even| % 2 == 0
    ensures ParityStabilityScore(Some(even)) < ParityStabilityScore(Some(odd))
  {
  }

  class MagicCoupling {
    /** Set to 0.1 and never read: validity uses its own default tolerance. */
    const stabilityThreshold: real

    constructor()
      ensures stabilityThreshold == 0.1
    {
      stabilityThreshold := 0.1;
    }

    /**
     * `_form_transition_state`: a uniform random array of order n_a + n_b,
     * to whose diagonal blocks `a * strength` and `b * strength` are added in place.
     */
    method FormTransitionState(a: Matrix, b: Matrix, strength: real, uniform: Matrix) returns (t: Matrix)
      requires IsSquare(a) && IsSquare(b) && IsSquare(uniform) && |uniform| == |a| + |b|
      ensures t == Imprinted(a, b, strength, uniform)
    {
      var na, nb := |a|, |b|;
      var transitionOrder := na + nb;
      var transition := new real[transitionOrder, transitionOrder]((i, j) requires 0 <= i < transitionOrder && 0 <= j < transitionOrder => uniform[i][j]);
      AddScaledBlock(transition, 0, a, strength);
      AddScaledBlock(transition, na, b, strength);
      var imprinted := Imprinted(a, b, strength, uniform);
      ImprintedEntries(a, b, strength, uniform);
      forall i, j | 0 <= i < transitionOrder && 0 <= j < transitionOrder
        ensures ToMatrix(transition)[i][j] == imprinted[i][j]
      {
        if i < na && j < na {
          assert transition[i, j] == uniform[i][j] + a[i][j] * strength;
        } else if na <= i && na <= j {
          assert transition[i, j] == uniform[i][j] + b[i - na][j - na] * strength;
        } else {
          assert transition[i, j] == uniform[i][j];
        }
      }
      EqualByEntries(ToMatrix(transition), imprinted);
      t := ToMatrix(transition);
    }

    /** What `couple_squares` returns for the given draws. */
    function Coupled(a: Matrix, b: Matrix, strength: real, d: Draws): (r: CouplingResult)
      requires IsSquare(a) && IsSquare(b) && DrawsFit(d, |a| + |b|)
      ensures r.transitionOrder == |a| + |b|
      ensures r.couplingSuccess <==> r.stableState.Some?
      ensures r.stableOrder.Some? <==> r.stableState.Some?
      ensures r.stableState.Some? ==> r.stableOrder == Some(|a| + |b|) && |a| + |b| >= 4
      ensures r.stableState.Some? ==>
        IsSquare(r.stableState.value) && IsValidMagicConfiguration(r.stableState.value, VALID_TOLERANCE)
      ensures 0.0 <= r.stabilityScore <= 1.0
      ensures r.stableState.None? <==> r.stabilityScore == 0.0
    {
      var transition := Imprinted(a, b, strength, d.uniform);
      var stable := CollapseToStable(transition, d.projection);
      var score := CalculateStabilityScore(transition, stable, d.energyTanh);
      CouplingResult(
        transition,
        stable,
        |transition|,
        if stable.Some? then Some(|stable.value|) else None,
        score,
        stable.Some?)
    }

    /**
     * `couple_squares`: the transition state, the collapse's stable state and
     * the stability score of the pair.
     */
    method CoupleSquares(a: Matrix, b: Matrix, strength: real, d: Draws) returns (r: CouplingResult)
      requires IsSquare(a) && IsSquare(b) && DrawsFit(d, |a| + |b|)
      ensures r == Coupled(a, b, strength, d)
    {
      var transition := FormTransitionState(a, b, strength, d.uniform);
      var stable := CollapseToStable(transition, d.projection);
      var stabilityScore := CalculateStabilityScore(transition, stable, d.energyTanh);
      var stableOrder := if stable.Some? then Some(|stable.value|) else None;
      r := CouplingResult(transition, stable, |transition|, stableOrder, stabilityScore, stable.Some?);
    }
  }
}
