/**
 * The quantum coupling engine: two particle squares are placed on the
 * diagonal of a zero matrix of order n_a + n_b and perturbed; then, for each
 * of the force's preferred target orders below that order, a candidate stable
 * square is built, validated and scored, and the best-scoring one is kept if
 * it scores above 0.3.
 */
module QuantumEngine {
  import opened Options
  import opened Matrices
  import opened LineSums
  import opened Scores
  import CoreMath

  /** `QuantumCoupling()` without an argument. */
  const DEFAULT_STABILITY_THRESHOLD: real := 0.8
  /** A stable state must score strictly above this to be kept, and a coupling to succeed. */
  const ACCEPTANCE_SCORE: real := 0.3
  /** The coarse tolerance that decides whether to fall back to the SVD projection. */
  const COARSE_TOLERANCE: real := 1.0

  /**
   * The values the source draws from numpy's random generator and its
   * numerical routines, supplied by the caller:
   * - fluctuation: `np.random.normal(0, 0.05)` added to the transition state;
   * - noise(k): the perturbation `create_approximate_magic_square(k)` draws;
   * - projection(k): the rank-k SVD reconstruction `U[:, :k] @ diag(s[:k]) @ Vt[:k, :]`
   *   of the transition, an n-by-n matrix, or None when `np.linalg.svd` raises;
   * - correlation(t, c): `np.corrcoef` of the overlapping top-left blocks of t and c.
   */
  datatype Draws = Draws(
    fluctuation: Matrix,
    noise: nat -> Matrix,
    projection: nat -> Option<Matrix>,
    correlation: (Matrix, Matrix) -> real)

  /** The shapes those values have for a transition of order n. */
  ghost predicate DrawsFit(d: Draws, n: nat)
  {
    && IsSquare(d.fluctuation) && |d.fluctuation| == n
    && (forall k: nat :: IsSquare(d.noise(k)) && |d.noise(k)| == k)
    && (forall k: nat :: d.projection(k).Some? ==> IsSquare(d.projection(k).value) && |d.projection(k).value| == n)
  }

  /** The dictionary `couple_particles` returns. */
  datatype QuantumResult = QuantumResult(
    success: bool,
    transitionState: Matrix,
    stableState: Option<Matrix>,
    stability: real,
    forceType: string,
    particleA: string,
    particleB: string)

  predicate StrictlyIncreasing(s: seq<nat>)
  {
    forall i, j :: 0 <= i < j < |s| ==> s[i] < s[j]
  }

  /** The target orders each force prefers, smallest first; any other force gets the universal list. */
  function PreferredOrders(forceType: string): (orders: seq<nat>)
    ensures |orders| >= 2 && orders[0] == 3
    ensures StrictlyIncreasing(orders)
    ensures forall k :: 0 <= k < |orders| ==> orders[k] % 2 == 1
  {
    if forceType == "strong" then [3, 5, 7]
    else if forceType == "electromagnetic" then [3, 5, 7, 9]
    else if forceType == "weak" then [3, 5]
    else [3, 5, 7, 9, 11]
  }

  /** `[o for o in orders if o < n and o >= 3]`. */
  function FilterOrders(orders: seq<nat>, n: nat): (r: seq<nat>)
    ensures forall o :: o in r <==> o in orders && 3 <= o < n
    ensures forall k :: 0 <= k < |r| ==> 3 <= r[k] < n
    ensures StrictlyIncreasing(orders) ==> StrictlyIncreasing(r)
  {
    if |orders| == 0 then []
    else if 3 <= orders[0] < n then
      var rest := FilterOrders(orders[1..], n);
      assert forall k :: 0 <= k < |rest| ==> rest[k] in orders[1..];
      [orders[0]] + rest
    else FilterOrders(orders[1..], n)
  }

  /**
   * The orders the search tries: exactly the preferred orders in [3, n), in
   * increasing preference order; 3 comes first whenever n > 3.
   */
  function TargetOrders(forceType: string, n: nat): (targets: seq<nat>)
    ensures forall o :: o in targets <==> o in PreferredOrders(forceType) && 3 <= o < n
    ensures StrictlyIncreasing(targets)
    ensures n > 3 ==> |targets| > 0 && targets[0] == 3
  {
    var targets := FilterOrders(PreferredOrders(forceType), n);
    if n > 3 then
      assert 3 in targets;
      targets
    else targets
  }

  /** The transition state before and after the fluctuation: the fluctuation only adds to it. */
  lemma TransitionBlocks(a: Matrix, b: Matrix, fluctuation: Matrix)
    requires IsSquare(a) && IsSquare(b) && IsSquare(fluctuation) && |fluctuation| == |a| + |b|
    ensures var settled := Subtract(Add(BlockDiagonal(a, b), fluctuation), fluctuation);
      && Block(settled, 0, 0, |a|, |a|) == a
      && Block(settled, |a|, |a|, |b|, |b|) == b
      && Block(settled, 0, |a|, |a|, |b|) == Zeros(|a|, |b|)
      && Block(settled, |a|, 0, |b|, |a|) == Zeros(|b|, |a|)
  {
    AddThenSubtract(BlockDiagonal(a, b), fluctuation);
    BlockDiagonalBlocks(a, b);
  }

  /** `_calculate_match`: 0.5 below order 2, else the correlation mapped from [-1, 1] onto [0, 1]. */
  function CalculateMatch(transition: Matrix, candidate: Matrix, correlation: real): (r: real)
    ensures r >= 0.0
    ensures -1.0 <= correlation <= 1.0 ==> r <= 1.0
    ensures (|transition| < 2 || |candidate| < 2) ==> r == 0.5
    ensures |transition| >= 2 && |candidate| >= 2 ==> (r == 0.0 <==> correlation <= -1.0) && (r == 1.0 <==> correlation == 1.0)
  {
    var minSize := if |transition| <= |candidate| then |transition| else |candidate|;
    if minSize < 2 then 0.5
    else Max(0.0, (correlation + 1.0) / 2.0)
  }

  /** A higher correlation never gives a lower match. */
  lemma MatchMonotone(transition: Matrix, candidate: Matrix, corr: real, corr': real)
    requires corr <= corr'
    ensures CalculateMatch(transition, candidate, corr) <= CalculateMatch(transition, candidate, corr')
  {
  }

  /**
   * ss[i] is a score at least as high as every score in ss and strictly
   * higher than every earlier one: the first maximum.
   */
  predicate IsEarliestMax(ss: seq<Option<real>>, i: nat)
  {
    && i < |ss| && ss[i].Some?
    && (forall j :: 0 <= j < |ss| && ss[j].Some? ==> ss[j].value <= ss[i].value)
    && (forall j :: 0 <= j < i && ss[j].Some? ==> ss[j].value < ss[i].value)
  }

  /**
   * The bookkeeping of a first-maximum search over the scores seen so far:
   * no index and a best score of -1.0 while no score has been seen, else the
   * index of the first maximum and its score.
   */
  predicate TracksEarliestMax(ss: seq<Option<real>>, best: Option<nat>, bestScore: real)
  {
    match best
    case None => bestScore == -1.0 && forall j :: 0 <= j < |ss| ==> ss[j].None?
    case Some(k) => IsEarliestMax(ss, k) && ss[k] == Some(bestScore)
  }

  /** Seeing one more score keeps the bookkeeping, moving to it only when it is strictly higher. */
  lemma TracksEarliestMaxStep(ss: seq<Option<real>>, best: Option<nat>, bestScore: real, x: Option<real>)
    requires TracksEarliestMax(ss, best, bestScore)
    requires x.Some? ==> x.value > -1.0
    ensures x.Some? && x.value > bestScore ==> TracksEarliestMax(ss + [x], Some(|ss|), x.value)
    ensures !(x.Some? && x.value > bestScore) ==> TracksEarliestMax(ss + [x], best, bestScore)
  {
    var ss' := ss + [x];
    assert forall j :: 0 <= j < |ss| ==> ss'[j] == ss[j];
  }

  /** Once every score is seen, the best one exceeds a bar exactly when some score does. */
  lemma TracksEarliestMaxExceeds(ss: seq<Option<real>>, best: Option<nat>, bestScore: real, bar: real)
    requires TracksEarliestMax(ss, best, bestScore)
    requires bar >= -1.0
    ensures bestScore > bar <==> exists j :: 0 <= j < |ss| && ss[j].Some? && ss[j].value > bar
  {
    if best.Some? && bestScore > bar {
      assert ss[best.value].Some? && ss[best.value].value > bar;
    }
  }

  /**
   * The first attempt of `_generate_candidate`: the canonical square for
   * orders 3 and 5, the approximate square for any other order.
   */
  function FirstAttempt(target: nat, noise: Matrix): (first: CoreMath.Approximation)
    requires IsSquare(noise) && |noise| == target
    ensures first.Approximate? ==> IsSquare(first.square) && |first.square| == target
  {
    if target == 3 then CoreMath.Approximate(CoreMath.GenerateMagicSquare3x3())
    else if target == 5 then CoreMath.Approximate(CoreMath.GenerateMagicSquare5x5())
    else CoreMath.ApproximateSquare(target, noise)
  }

  class QuantumCoupling {
    const stabilityThreshold: real

    constructor(threshold: real)
      ensures stabilityThreshold == threshold
    {
      stabilityThreshold := threshold;
    }

    /** `QuantumCoupling()` without an argument: the default threshold 0.8. */
    constructor Default()
      ensures stabilityThreshold == DEFAULT_STABILITY_THRESHOLD
    {
      stabilityThreshold := DEFAULT_STABILITY_THRESHOLD;
    }

    /**
     * `_form_transition_state`: `a` and `b` are written into the diagonal
     * blocks of a zero array of order n_a + n_b, and the fluctuation is added.
     */
    method FormTransitionState(a: Matrix, b: Matrix, fluctuation: Matrix) returns (t: Matrix)
      requires IsSquare(a) && IsSquare(b) && IsSquare(fluctuation) && |fluctuation| == |a| + |b|
      ensures IsSquare(t) && |t| == |a| + |b|
      ensures t == Add(BlockDiagonal(a, b), fluctuation)
    {
      var na, nb := |a|, |b|;
      var transitionOrder := na + nb;
      var transition := new real[transitionOrder, transitionOrder]((i, j) => 0.0);
      AssignBlock(transition, 0, a);
      AssignBlock(transition, na, b);
      EqualByEntries(ToMatrix(transition), BlockDiagonal(a, b));
      t := Add(ToMatrix(transition), fluctuation);
    }

    /**
     * What `_generate_candidate` returns for one target order: the canonical
     * square for orders 3 and 5, the approximate square otherwise; if that is
     * not magic within 1.0, the SVD projection of the transition instead; and
     * the result only if it is magic within the engine's threshold. None
     * stands for a failure the source's `except` swallows, and for an
     * `Undefined` approximate square, which scores nan and so is never chosen.
     */
    function Candidate(transition: Matrix, target: nat, d: Draws): (c: Option<Matrix>)
      requires IsSquare(transition) && DrawsFit(d, |transition|)
      ensures c.Some? ==> IsSquare(c.value) && CoreMath.IsMagic(c.value, stabilityThreshold)
      ensures c.Some? ==> |c.value| == target || |c.value| == |transition|
    {
      var first := FirstAttempt(target, d.noise(target));
      if first.Undefined? then None
      else
        var coarse := first.Approximate? && CoreMath.IsMagic(first.square, COARSE_TOLERANCE);
        var c1 :=
          if !coarse && target <= |transition| then d.projection(target)
          else if first.Approximate? then Some(first.square)
          else None;
        match c1
        case None => None
        case Some(c) => if CoreMath.IsMagic(c, stabilityThreshold) then Some(c) else None
    }

    /**
     * An approximate square with infinite entries fails the coarse test, so
     * the SVD projection takes its place whenever the transition is large enough.
     */
    lemma UnboundedFallsBackToProjection(transition: Matrix, target: nat, d: Draws)
      requires IsSquare(transition) && DrawsFit(d, |transition|)
      requires target != 3 && target != 5 && target <= |transition|
      requires CoreMath.ApproximateSquare(target, d.noise(target)).Unbounded?
      ensures var p := d.projection(target);
        Candidate(transition, target, d) == if p.Some? && CoreMath.IsMagic(p.value, stabilityThreshold) then p else None
    {
    }

    /** A first attempt magic within 1.0 and within the threshold is the candidate itself. */
    lemma KeptWhenMagic(transition: Matrix, target: nat, d: Draws)
      requires IsSquare(transition) && DrawsFit(d, |transition|)
      requires FirstAttempt(target, d.noise(target)).Approximate?
      requires CoreMath.IsMagic(FirstAttempt(target, d.noise(target)).square, COARSE_TOLERANCE)
      requires CoreMath.IsMagic(FirstAttempt(target, d.noise(target)).square, stabilityThreshold)
      ensures Candidate(transition, target, d) == Some(FirstAttempt(target, d.noise(target)).square)
    {
    }

    /** With a non-negative threshold, order 3 always yields the Lo Shu square. */
    lemma LoShuCandidate(transition: Matrix, d: Draws)
      requires IsSquare(transition) && DrawsFit(d, |transition|)
      requires stabilityThreshold >= 0.0
      ensures Candidate(transition, 3, d) == Some(CoreMath.GenerateMagicSquare3x3())
    {
      var loShu := CoreMath.GenerateMagicSquare3x3();
      CoreMath.LoShuIsMagic();
      CoreMath.IsMagicMonotone(loShu, 0.0, COARSE_TOLERANCE);
      CoreMath.IsMagicMonotone(loShu, 0.0, stabilityThreshold);
      assert FirstAttempt(3, d.noise(3)) == CoreMath.Approximate(loShu);
      KeptWhenMagic(transition, 3, d);
    }

    /** With a non-negative threshold, order 5 always yields the canonical order-5 square. */
    lemma Square5Candidate(transition: Matrix, d: Draws)
      requires IsSquare(transition) && DrawsFit(d, |transition|)
      requires stabilityThreshold >= 0.0
      ensures Candidate(transition, 5, d) == Some(CoreMath.GenerateMagicSquare5x5())
    {
      var square := CoreMath.GenerateMagicSquare5x5();
      CoreMath.Square5IsMagic();
      CoreMath.IsMagicMonotone(square, 0.0, COARSE_TOLERANCE);
      CoreMath.IsMagicMonotone(square, 0.0, stabilityThreshold);
      assert FirstAttempt(5, d.noise(5)) == CoreMath.Approximate(square);
      KeptWhenMagic(transition, 5, d);
    }

    method GenerateCandidate(transition: Matrix, target: nat, d: Draws) returns (candidate: Option<Matrix>)
      requires IsSquare(transition) && DrawsFit(d, |transition|)
      ensures candidate == Candidate(transition, target, d)
    {
      var first: CoreMath.Approximation;
      if target == 3 {
        first := CoreMath.Approximate(CoreMath.GenerateMagicSquare3x3());
      } else if target == 5 {
        first := CoreMath.Approximate(CoreMath.GenerateMagicSquare5x5());
      } else {
        first := CoreMath.CreateApproximateMagicSquare(target, d.noise(target));
      }
      assert first == FirstAttempt(target, d.noise(target));
      if first.Undefined? {
        return None;
      }
      var coarse := false;
      if first.Approximate? {
        coarse := CoreMath.IsMagicSquare(first.square, COARSE_TOLERANCE);
      }
      var c: Matrix;
      if !coarse && target <= |transition| {
        var projected := d.projection(target);
        if projected.None? {
          return None;
        }
        c := projected.value;
      } else if first.Approximate? {
        c := first.square;
      } else {
        return None;
      }
      var valid := CoreMath.IsMagicSquare(c, stabilityThreshold);
      if valid {
        return Some(c);
      }
      return None;
    }

    /**
     * `_evaluate_candidate`: 0.4 * quality + 0.3 * match + 0.3 * parity bonus.
     * A perfect odd-order candidate scores at least 0.7, so it is always accepted.
     */
    function EvaluateCandidate(transition: Matrix, candidate: Matrix, correlation: real): (score: real)
      requires IsSquare(candidate)
      ensures score > 0.0
      ensures -1.0 <= correlation <= 1.0 ==> score <= 1.0
      ensures CoreMath.Imbalance(candidate) == 0.0 && |candidate| % 2 == 1 ==> score >= 0.7
    {
      var magicQuality := Quality(CoreMath.Imbalance(candidate));
      var matchScore := CalculateMatch(transition, candidate, correlation);
      var parityBonus := ParityBonus(|candidate|);
      0.4 * magicQuality + 0.3 * matchScore + 0.3 * parityBonus
    }

    /** Of two candidates with the same order and match, the less imbalanced one scores at least as high. */
    lemma EvaluateAntitoneInImbalance(transition: Matrix, c: Matrix, c': Matrix, correlation: real)
      requires IsSquare(c) && IsSquare(c') && |c| == |c'|
      requires CoreMath.Imbalance(c) <= CoreMath.Imbalance(c')
      ensures EvaluateCandidate(transition, c', correlation) <= EvaluateCandidate(transition, c, correlation)
    {
      QualityAntitone(CoreMath.Imbalance(c), CoreMath.Imbalance(c'));
    }

    /** The score the search and `_calculate_stability` give a candidate. */
    function Score(transition: Matrix, candidate: Matrix, d: Draws): real
      requires IsSquare(candidate)
    {
      EvaluateCandidate(transition, candidate, d.correlation(transition, candidate))
    }

    /** The score of the candidate one target order yields, None if it yields none. */
    function ScoreOf(transition: Matrix, target: nat, d: Draws): (s: Option<real>)
      requires IsSquare(transition) && DrawsFit(d, |transition|)
      ensures s.Some? <==> Candidate(transition, target, d).Some?
      ensures s.Some? ==> s.value > 0.0
    {
      var c := Candidate(transition, target, d);
      if c.Some? then Some(Score(transition, c.value, d)) else None
    }

    /** The scores of the candidates the search generates, one per target order, in order. */
    function CandidateScores(transition: Matrix, targets: seq<nat>, d: Draws): (ss: seq<Option<real>>)
      requires IsSquare(transition) && DrawsFit(d, |transition|)
      ensures |ss| == |targets|
      decreases |targets|
    {
      if |targets| == 0 then []
      else
        var last := |targets| - 1;
        CandidateScores(transition, targets[..last], d) + [ScoreOf(transition, targets[last], d)]
    }

    /** The i-th score is the score of the i-th target order's candidate. */
    lemma {:induction false} CandidateScoresAt(transition: Matrix, targets: seq<nat>, i: nat, d: Draws)
      requires IsSquare(transition) && DrawsFit(d, |transition|)
      requires i < |targets|
      ensures CandidateScores(transition, targets, d)[i] == ScoreOf(transition, targets[i], d)
      decreases |targets|
    {
      var last := |targets| - 1;
      if i < last {
        CandidateScoresAt(transition, targets[..last], i, d);
      }
    }

    /** Scoring one more target order appends its score. */
    lemma CandidateScoresExtend(transition: Matrix, targets: seq<nat>, i: nat, d: Draws)
      requires IsSquare(transition) && DrawsFit(d, |transition|)
      requires i < |targets|
      ensures CandidateScores(transition, targets[..i + 1], d)
        == CandidateScores(transition, targets[..i], d) + [ScoreOf(transition, targets[i], d)]
    {
      assert targets[..i + 1][..i] == targets[..i];
    }

    /**
     * The loop of `_find_stable_state` over the given target orders: the
     * candidate with the highest score, the earliest on ties, provided that
     * score exceeds 0.3; None if no candidate does.
     */
    method SelectStableState(transition: Matrix, targets: seq<nat>, d: Draws) returns (stable: Option<Matrix>)
      requires IsSquare(transition) && DrawsFit(d, |transition|)
      ensures stable.Some? ==> IsSquare(stable.value) && CoreMath.IsMagic(stable.value, stabilityThreshold)
      ensures stable.Some? ==> Score(transition, stable.value, d) > ACCEPTANCE_SCORE
      ensures var ss := CandidateScores(transition, targets, d);
        stable.Some? <==> exists i :: 0 <= i < |ss| && ss[i].Some? && ss[i].value > ACCEPTANCE_SCORE
      ensures stable.Some? ==>
        exists i :: 0 <= i < |targets| && Candidate(transition, targets[i], d) == stable
          && IsEarliestMax(CandidateScores(transition, targets, d), i)
    {
      var bestCandidate: Option<Matrix> := None;
      var bestScore: real := -1.0;
      ghost var bestIndex: Option<nat> := None;
      var i := 0;
      while i < |targets|
        invariant 0 <= i <= |targets|
        invariant TracksEarliestMax(CandidateScores(transition, targets[..i], d), bestIndex, bestScore)
        invariant bestCandidate.Some? <==> bestIndex.Some?
        invariant bestIndex.Some? ==> bestIndex.value < i && Candidate(transition, targets[bestIndex.value], d) == bestCandidate
        invariant bestCandidate.Some? ==> bestScore == Score(transition, bestCandidate.value, d)
      {
        var candidate := GenerateCandidate(transition, targets[i], d);
        ghost var seen := CandidateScores(transition, targets[..i], d);
        ghost var x := ScoreOf(transition, targets[i], d);
        assert x == if candidate.Some? then Some(Score(transition, candidate.value, d)) else None;
        CandidateScoresExtend(transition, targets, i, d);
        TracksEarliestMaxStep(seen, bestIndex, bestScore, x);
        if candidate.Some? {
          var score := Score(transition, candidate.value, d);
          if score > bestScore {
            bestScore := score;
            bestCandidate := candidate;
            bestIndex := Some(i);
          }
        }
        assert TracksEarliestMax(seen + [x], bestIndex, bestScore);
        i := i + 1;
      }
      assert targets[..i] == targets;
      TracksEarliestMaxExceeds(CandidateScores(transition, targets, d), bestIndex, bestScore, ACCEPTANCE_SCORE);
      stable := if bestScore > ACCEPTANCE_SCORE then bestCandidate else None;
    }

    /** `_find_stable_state`: the selection over the force's target orders below the transition's order. */
    method FindStableState(transition: Matrix, forceType: string, d: Draws) returns (stable: Option<Matrix>)
      requires IsSquare(transition) && DrawsFit(d, |transition|)
      ensures stable.Some? ==> IsSquare(stable.value) && CoreMath.IsMagic(stable.value, stabilityThreshold)
      ensures stable.Some? ==> Score(transition, stable.value, d) > ACCEPTANCE_SCORE
      ensures var ss := CandidateScores(transition, TargetOrders(forceType, |transition|), d);
        stable.Some? <==> exists i :: 0 <= i < |ss| && ss[i].Some? && ss[i].value > ACCEPTANCE_SCORE
      ensures var targets := TargetOrders(forceType, |transition|);
        stable.Some? ==>
          exists i :: 0 <= i < |targets| && Candidate(transition, targets[i], d) == stable
            && IsEarliestMax(CandidateScores(transition, targets, d), i)
    {
      var targetOrders := TargetOrders(forceType, |transition|);
      stable := SelectStableState(transition, targetOrders, d);
    }

    /**
     * With a non-negative threshold and a transition of order above 3, the
     * search meets the canonical Lo Shu square first and it clears the 0.3 bar.
     */
    lemma LoShuQualifies(transition: Matrix, forceType: string, d: Draws)
      requires IsSquare(transition) && DrawsFit(d, |transition|)
      requires stabilityThreshold >= 0.0 && |transition| > 3
      ensures var targets := TargetOrders(forceType, |transition|);
        && |targets| > 0 && Candidate(transition, targets[0], d) == Some(CoreMath.GenerateMagicSquare3x3())
        && var ss := CandidateScores(transition, targets, d);
        ss[0].Some? && ss[0].value > ACCEPTANCE_SCORE
    {
      LoShuCandidate(transition, d);
      CoreMath.LoShuIsMagic();
      CandidateScoresAt(transition, TargetOrders(forceType, |transition|), 0, d);
    }

    /**
     * `couple_particles`: the transition state, the stable state found for the
     * force, its stability (0.0 if none) and success exactly when a stable
     * state was found and scores above 0.3.
     */
    method CoupleParticles(a: Matrix, b: Matrix, particleA: string, particleB: string, forceType: string, d: Draws)
      returns (r: QuantumResult)
      requires IsSquare(a) && IsSquare(b) && DrawsFit(d, |a| + |b|)
      ensures r.transitionState == Add(BlockDiagonal(a, b), d.fluctuation)
      ensures r.forceType == forceType && r.particleA == particleA && r.particleB == particleB
      ensures r.success <==> r.stableState.Some?
      ensures r.stableState.None? ==> r.stability == 0.0
      ensures r.stableState.Some? ==>
        && IsSquare(r.stableState.value)
        && CoreMath.IsMagic(r.stableState.value, stabilityThreshold)
        && r.stability == Score(r.transitionState, r.stableState.value, d)
        && r.stability > ACCEPTANCE_SCORE
      ensures stabilityThreshold >= 0.0 && |a| + |b| > 3 ==> r.success
    {
      var transition := FormTransitionState(a, b, d.fluctuation);
      var stable := FindStableState(transition, forceType, d);
      if stabilityThreshold >= 0.0 && |a| + |b| > 3 {
        LoShuQualifies(transition, forceType, d);
        ghost var ss := CandidateScores(transition, TargetOrders(forceType, |transition|), d);
        assert 0 < |ss| && ss[0].Some? && ss[0].value > ACCEPTANCE_SCORE;
      }
      var stability: real;
      var success: bool;
      if stable.Some? {
        stability := EvaluateCandidate(transition, stable.value, d.correlation(transition, stable.value));
        success := stability > ACCEPTANCE_SCORE;
      } else {
        stability := 0.0;
        success := false;
      }
      r := QuantumResult(success, transition, stable, stability, forceType, particleA, particleB);
    }
  }
}
