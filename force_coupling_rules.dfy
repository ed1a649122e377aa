/**
 * The four fundamental forces read as magic-square coupling rules: each force
 * couples two particle squares with its own strength and then adjusts the
 * coupling result in its own way; above the grand-unification scale the
 * forces are reported as unified.
 */
module ForceRules {
  import opened Options
  import opened Matrices
  import MagicCouplings

  type CouplingResult = MagicCouplings.CouplingResult

  /** The coupling strength of each force. */
  const FORCE_STRENGTHS: map<string, real> :=
    map["strong" := 1.0, "electromagnetic" := 0.1, "weak" := 0.01, "gravitational" := 1e-39]
  /** The characteristic range of each force. */
  const FORCE_RANGES: map<string, real> :=
    map["strong" := 1.0, "electromagnetic" := 100.0, "weak" := 0.1, "gravitational" := 10000.0]
  /** The strength of a force missing from the table. */
  const DEFAULT_STRENGTH: real := 0.01
  /** The bonus the strong force adds to the score of an order-3 or order-5 stable state. */
  const STRONG_BONUS: real := 0.3
  /** The energy scale (GeV) above which the forces unify. */
  const GUT_SCALE: real := 1e15

  /** The tags gravity adds to a coupling result. */
  datatype GravityTags = GravityTags(universal: bool, alwaysAttractive: bool, couplesEvenUnstable: bool)

  /** A coupling result with the keys the weak force and gravity add to it. */
  datatype ForceResult = ForceResult(
    coupling: CouplingResult,
    flavorChanged: Option<bool>,
    gravitySpecific: Option<GravityTags>)

  /** What `unify_forces_at_high_energy` returns. */
  datatype Unification =
    | Unified(effectiveStrength: real, magicOrderPreference: seq<nat>)
    | NotUnified(forces: map<string, real>)

  /** A coupling result with nothing added. */
  function Plain(result: CouplingResult): (r: ForceResult)
    ensures r.coupling == result && r.flavorChanged.None? && r.gravitySpecific.None?
  {
    ForceResult(result, None, None)
  }

  /** `force_strengths.get(force_type, 0.01)`. */
  function Strength(forceType: string): (s: real)
    ensures forceType in FORCE_STRENGTHS ==> s == FORCE_STRENGTHS[forceType]
    ensures forceType !in FORCE_STRENGTHS ==> s == DEFAULT_STRENGTH
    ensures 0.0 < s <= 1.0
  {
    if forceType in FORCE_STRENGTHS then FORCE_STRENGTHS[forceType] else DEFAULT_STRENGTH
  }

  /** Every force other than the strong one, listed or not, couples more weakly than the strong force. */
  lemma StrongIsStrongest(forceType: string)
    requires forceType != "strong"
    ensures Strength(forceType) < Strength("strong")
  {
    assert "strong" in FORCE_STRENGTHS;
    if forceType in FORCE_STRENGTHS {
      assert forceType in {"electromagnetic", "weak", "gravitational"};
    }
  }

  /**
   * The strong force's adjustment: a stable state of order 3 or 5 gets 0.3
   * added to its score, capped at 1; nothing else changes.
   */
  function StrongRule(result: CouplingResult): (r: ForceResult)
    ensures r.flavorChanged.None? && r.gravitySpecific.None?
    ensures r.coupling.(stabilityScore := result.stabilityScore) == result
    ensures result.stabilityScore <= 1.0 ==> result.stabilityScore <= r.coupling.stabilityScore <= 1.0
    ensures r.coupling.stabilityScore != result.stabilityScore ==>
      result.stableState.Some? && |result.stableState.value| in {3, 5}
    ensures result.stableState.Some? && |result.stableState.value| in {3, 5} && result.stabilityScore <= 1.0 - STRONG_BONUS ==>
      r.coupling.stabilityScore == result.stabilityScore + STRONG_BONUS
  {
    if result.stableState.Some? && |result.stableState.value| in {3, 5} then
      Plain(result.(stabilityScore := Min(1.0, result.stabilityScore + STRONG_BONUS)))
    else
      Plain(result)
  }

  /** The weak force's adjustment: the flavour changed exactly when a stable state formed. */
  function WeakRule(result: CouplingResult): (r: ForceResult)
    ensures r.coupling == result && r.gravitySpecific.None?
    ensures r.flavorChanged.Some? && (r.flavorChanged.value <==> result.stableState.Some?)
  {
    ForceResult(result, Some(result.stableState.Some?), None)
  }

  /** Gravity's adjustment: the result is tagged universal, always attractive and coupling even unstable states. */
  function GravityRule(result: CouplingResult): (r: ForceResult)
    ensures r.coupling == result && r.flavorChanged.None?
    ensures r.gravitySpecific.Some?
    ensures var tags := r.gravitySpecific.value; tags.universal && tags.alwaysAttractive && tags.couplesEvenUnstable
  {
    ForceResult(result, None, Some(GravityTags(true, true, true)))
  }

  /**
   * The adjustment `apply_force_coupling` applies to the coupling result:
   * the strong, weak and gravity rules for those forces; the electromagnetic
   * force and any other force leave it as it is.
   */
  function ForceRule(forceType: string, result: CouplingResult): (r: ForceResult)
    ensures forceType == "strong" ==> r == StrongRule(result)
    ensures forceType == "weak" ==> r == WeakRule(result)
    ensures forceType == "gravitational" ==> r == GravityRule(result)
    ensures forceType !in {"strong", "weak", "gravitational"} ==> r == Plain(result)
  {
    if forceType == "strong" then StrongRule(result)
    else if forceType == "weak" then WeakRule(result)
    else if forceType == "gravitational" then GravityRule(result)
    else Plain(result)
  }

  /**
   * `predict_binding_energy`: 0 without a stable state, else the stability
   * score times ln(stable order + 1); the natural logarithm is supplied.
   * The source reads the stable order of every result with a stable state.
   */
  function PredictBindingEnergy(result: ForceResult, ln: nat -> real): (energy: real)
    requires result.coupling.stableState.Some? ==> result.coupling.stableOrder.Some?
    ensures result.coupling.stableState.None? ==> energy == 0.0
    ensures result.coupling.stableState.Some? ==>
      var logOrder := ln(result.coupling.stableOrder.value + 1);
      (result.coupling.stabilityScore >= 0.0 && logOrder >= 0.0 ==> energy >= 0.0) &&
      (result.coupling.stabilityScore > 0.0 && logOrder > 0.0 ==> energy > 0.0)
  {
    if result.coupling.stableState.None? then 0.0
    else result.coupling.stabilityScore * ln(result.coupling.stableOrder.value + 1)
  }

  /**
   * Between two results with stable states of the same order, the higher
   * stability score never predicts the lower binding energy.
   */
  lemma BindingEnergyMonotone(result: ForceResult, result': ForceResult, ln: nat -> real)
    requires result.coupling.stableState.Some? && result.coupling.stableOrder.Some?
    requires result'.coupling.stableState.Some? && result'.coupling.stableOrder == result.coupling.stableOrder
    requires ln(result.coupling.stableOrder.value + 1) >= 0.0
    requires result.coupling.stabilityScore <= result'.coupling.stabilityScore
    ensures PredictBindingEnergy(result, ln) <= PredictBindingEnergy(result', ln)
  {
    var s, s' := result.coupling.stabilityScore, result'.coupling.stabilityScore;
    var logOrder := ln(result.coupling.stableOrder.value + 1);
    assert s * logOrder <= s' * logOrder by {
      assert (s' - s) * logOrder >= 0.0;
    }
  }

  /**
   * At the same stability score, a stable state of larger order predicts at
   * least as much binding energy, given a logarithm that never decreases.
   */
  lemma BindingEnergyGrowsWithOrder(result: ForceResult, result': ForceResult, ln: nat -> real)
    requires forall x: nat, y: nat :: x <= y ==> ln(x) <= ln(y)
    requires result.coupling.stableState.Some? && result.coupling.stableOrder.Some?
    requires result'.coupling.stableState.Some? && result'.coupling.stableOrder.Some?
    requires result.coupling.stableOrder.value <= result'.coupling.stableOrder.value
    requires result.coupling.stabilityScore == result'.coupling.stabilityScore >= 0.0
    ensures PredictBindingEnergy(result, ln) <= PredictBindingEnergy(result', ln)
  {
    var s := result.coupling.stabilityScore;
    var l, l' := ln(result.coupling.stableOrder.value + 1), ln(result'.coupling.stableOrder.value + 1);
    assert l <= l';
    assert s * l <= s * l' by {
      assert s * (l' - l) >= 0.0;
    }
  }

  class ForceCouplingRules {
    const coupler: MagicCouplings.MagicCoupling
    const forceStrengths: map<string, real> := FORCE_STRENGTHS
    const forceRanges: map<string, real> := FORCE_RANGES

    constructor()
      ensures fresh(coupler) && coupler.stabilityThreshold == 0.1
    {
      coupler := new MagicCouplings.MagicCoupling();
    }

    /** `_strong_force_coupling`: the coupling followed by the strong force's adjustment. */
    method StrongForceCoupling(a: Matrix, b: Matrix, strength: real, d: MagicCouplings.Draws) returns (r: ForceResult)
      requires IsSquare(a) && IsSquare(b) && MagicCouplings.DrawsFit(d, |a| + |b|)
      ensures r == StrongRule(coupler.Coupled(a, b, strength, d))
      ensures 0.0 <= r.coupling.stabilityScore <= 1.0
      ensures r.coupling.stabilityScore != coupler.Coupled(a, b, strength, d).stabilityScore ==> |a| + |b| == 5
    {
      var result := coupler.CoupleSquares(a, b, strength, d);
      if result.stableState.Some? {
        var stableOrder := |result.stableState.value|;
        if stableOrder in {3, 5} {
          result := result.(stabilityScore := Min(1.0, result.stabilityScore + STRONG_BONUS));
        }
      }
      r := Plain(result);
    }

    /** `_em_force_coupling`: the coupling, unchanged. */
    method EmForceCoupling(a: Matrix, b: Matrix, strength: real, d: MagicCouplings.Draws) returns (r: ForceResult)
      requires IsSquare(a) && IsSquare(b) && MagicCouplings.DrawsFit(d, |a| + |b|)
      ensures r == Plain(coupler.Coupled(a, b, strength, d))
    {
      var result := coupler.CoupleSquares(a, b, strength, d);
      r := Plain(result);
    }

    /** `_weak_force_coupling`: the coupling, with whether the flavour changed. */
    method WeakForceCoupling(a: Matrix, b: Matrix, strength: real, d: MagicCouplings.Draws) returns (r: ForceResult)
      requires IsSquare(a) && IsSquare(b) && MagicCouplings.DrawsFit(d, |a| + |b|)
      ensures r == WeakRule(coupler.Coupled(a, b, strength, d))
      ensures r.flavorChanged == Some(r.coupling.couplingSuccess)
    {
      var result := coupler.CoupleSquares(a, b, strength, d);
      var flavorChanged := result.stableState.Some?;
      r := ForceResult(result, Some(flavorChanged), None);
    }

    /** `_gravity_coupling`: the coupling, with gravity's tags. */
    method GravityCoupling(a: Matrix, b: Matrix, strength: real, d: MagicCouplings.Draws) returns (r: ForceResult)
      requires IsSquare(a) && IsSquare(b) && MagicCouplings.DrawsFit(d, |a| + |b|)
      ensures r == GravityRule(coupler.Coupled(a, b, strength, d))
    {
      var result := coupler.CoupleSquares(a, b, strength, d);
      r := ForceResult(result, None, Some(GravityTags(true, true, true)));
    }

    /**
     * `apply_force_coupling`: couples the two particle squares with the
     * force's strength and dispatches to the force's own rule.
     */
    method ApplyForceCoupling(a: Matrix, b: Matrix, forceType: string, d: MagicCouplings.Draws) returns (r: ForceResult)
      requires IsSquare(a) && IsSquare(b) && MagicCouplings.DrawsFit(d, |a| + |b|)
      ensures r == ForceRule(forceType, coupler.Coupled(a, b, Strength(forceType), d))
      ensures r.coupling.transitionOrder == |a| + |b|
      ensures r.coupling.couplingSuccess <==> r.coupling.stableState.Some?
      ensures 0.0 <= r.coupling.stabilityScore <= 1.0
    {
      var strength := if forceType in forceStrengths then forceStrengths[forceType] else DEFAULT_STRENGTH;
      if forceType == "strong" {
        r := StrongForceCoupling(a, b, strength, d);
      } else if forceType == "electromagnetic" {
        r := EmForceCoupling(a, b, strength, d);
      } else if forceType == "weak" {
        r := WeakForceCoupling(a, b, strength, d);
      } else if forceType == "gravitational" {
        r := GravityCoupling(a, b, strength, d);
      } else {
        var result := coupler.CoupleSquares(a, b, strength, d);
        r := Plain(result);
      }
    }

    /**
     * The strength scales the particle squares on the transition's diagonal
     * blocks, so a positive entry of the first square is imprinted more
     * strongly under the strong force than under any other, on the same draws.
     */
    lemma StrongImprintsHardest(a: Matrix, b: Matrix, forceType: string, d: MagicCouplings.Draws, i: nat, j: nat)
      requires IsSquare(a) && IsSquare(b) && MagicCouplings.DrawsFit(d, |a| + |b|)
      requires i < |a| && j < |a| && a[i][j] > 0.0 && forceType != "strong"
      ensures var weaker := coupler.Coupled(a, b, Strength(forceType), d).transitionState;
        var strong := coupler.Coupled(a, b, Strength("strong"), d).transitionState;
        IsSquare(weaker) && IsSquare(strong) && |weaker| == |strong| == |a| + |b| &&
        weaker[i][j] < strong[i][j]
    {
      MagicCouplings.ImprintedEntries(a, b, Strength(forceType), d.uniform);
      MagicCouplings.ImprintedEntries(a, b, Strength("strong"), d.uniform);
      StrongIsStrongest(forceType);
      var k, k' := Strength(forceType), Strength("strong");
      assert a[i][j] * k < a[i][j] * k' by {
        assert a[i][j] * (k' - k) > 0.0;
      }
    }
  }

  class UnifiedForceTheory {
    const rules: ForceCouplingRules

    constructor()
      ensures fresh(rules)
    {
      rules := new ForceCouplingRules();
    }

    /**
     * `unify_forces_at_high_energy`: above 1e15 GeV the forces are unified
     * with strength 0.5 and a preference for the prime orders 3, 7 and 11;
     * at or below it, the separate strengths are reported.
     */
    function UnifyForcesAtHighEnergy(energyScale: real): (u: Unification)
      ensures u.Unified? <==> energyScale > GUT_SCALE
      ensures u.Unified? ==> u.effectiveStrength == 0.5 && u.magicOrderPreference == [3, 7, 11]
      ensures u.NotUnified? ==> u.forces == rules.forceStrengths == FORCE_STRENGTHS
    {
      if energyScale > GUT_SCALE then Unified(0.5, [3, 7, 11]) else NotUnified(rules.forceStrengths)
    }
  }
}
