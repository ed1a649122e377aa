/**
 * The floating-point magic-square toolkit the quantum coupling engine builds
 * on: the canonical order-3 (Lo Shu) and order-5 squares, a synthesised
 * approximate square for any other order, a tolerance-based validator, the
 * imbalance against the theoretical constant n(n^2+1)/2, and a parity score.
 */
module CoreMath {
  import opened Options
  import opened Matrices
  import opened LineSums

  /** The magic constant of an order-n square filled with 1..n^2: `n * (n**2 + 1) / 2`. */
  function MagicConstant(n: nat): real
  {
    (n * (n * n + 1)) as real / 2.0
  }

  /** The Lo Shu square. */
  function GenerateMagicSquare3x3(): (m: Matrix)
    ensures IsSquare(m) && |m| == 3
  {
    [[8.0, 1.0, 6.0],
     [3.0, 5.0, 7.0],
     [4.0, 9.0, 2.0]]
  }

  /** The canonical order-5 square. */
  function GenerateMagicSquare5x5(): (m: Matrix)
    ensures IsSquare(m) && |m| == 5
  {
    [[17.0, 24.0,  1.0,  8.0, 15.0],
     [23.0,  5.0,  7.0, 14.0, 16.0],
     [ 4.0,  6.0, 13.0, 20.0, 22.0],
     [10.0, 12.0, 19.0, 21.0,  3.0],
     [11.0, 18.0, 25.0,  2.0,  9.0]]
  }

  // ---------------------------------------------------------------------
  // Validation and imbalance

  /**
   * What `is_magic_square(m, tol)` decides: the matrix is non-empty and every
   * line sum lies within `tol` of the first row's sum.
   */
  predicate IsMagic(m: Matrix, tol: real)
    requires IsSquare(m)
  {
    |m| > 0 && LinesWithin(m, RowSum(m, 0), tol)
  }

  method IsMagicSquare(m: Matrix, tol: real) returns (b: bool)
    requires IsSquare(m)
    ensures b <==> IsMagic(m, tol)
    ensures |m| == 0 ==> !b
  {
    if |m| == 0 {
      return false;
    }
    var magicConstant := RowSum(m, 0);
    b := CheckLines(m, magicConstant, tol);
  }

  /** A square accepted at one tolerance is accepted at every larger one. */
  lemma IsMagicMonotone(m: Matrix, tol: real, tol': real)
    requires IsSquare(m) && tol <= tol'
    requires IsMagic(m, tol)
    ensures IsMagic(m, tol')
  {
    LinesWithinMonotone(m, RowSum(m, 0), tol, tol');
  }

  /** `calculate_imbalance`: 0 for the empty matrix, else the deviation from n(n^2+1)/2. */
  function Imbalance(m: Matrix): (r: real)
    requires IsSquare(m)
    ensures r >= 0.0
  {
    if |m| == 0 then 0.0 else Deviation(m, MagicConstant(|m|))
  }

  method CalculateImbalance(m: Matrix) returns (r: real)
    requires IsSquare(m)
    ensures r == Imbalance(m)
    ensures r >= 0.0
  {
    var n := |m|;
    if n == 0 {
      return 0.0;
    }
    var magicConstant := MagicConstant(n);
    r := MeasureDeviation(m, magicConstant);
  }

  /**
   * Zero imbalance holds exactly when every line sums to n(n^2+1)/2, and a
   * non-empty square with zero imbalance is magic at tolerance zero.
   */
  lemma ZeroImbalanceIff(m: Matrix)
    requires IsSquare(m) && |m| > 0
    ensures Imbalance(m) == 0.0 <==> AllLinesEqual(m, MagicConstant(|m|))
    ensures Imbalance(m) == 0.0 ==> IsMagic(m, 0.0)
  {
    DeviationZeroIff(m, MagicConstant(|m|));
    if Imbalance(m) == 0.0 {
      assert RowSum(m, 0) == MagicConstant(|m|);
      LinesWithinZero(m, MagicConstant(|m|));
    }
  }

  /** Every line of the Lo Shu square sums to 15, so it is magic with zero imbalance. */
  lemma LoShuIsMagic()
    ensures AllLinesEqual(GenerateMagicSquare3x3(), 15.0)
    ensures Imbalance(GenerateMagicSquare3x3()) == 0.0
    ensures IsMagic(GenerateMagicSquare3x3(), 0.0)
  {
    var m := GenerateMagicSquare3x3();
    forall i | 0 <= i < 3
      ensures RowSum(m, i) == 15.0 && ColSum(m, i) == 15.0
    {
      SumOfThree(m[i]);
      SumOfThree(Column(m, i));
    }
    SumOfThree(Diagonal(m));
    SumOfThree(AntiDiagonal(m));
    assert MagicConstant(3) == 15.0;
    ZeroImbalanceIff(m);
  }

  /** Every line of the order-5 square sums to 65 = 5 * 26 / 2. */
  lemma Square5IsMagic()
    ensures AllLinesEqual(GenerateMagicSquare5x5(), 65.0)
    ensures Imbalance(GenerateMagicSquare5x5()) == 0.0
    ensures IsMagic(GenerateMagicSquare5x5(), 0.0)
  {
    var m := GenerateMagicSquare5x5();
    forall i | 0 <= i < 5
      ensures RowSum(m, i) == 65.0 && ColSum(m, i) == 65.0
    {
      SumOfFive(m[i]);
      SumOfFive(Column(m, i));
    }
    SumOfFive(Diagonal(m));
    SumOfFive(AntiDiagonal(m));
    assert MagicConstant(5) == 65.0;
    ZeroImbalanceIff(m);
  }

  // ---------------------------------------------------------------------
  // Approximate squares for orders without a canonical square

  /**
   * The starting matrix: every entry the ideal average magic_sum / order,
   * plus the caller-supplied perturbation (`np.random.normal(0, avg * 0.1)`).
   */
  function InitialGuess(order: nat, noise: Matrix): (g: Matrix)
    requires order > 0 && IsSquare(noise) && |noise| == order
    ensures IsSquare(g) && |g| == order
  {
    var avg := MagicConstant(order) / order as real;
    seq(order, i requires 0 <= i < order => seq(order, j requires 0 <= j < order => avg + noise[i][j]))
  }

  /** Each row rescaled by target / (its sum). */
  function RowPass(m: Matrix, target: real): (r: Matrix)
    requires IsSquare(m)
    requires forall i :: 0 <= i < |m| ==> RowSum(m, i) != 0.0
    ensures IsSquare(r) && |r| == |m|
  {
    seq(|m|, i requires 0 <= i < |m| => seq(|m|, j requires 0 <= j < |m| => m[i][j] * (target / RowSum(m, i))))
  }

  /** Each column rescaled by target / (its sum). */
  function ColumnPass(m: Matrix, target: real): (r: Matrix)
    requires IsSquare(m)
    requires forall j :: 0 <= j < |m| ==> ColSum(m, j) != 0.0
    ensures IsSquare(r) && |r| == |m|
  {
    seq(|m|, i requires 0 <= i < |m| => seq(|m|, j requires 0 <= j < |m| => m[i][j] * (target / ColSum(m, j))))
  }

  /**
   * What `create_approximate_magic_square` hands back, read through IEEE
   * arithmetic where a line sums to zero and `magic_sum / 0` is infinite.
   * `Approximate` is a finite square. `Undefined` is order 0 (computing the
   * average raises) or a square whose lines all involve nan: after a zero
   * row sum, that row's infinities make every column factor 0 or nan, so the
   * row turns to nan and every other entry to 0 or nan; after zero-sum
   * columns, the first row's sum is nan when it holds a 0 or infinities of
   * both signs there. Such a square passes the coarse test (every comparison
   * with nan is false), so no SVD fallback is tried, and its imbalance and
   * score are nan, so it never wins. `Unbounded` is a first-row sum of a
   * single infinity: the finite columns then differ from it by more than any
   * tolerance, so the square fails every magic test.
   */
  datatype Approximation = Approximate(square: Matrix) | Undefined | Unbounded

  /**
   * The first row of the column pass sums to nan: some zero-sum column holds
   * a 0 in row 0 (0 * inf), or two zero-sum columns hold entries of opposite
   * signs there (inf - inf).
   */
  predicate FirstRowUndefined(rows: Matrix)
    requires IsSquare(rows) && |rows| > 0
  {
    (exists j :: 0 <= j < |rows| && ColSum(rows, j) == 0.0 && rows[0][j] == 0.0) ||
    (exists j, k :: 0 <= j < |rows| && 0 <= k < |rows| && ColSum(rows, j) == 0.0 && ColSum(rows, k) == 0.0 &&
                    rows[0][j] > 0.0 && rows[0][k] < 0.0)
  }

  /**
   * What `create_approximate_magic_square(order)` builds from a given
   * perturbation: one row pass, then one column pass, with the outcomes of
   * a zero line sum as `Approximation` describes them.
   */
  function ApproximateSquare(order: nat, noise: Matrix): (r: Approximation)
    requires IsSquare(noise) && |noise| == order
    ensures r.Approximate? ==> IsSquare(r.square) && |r.square| == order
    ensures order == 0 ==> r.Undefined?
  {
    if order == 0 then Undefined
    else
      var g := InitialGuess(order, noise);
      if exists i :: 0 <= i < order && RowSum(g, i) == 0.0 then Undefined
      else
        var rows := RowPass(g, MagicConstant(order));
        if exists j :: 0 <= j < order && ColSum(rows, j) == 0.0 then
          if FirstRowUndefined(rows) then Undefined else Unbounded
        else Approximate(ColumnPass(rows, MagicConstant(order)))
  }

  /** A matrix whose entries are those of the row pass is the row pass. */
  lemma RowPassEntries(m: Matrix, m0: Matrix, target: real)
    requires IsSquare(m0) && |m| == |m0| && IsSquare(m)
    requires forall i :: 0 <= i < |m0| ==> RowSum(m0, i) != 0.0
    requires forall p, q :: 0 <= p < |m| && 0 <= q < |m| ==> m[p][q] == m0[p][q] * (target / RowSum(m0, p))
    ensures m == RowPass(m0, target)
  {
    forall p | 0 <= p < |m|
      ensures m[p] == RowPass(m0, target)[p]
    {
      assert forall q :: 0 <= q < |m| ==> m[p][q] == RowPass(m0, target)[p][q];
    }
  }

  /** A matrix whose entries are those of the column pass is the column pass. */
  lemma ColumnPassEntries(m: Matrix, m0: Matrix, target: real)
    requires IsSquare(m0) && |m| == |m0| && IsSquare(m)
    requires forall j :: 0 <= j < |m0| ==> ColSum(m0, j) != 0.0
    requires forall p, q :: 0 <= p < |m| && 0 <= q < |m| ==> m[p][q] == m0[p][q] * (target / ColSum(m0, q))
    ensures m == ColumnPass(m0, target)
  {
    forall p | 0 <= p < |m|
      ensures m[p] == ColumnPass(m0, target)[p]
    {
      assert forall q :: 0 <= q < |m| ==> m[p][q] == ColumnPass(m0, target)[p][q];
    }
  }

  /** After the row pass every row sums to the target. */
  lemma RowPassHitsTarget(m: Matrix, target: real)
    requires IsSquare(m)
    requires forall i :: 0 <= i < |m| ==> RowSum(m, i) != 0.0
    ensures forall i :: 0 <= i < |m| ==> RowSum(RowPass(m, target), i) == target
  {
    var r := RowPass(m, target);
    forall i | 0 <= i < |m|
      ensures RowSum(r, i) == target
    {
      var k := target / RowSum(m, i);
      assert r[i] == ScaleVector(m[i], k);
      SumScaleVector(m[i], k);
    }
  }

  /** After the column pass every column sums to the target. */
  lemma ColumnPassHitsTarget(m: Matrix, target: real)
    requires IsSquare(m)
    requires forall j :: 0 <= j < |m| ==> ColSum(m, j) != 0.0
    ensures forall j :: 0 <= j < |m| ==> ColSum(ColumnPass(m, target), j) == target
  {
    var r := ColumnPass(m, target);
    forall j | 0 <= j < |m|
      ensures ColSum(r, j) == target
    {
      var k := target / ColSum(m, j);
      assert forall i :: 0 <= i < |m| ==> Column(r, j)[i] == ScaleVector(Column(m, j), k)[i];
      assert Column(r, j) == ScaleVector(Column(m, j), k);
      SumScaleVector(Column(m, j), k);
    }
  }

  /**
   * A built approximate square has the requested order and every column sums
   * to the ideal magic constant n(n^2+1)/2.
   */
  lemma ApproximateColumnsHitTarget(order: nat, noise: Matrix)
    requires IsSquare(noise) && |noise| == order
    requires ApproximateSquare(order, noise).Approximate?
    ensures IsSquare(ApproximateSquare(order, noise).square)
    ensures |ApproximateSquare(order, noise).square| == order
    ensures forall j :: 0 <= j < order ==> ColSum(ApproximateSquare(order, noise).square, j) == MagicConstant(order)
  {
    var g := InitialGuess(order, noise);
    var rows := RowPass(g, MagicConstant(order));
    ColumnPassHitsTarget(rows, MagicConstant(order));
  }

  /**
   * The row loop of `create_approximate_magic_square`: each row in turn is
   * multiplied by target / (its sum). It stops with false at a row summing to zero.
   */
  method NormaliseRows(candidate: array2<real>, target: real) returns (ok: bool)
    requires candidate.Length0 == candidate.Length1
    modifies candidate
    ensures IsSquare(old(ToMatrix(candidate)))
    ensures ok <==> forall i :: 0 <= i < candidate.Length0 ==> RowSum(old(ToMatrix(candidate)), i) != 0.0
    ensures ok ==> ToMatrix(candidate) == RowPass(old(ToMatrix(candidate)), target)
  {
    ghost var m0 := ToMatrix(candidate);
    var n := candidate.Length0;
    var i := 0;
    while i < n
      invariant 0 <= i <= n
      invariant forall p :: 0 <= p < i ==> RowSum(m0, p) != 0.0
      invariant forall p, q :: 0 <= p < n && 0 <= q < n ==>
        candidate[p, q] == if p < i then m0[p][q] * (target / RowSum(m0, p)) else m0[p][q]
    {
      assert ArrayRow(candidate, i) == m0[i];
      var rowSum := Sum(ArrayRow(candidate, i));
      if rowSum == 0.0 {
        return false;
      }
      ScaleRowInPlace(candidate, i, target / rowSum);
      i := i + 1;
    }
    RowPassEntries(ToMatrix(candidate), m0, target);
    return true;
  }

  /**
   * The column loop of `create_approximate_magic_square`: each column in turn
   * is multiplied by target / (its sum). It stops with false at a column summing to zero.
   */
  method NormaliseColumns(candidate: array2<real>, target: real) returns (ok: bool)
    requires candidate.Length0 == candidate.Length1
    modifies candidate
    ensures IsSquare(old(ToMatrix(candidate)))
    ensures ok <==> forall j :: 0 <= j < candidate.Length0 ==> ColSum(old(ToMatrix(candidate)), j) != 0.0
    ensures ok ==> ToMatrix(candidate) == ColumnPass(old(ToMatrix(candidate)), target)
  {
    ghost var m0 := ToMatrix(candidate);
    var n := candidate.Length0;
    var j := 0;
    while j < n
      invariant 0 <= j <= n
      invariant forall q :: 0 <= q < j ==> ColSum(m0, q) != 0.0
      invariant forall p, q :: 0 <= p < n && 0 <= q < n ==>
        candidate[p, q] == if q < j then m0[p][q] * (target / ColSum(m0, q)) else m0[p][q]
    {
      assert ArrayColumn(candidate, j) == Column(m0, j);
      var colSum := Sum(ArrayColumn(candidate, j));
      if colSum == 0.0 {
        return false;
      }
      ScaleColumnInPlace(candidate, j, target / colSum);
      j := j + 1;
    }
    ColumnPassEntries(ToMatrix(candidate), m0, target);
    return true;
  }

  method CreateApproximateMagicSquare(order: nat, noise: Matrix) returns (r: Approximation)
    requires IsSquare(noise) && |noise| == order
    ensures r == ApproximateSquare(order, noise)
    ensures r.Approximate? ==> IsSquare(r.square) && |r.square| == order
  {
    if order == 0 {
      return Undefined;
    }
    var magicSum := MagicConstant(order);
    var avgValue := magicSum / order as real;
    var candidate := new real[order, order]((i, j) requires 0 <= i < order && 0 <= j < order => avgValue + noise[i][j]);
    assert ToMatrix(candidate) == InitialGuess(order, noise) by {
      assert forall p :: 0 <= p < order ==> ToMatrix(candidate)[p] == InitialGuess(order, noise)[p];
    }
    var rowsOk := NormaliseRows(candidate, magicSum);
    if !rowsOk {
      return Undefined;
    }
    var rows := ToMatrix(candidate);
    var colsOk := NormaliseColumns(candidate, magicSum);
    if !colsOk {
      return if FirstRowUndefined(rows) then Undefined else Unbounded;
    }
    r := Approximate(ToMatrix(candidate));
  }

  // ---------------------------------------------------------------------
  // Parity score

  /** The parity base: 0.8 + 0.2(1 - 1/n) for odd n, 0.5 + 0.2(1 - 1/n) for even n. */
  function ParityBase(n: nat): (b: real)
    requires n >= 1
    ensures n % 2 == 1 ==> 0.8 <= b < 1.0
    ensures n % 2 == 0 ==> 0.6 <= b < 0.7
  {
    var growth := 0.2 * (1.0 - 1.0 / n as real);
    if n % 2 == 1 then 0.8 + growth else 0.5 + growth
  }

  /** Every odd order has a higher parity base than every even order. */
  lemma OddBaseBeatsEven(odd: nat, even: nat)
    requires odd >= 1 && odd % 2 == 1 && even >= 1 && even % 2 == 0
    ensures ParityBase(odd) > ParityBase(even)
  {
  }

  /**
   * `parity_stability_score`: 0 for None, otherwise the parity base less
   * imbalance / (n * 1000), floored at 0.
   */
  function ParityStabilityScore(square: Option<Matrix>): (r: real)
    requires square.Some? ==> IsSquare(square.value) && |square.value| >= 1
    ensures r >= 0.0
    ensures square.None? ==> r == 0.0
    ensures square.Some? ==> r <= ParityBase(|square.value|) < 1.0
    ensures square.Some? && Imbalance(square.value) == 0.0 ==> r == ParityBase(|square.value|)
  {
    match square
    case None => 0.0
    case Some(m) =>
      var n := |m|;
      var penalty := Imbalance(m) / (n as real * 1000.0);
      Max(0.0, ParityBase(n) - penalty)
  }
}
