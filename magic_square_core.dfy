/**
 * The integer magic-square primitives the MagicCoupling engine builds on: the
 * Lo Shu square, an exact-equality validator with an optional expected
 * constant, and an imbalance measured against the matrix's own average line
 * sum, total / n.
 */
module MagicSquareCore {
  import opened Options
  import opened Matrices
  import opened LineSums
  import CoreMath

  /**
   * The Lo Shu square. This file builds it with integer entries; as exact
   * reals it is the very square the approximate-square primitives build.
   */
  function GenerateMagicSquare3x3(): (m: Matrix)
    ensures IsSquare(m) && |m| == 3
  {
    CoreMath.GenerateMagicSquare3x3()
  }

  /** The constant a line must hit: the one given, else the first row's sum. */
  function ExpectedConstant(m: Matrix, magicConstant: Option<real>): real
    requires IsSquare(m) && (|m| > 0 || magicConstant.Some?)
  {
    match magicConstant
    case Some(c) => c
    case None => RowSum(m, 0)
  }

  /**
   * `is_magic_square(m, magic_constant)`: true exactly when all n rows, all n
   * columns and both diagonals equal the expected constant. Without a given
   * constant the source reads the first row, which an empty matrix does not have.
   */
  method IsMagicSquare(m: Matrix, magicConstant: Option<real>) returns (b: bool)
    requires IsSquare(m) && (|m| > 0 || magicConstant.Some?)
    ensures magicConstant.Some? ==> (b <==> AllLinesEqual(m, magicConstant.value))
    ensures magicConstant.None? ==> (b <==> AllLinesEqual(m, RowSum(m, 0)))
  {
    var c := ExpectedConstant(m, magicConstant);
    b := CheckLines(m, c, 0.0);
    LinesWithinZero(m, c);
  }

  /** `calculate_imbalance`: the deviation of every line sum from total / n. */
  function Imbalance(m: Matrix): (r: real)
    requires IsSquare(m) && |m| >= 1
    ensures r >= 0.0
  {
    Deviation(m, Total(m) / |m| as real)
  }

  method CalculateImbalance(m: Matrix) returns (r: real)
    requires IsSquare(m) && |m| >= 1
    ensures r == Imbalance(m)
    ensures r >= 0.0
  {
    var magicConstant := Total(m) / |m| as real;
    r := MeasureDeviation(m, magicConstant);
  }

  /**
   * Any square whose lines all hit one constant (what IsMagicSquare accepts,
   * with or without a given constant) has zero imbalance: its total is n
   * times that constant.
   */
  lemma MagicHasZeroImbalance(m: Matrix, c: real)
    requires IsSquare(m) && |m| >= 1
    requires AllLinesEqual(m, c)
    ensures Imbalance(m) == 0.0
  {
    TotalOfEqualRows(m, c);
    assert Total(m) / |m| as real == c;
    DeviationZeroIff(m, c);
  }

  /**
   * Conversely, zero imbalance means every line equals the first row's sum,
   * so the validator without a constant accepts exactly the zero-imbalance squares.
   */
  lemma ZeroImbalanceIsMagic(m: Matrix)
    requires IsSquare(m) && |m| >= 1
    ensures Imbalance(m) == 0.0 <==> AllLinesEqual(m, RowSum(m, 0))
  {
    var c := Total(m) / |m| as real;
    DeviationZeroIff(m, c);
    if AllLinesEqual(m, RowSum(m, 0)) {
      MagicHasZeroImbalance(m, RowSum(m, 0));
    }
  }

  /** The Lo Shu square has every line equal to 15, hence zero imbalance. */
  lemma LoShuIsMagic()
    ensures AllLinesEqual(GenerateMagicSquare3x3(), 15.0)
    ensures RowSum(GenerateMagicSquare3x3(), 0) == 15.0
    ensures Imbalance(GenerateMagicSquare3x3()) == 0.0
  {
    var m := GenerateMagicSquare3x3();
    forall i | 0 <= i < 3
      ensures RowSum(m, i) == 15.0 && ColSum(m, i) == 15.0
    {
      SumOfThree(m[i]);
      SumOfThree(Column(m, i));
    }
    SumOfThree(Diagonal(m));
    SumOfThree(AntiDiagonal(m));
    MagicHasZeroImbalance(m, 15.0);
  }

  /** The matrix 1..9 in row order is not magic: its imbalance is 24. */
  lemma ChaoticMatrixImbalance()
    ensures Imbalance([[1.0, 2.0, 3.0], [4.0, 5.0, 6.0], [7.0, 8.0, 9.0]]) == 24.0
  {
    var m: Matrix := [[1.0, 2.0, 3.0], [4.0, 5.0, 6.0], [7.0, 8.0, 9.0]];
    SumOfThree(m[0]);
    SumOfThree(m[1]);
    SumOfThree(m[2]);
    SumOfThree(Column(m, 0));
    SumOfThree(Column(m, 1));
    SumOfThree(Column(m, 2));
    SumOfThree(Diagonal(m));
    SumOfThree(AntiDiagonal(m));
    SumOfThree(seq(3, i requires 0 <= i < 3 => RowSum(m, i)));
    assert Total(m) == 45.0;
  }
}
