/**
 * The 2n+2 line sums of an order-n square (n rows, n columns, the main
 * diagonal and the anti-diagonal), the tolerance check both magic-square
 * validators run over them, and the absolute-deviation total both imbalance
 * measures accumulate. The two source files differ only in the constant they
 * measure against, so the loops live here and each file supplies its constant.
 */
module LineSums {
  import opened Matrices

  /** `np.sum(m[i, :])`. */
  function RowSum(m: Matrix, i: nat): real
    requires IsSquare(m) && i < |m|
  {
    Sum(m[i])
  }

  /** `m[:, j]`. */
  function Column(m: Matrix, j: nat): (c: seq<real>)
    requires IsSquare(m) && j < |m|
    ensures |c| == |m|
  {
    seq(|m|, i requires 0 <= i < |m| => m[i][j])
  }

  /** `np.sum(m[:, j])`. */
  function ColSum(m: Matrix, j: nat): real
    requires IsSquare(m) && j < |m|
  {
    Sum(Column(m, j))
  }

  /** `np.diag(m)`. */
  function Diagonal(m: Matrix): (d: seq<real>)
    requires IsSquare(m)
    ensures |d| == |m|
  {
    seq(|m|, i requires 0 <= i < |m| => m[i][i])
  }

  /** `np.diag(np.fliplr(m))`: the diagonal from top-right to bottom-left. */
  function AntiDiagonal(m: Matrix): (d: seq<real>)
    requires IsSquare(m)
    ensures |d| == |m|
  {
    seq(|m|, i requires 0 <= i < |m| => m[i][|m| - 1 - i])
  }

  function DiagSum(m: Matrix): real
    requires IsSquare(m)
  {
    Sum(Diagonal(m))
  }

  function AntiDiagSum(m: Matrix): real
    requires IsSquare(m)
  {
    Sum(AntiDiagonal(m))
  }

  /** `np.sum(m)`: the sum of the row sums. */
  function Total(m: Matrix): real
    requires IsSquare(m)
  {
    Sum(seq(|m|, i requires 0 <= i < |m| => RowSum(m, i)))
  }

  /** When every row sums to `c`, the whole matrix sums to n times `c`. */
  lemma TotalOfEqualRows(m: Matrix, c: real)
    requires IsSquare(m)
    requires forall i :: 0 <= i < |m| ==> RowSum(m, i) == c
    ensures Total(m) == |m| as real * c
  {
    SumConstant(seq(|m|, i requires 0 <= i < |m| => RowSum(m, i)), c);
  }

  /** Every row, every column and both diagonals sum to exactly `c`. */
  predicate AllLinesEqual(m: Matrix, c: real)
    requires IsSquare(m)
  {
    && (forall i :: 0 <= i < |m| ==> RowSum(m, i) == c && ColSum(m, i) == c)
    && DiagSum(m) == c
    && AntiDiagSum(m) == c
  }

  /** Every one of the 2n+2 line sums lies within `tol` of `c`. */
  predicate LinesWithin(m: Matrix, c: real, tol: real)
    requires IsSquare(m)
  {
    && (forall i :: 0 <= i < |m| ==> Abs(RowSum(m, i) - c) <= tol && Abs(ColSum(m, i) - c) <= tol)
    && Abs(DiagSum(m) - c) <= tol
    && Abs(AntiDiagSum(m) - c) <= tol
  }

  /** Within tolerance zero means exactly equal. */
  lemma LinesWithinZero(m: Matrix, c: real)
    requires IsSquare(m)
    ensures LinesWithin(m, c, 0.0) <==> AllLinesEqual(m, c)
  {
  }

  /** A larger tolerance accepts everything a smaller one accepts. */
  lemma LinesWithinMonotone(m: Matrix, c: real, tol: real, tol': real)
    requires IsSquare(m) && tol <= tol'
    requires LinesWithin(m, c, tol)
    ensures LinesWithin(m, c, tol')
  {
  }

  /**
   * The validator loop: row i and column i are checked together for each i,
   * returning false at the first line further than `tol` from `c`, then the
   * two diagonals.
   */
  method CheckLines(m: Matrix, c: real, tol: real) returns (ok: bool)
    requires IsSquare(m)
    ensures ok <==> LinesWithin(m, c, tol)
  {
    var i := 0;
    while i < |m|
      invariant 0 <= i <= |m|
      invariant forall k :: 0 <= k < i ==> Abs(RowSum(m, k) - c) <= tol && Abs(ColSum(m, k) - c) <= tol
    {
      if Abs(RowSum(m, i) - c) > tol {
        return false;
      }
      if Abs(ColSum(m, i) - c) > tol {
        return false;
      }
      i := i + 1;
    }
    if Abs(DiagSum(m) - c) > tol {
      return false;
    }
    if Abs(AntiDiagSum(m) - c) > tol {
      return false;
    }
    return true;
  }

  /** The deviations of rows and columns 0..k-1 from `c`, accumulated in loop order. */
  function DeviationUpTo(m: Matrix, c: real, k: nat): (d: real)
    requires IsSquare(m) && k <= |m|
    ensures d >= 0.0
  {
    if k == 0 then 0.0
    else DeviationUpTo(m, c, k - 1) + Abs(RowSum(m, k - 1) - c) + Abs(ColSum(m, k - 1) - c)
  }

  /** The sum of the absolute deviations of all 2n+2 line sums from `c`. */
  function Deviation(m: Matrix, c: real): (d: real)
    requires IsSquare(m)
    ensures d >= 0.0
  {
    DeviationUpTo(m, c, |m|) + Abs(DiagSum(m) - c) + Abs(AntiDiagSum(m) - c)
  }

  lemma {:induction false} DeviationUpToZero(m: Matrix, c: real, k: nat)
    requires IsSquare(m) && k <= |m|
    ensures DeviationUpTo(m, c, k) == 0.0 <==>
      forall i :: 0 <= i < k ==> RowSum(m, i) == c && ColSum(m, i) == c
  {
    if k > 0 {
      DeviationUpToZero(m, c, k - 1);
    }
  }

  /** The total deviation is zero exactly when every line sums to `c`. */
  lemma DeviationZeroIff(m: Matrix, c: real)
    requires IsSquare(m)
    ensures Deviation(m, c) == 0.0 <==> AllLinesEqual(m, c)
  {
    DeviationUpToZero(m, c, |m|);
  }

  /** The imbalance loop: rows and columns in index order, then both diagonals. */
  method MeasureDeviation(m: Matrix, c: real) returns (d: real)
    requires IsSquare(m)
    ensures d == Deviation(m, c)
  {
    d := 0.0;
    var i := 0;
    while i < |m|
      invariant 0 <= i <= |m|
      invariant d == DeviationUpTo(m, c, i)
    {
      d := d + Abs(RowSum(m, i) - c);
      d := d + Abs(ColSum(m, i) - c);
      i := i + 1;
    }
    d := d + Abs(DiagSum(m) - c);
    d := d + Abs(AntiDiagSum(m) - c);
  }
}
