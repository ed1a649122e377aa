/**
 * Square matrices of exact reals, the value that every numpy array of the
 * coupling engine stands for, together with the block arithmetic used to
 * compose transition states and the in-place array steps the source performs.
 */
module Matrices {

  type Matrix = seq<seq<real>>

  /** Every row has as many entries as there are rows. */
  predicate IsSquare(m: Matrix)
  {
    forall i :: 0 <= i < |m| ==> |m[i]| == |m|
  }

  function Abs(x: real): real
  {
    if x < 0.0 then -x else x
  }

  function Min(x: real, y: real): real
  {
    if x <= y then x else y
  }

  function Max(x: real, y: real): real
  {
    if x >= y then x else y
  }

  /** `np.sum` of a vector. */
  function Sum(s: seq<real>): real
  {
    if |s| == 0 then 0.0 else s[0] + Sum(s[1..])
  }

  lemma SumOfThree(s: seq<real>)
    requires |s| == 3
    ensures Sum(s) == s[0] + s[1] + s[2]
  {
    assert Sum(s[1..]) == s[1] + Sum(s[2..]);
    assert Sum(s[2..]) == s[2] + Sum(s[3..]);
  }

  lemma SumOfFive(s: seq<real>)
    requires |s| == 5
    ensures Sum(s) == s[0] + s[1] + s[2] + s[3] + s[4]
  {
    assert Sum(s[1..]) == s[1] + Sum(s[2..]);
    assert Sum(s[2..]) == s[2] + Sum(s[3..]);
    assert Sum(s[3..]) == s[3] + Sum(s[4..]);
    assert Sum(s[4..]) == s[4] + Sum(s[5..]);
  }

  /** A vector whose entries all equal `c` sums to its length times `c`. */
  lemma {:induction false} SumConstant(s: seq<real>, c: real)
    requires forall k :: 0 <= k < |s| ==> s[k] == c
    ensures Sum(s) == |s| as real * c
  {
    if |s| > 0 {
      SumConstant(s[1..], c);
    }
  }

  /** `s * k` elementwise. */
  function ScaleVector(s: seq<real>, k: real): (r: seq<real>)
    ensures |r| == |s|
  {
    seq(|s|, i requires 0 <= i < |s| => s[i] * k)
  }

  /** Scaling a vector scales its sum. */
  lemma {:induction false} SumScaleVector(s: seq<real>, k: real)
    ensures Sum(ScaleVector(s, k)) == k * Sum(s)
  {
    if |s| > 0 {
      SumScaleVector(s[1..], k);
      assert forall i :: 0 <= i < |s| - 1 ==> ScaleVector(s, k)[1..][i] == ScaleVector(s[1..], k)[i];
      assert ScaleVector(s, k)[1..] == ScaleVector(s[1..], k);
    }
  }

  /** The n-by-n matrix of zeros (`np.zeros`). */
  function Zeros(rows: nat, cols: nat): (z: Matrix)
    ensures |z| == rows && forall i :: 0 <= i < rows ==> |z[i]| == cols
  {
    seq(rows, i => seq(cols, j => 0.0))
  }

  /** Entrywise sum of two matrices of equal shape (`m + d`). */
  function Add(m: Matrix, d: Matrix): (r: Matrix)
    requires IsSquare(m) && IsSquare(d) && |m| == |d|
    ensures IsSquare(r) && |r| == |m|
  {
    seq(|m|, i requires 0 <= i < |m| => seq(|m|, j requires 0 <= j < |m| => m[i][j] + d[i][j]))
  }

  /** Entrywise difference of two matrices of equal shape. */
  function Subtract(m: Matrix, d: Matrix): (r: Matrix)
    requires IsSquare(m) && IsSquare(d) && |m| == |d|
    ensures IsSquare(r) && |r| == |m|
  {
    seq(|m|, i requires 0 <= i < |m| => seq(|m|, j requires 0 <= j < |m| => m[i][j] - d[i][j]))
  }

  /** `m * k`. */
  function Scale(m: Matrix, k: real): (r: Matrix)
    requires IsSquare(m)
    ensures IsSquare(r) && |r| == |m|
  {
    seq(|m|, i requires 0 <= i < |m| => seq(|m|, j requires 0 <= j < |m| => m[i][j] * k))
  }

  /** The rows-by-cols block of `m` whose top-left corner is (r0, c0): `m[r0:r0+rows, c0:c0+cols]`. */
  function Block(m: Matrix, r0: nat, c0: nat, rows: nat, cols: nat): (b: Matrix)
    requires IsSquare(m) && r0 + rows <= |m| && c0 + cols <= |m|
    ensures |b| == rows && forall i :: 0 <= i < rows ==> |b[i]| == cols
  {
    seq(rows, i requires 0 <= i < rows => seq(cols, j requires 0 <= j < cols => m[r0 + i][c0 + j]))
  }

  /**
   * The (|a|+|b|)-order matrix holding `a` in its top-left block, `b` in its
   * bottom-right block and zeros elsewhere.
   */
  function BlockDiagonal(a: Matrix, b: Matrix): (r: Matrix)
    requires IsSquare(a) && IsSquare(b)
    ensures IsSquare(r) && |r| == |a| + |b|
  {
    var na, n := |a|, |a| + |b|;
    seq(n, i requires 0 <= i < n => seq(n, j requires 0 <= j < n =>
      if i < na && j < na then a[i][j]
      else if na <= i && na <= j then b[i - na][j - na]
      else 0.0))
  }

  /** The four blocks of a block-diagonal matrix are the two inputs and two zero blocks. */
  lemma BlockDiagonalBlocks(a: Matrix, b: Matrix)
    requires IsSquare(a) && IsSquare(b)
    ensures Block(BlockDiagonal(a, b), 0, 0, |a|, |a|) == a
    ensures Block(BlockDiagonal(a, b), |a|, |a|, |b|, |b|) == b
    ensures Block(BlockDiagonal(a, b), 0, |a|, |a|, |b|) == Zeros(|a|, |b|)
    ensures Block(BlockDiagonal(a, b), |a|, 0, |b|, |a|) == Zeros(|b|, |a|)
  {
    var m := BlockDiagonal(a, b);
    assert forall i :: 0 <= i < |a| ==> Block(m, 0, 0, |a|, |a|)[i] == a[i];
    assert forall i :: 0 <= i < |b| ==> Block(m, |a|, |a|, |b|, |b|)[i] == b[i];
    assert forall i :: 0 <= i < |a| ==> Block(m, 0, |a|, |a|, |b|)[i] == Zeros(|a|, |b|)[i];
    assert forall i :: 0 <= i < |b| ==> Block(m, |a|, 0, |b|, |a|)[i] == Zeros(|b|, |a|)[i];
  }

  // ---------------------------------------------------------------------
  // numpy arrays that the source updates in place

  /** Two square matrices of one order with equal entries are equal. */
  lemma EqualByEntries(m: Matrix, m': Matrix)
    requires IsSquare(m) && IsSquare(m') && |m| == |m'|
    requires forall i, j :: 0 <= i < |m| && 0 <= j < |m| ==> m[i][j] == m'[i][j]
    ensures m == m'
  {
    forall i | 0 <= i < |m|
      ensures m[i] == m'[i]
    {
      assert forall j :: 0 <= j < |m| ==> m[i][j] == m'[i][j];
    }
  }

  /** Adding a perturbation and taking it away again gives back the matrix. */
  lemma AddThenSubtract(m: Matrix, d: Matrix)
    requires IsSquare(m) && IsSquare(d) && |m| == |d|
    ensures Subtract(Add(m, d), d) == m
  {
    EqualByEntries(Subtract(Add(m, d), d), m);
  }

  /** The current contents of a two-dimensional array, as a matrix value. */
  function ToMatrix(arr: array2<real>): (m: Matrix)
    reads arr
    ensures |m| == arr.Length0
    ensures forall i :: 0 <= i < arr.Length0 ==> |m[i]| == arr.Length1
    ensures forall i, j :: 0 <= i < arr.Length0 && 0 <= j < arr.Length1 ==> m[i][j] == arr[i, j]
  {
    seq(arr.Length0, i requires 0 <= i < arr.Length0 reads arr =>
      seq(arr.Length1, j requires 0 <= j < arr.Length1 reads arr => arr[i, j]))
  }

  /** `arr[i, :]`. */
  function ArrayRow(arr: array2<real>, i: nat): (r: seq<real>)
    requires i < arr.Length0
    reads arr
    ensures |r| == arr.Length1 && forall j :: 0 <= j < arr.Length1 ==> r[j] == arr[i, j]
  {
    seq(arr.Length1, j requires 0 <= j < arr.Length1 reads arr => arr[i, j])
  }

  /** `arr[:, j]`. */
  function ArrayColumn(arr: array2<real>, j: nat): (c: seq<real>)
    requires j < arr.Length1
    reads arr
    ensures |c| == arr.Length0 && forall i :: 0 <= i < arr.Length0 ==> c[i] == arr[i, j]
  {
    seq(arr.Length0, i requires 0 <= i < arr.Length0 reads arr => arr[i, j])
  }

  /** `arr[off:off+n, off:off+n] = m` for the n-by-n matrix `m`. */
  method AssignBlock(arr: array2<real>, off: nat, m: Matrix)
    requires IsSquare(m) && off + |m| <= arr.Length0 && off + |m| <= arr.Length1
    modifies arr
    ensures forall i, j :: 0 <= i < arr.Length0 && 0 <= j < arr.Length1 ==>
      arr[i, j] == if off <= i < off + |m| && off <= j < off + |m| then m[i - off][j - off] else old(arr[i, j])
  {
    var i := 0;
    while i < |m|
      invariant 0 <= i <= |m|
      invariant forall p, q :: 0 <= p < arr.Length0 && 0 <= q < arr.Length1 ==>
        arr[p, q] == if off <= p < off + i && off <= q < off + |m| then m[p - off][q - off] else old(arr[p, q])
    {
      var j := 0;
      while j < |m|
        invariant 0 <= j <= |m|
        invariant forall p, q :: 0 <= p < arr.Length0 && 0 <= q < arr.Length1 ==>
          arr[p, q] == if (off <= p < off + i && off <= q < off + |m|) || (p == off + i && off <= q < off + j)
                       then m[p - off][q - off] else old(arr[p, q])
      {
        arr[off + i, off + j] := m[i][j];
        j := j + 1;
      }
      i := i + 1;
    }
  }

  /** `arr[off:off+n, off:off+n] += m * k` for the n-by-n matrix `m`. */
  method AddScaledBlock(arr: array2<real>, off: nat, m: Matrix, k: real)
    requires IsSquare(m) && off + |m| <= arr.Length0 && off + |m| <= arr.Length1
    modifies arr
    ensures forall i, j :: 0 <= i < arr.Length0 && 0 <= j < arr.Length1 ==>
      arr[i, j] == if off <= i < off + |m| && off <= j < off + |m|
                   then old(arr[i, j]) + m[i - off][j - off] * k else old(arr[i, j])
  {
    var i := 0;
    while i < |m|
      invariant 0 <= i <= |m|
      invariant forall p, q :: 0 <= p < arr.Length0 && 0 <= q < arr.Length1 ==>
        arr[p, q] == if off <= p < off + i && off <= q < off + |m|
                     then old(arr[p, q]) + m[p - off][q - off] * k else old(arr[p, q])
    {
      var j := 0;
      while j < |m|
        invariant 0 <= j <= |m|
        invariant forall p, q :: 0 <= p < arr.Length0 && 0 <= q < arr.Length1 ==>
          arr[p, q] == if (off <= p < off + i && off <= q < off + |m|) || (p == off + i && off <= q < off + j)
                       then old(arr[p, q]) + m[p - off][q - off] * k else old(arr[p, q])
      {
        arr[off + i, off + j] := arr[off + i, off + j] + m[i][j] * k;
        j := j + 1;
      }
      i := i + 1;
    }
  }

  /** `arr[i, :] *= k`. */
  method ScaleRowInPlace(arr: array2<real>, i: nat, k: real)
    requires i < arr.Length0
    modifies arr
    ensures forall p, q :: 0 <= p < arr.Length0 && 0 <= q < arr.Length1 ==>
      arr[p, q] == if p == i then old(arr[p, q]) * k else old(arr[p, q])
  {
    var j := 0;
    while j < arr.Length1
      invariant 0 <= j <= arr.Length1
      invariant forall p, q :: 0 <= p < arr.Length0 && 0 <= q < arr.Length1 ==>
        arr[p, q] == if p == i && q < j then old(arr[p, q]) * k else old(arr[p, q])
    {
      arr[i, j] := arr[i, j] * k;
      j := j + 1;
    }
  }

  /** `arr[:, j] *= k`. */
  method ScaleColumnInPlace(arr: array2<real>, j: nat, k: real)
    requires j < arr.Length1
    modifies arr
    ensures forall p, q :: 0 <= p < arr.Length0 && 0 <= q < arr.Length1 ==>
      arr[p, q] == if q == j then old(arr[p, q]) * k else old(arr[p, q])
  {
    var i := 0;
    while i < arr.Length0
      invariant 0 <= i <= arr.Length0
      invariant forall p, q :: 0 <= p < arr.Length0 && 0 <= q < arr.Length1 ==>
        arr[p, q] == if q == j && p < i then old(arr[p, q]) * k else old(arr[p, q])
    {
      arr[i, j] := arr[i, j] * k;
      i := i + 1;
    }
  }
}
