/** Dense real matrices, stored as sequences of rows, with the few array
    operations the network engine needs: products, transposes, the
    column-wise broadcast of a bias, elementwise arithmetic and reductions.
    Reals are idealised: there is no rounding anywhere in this model. */
module Matrices {

  type Matrix = seq<seq<real>>

  /** M has exactly r rows of exactly c entries each. */
  predicate IsShape(M: Matrix, r: nat, c: nat) {
    |M| == r && forall i :: 0 <= i < r ==> |M[i]| == c
  }

  /** The column count of a matrix that has at least one row. */
  function Cols(M: Matrix): nat {
    if |M| == 0 then 0 else |M[0]|
  }

  /** Row by row, A and B have the same lengths. */
  predicate SameShape(A: Matrix, B: Matrix) {
    |A| == |B| && forall i :: 0 <= i < |A| ==> |A[i]| == |B[i]|
  }

  /** np.zeros((r, c)) */
  function Zeros(r: nat, c: nat): (Z: Matrix)
    ensures IsShape(Z, r, c)
    ensures forall i, j :: 0 <= i < r && 0 <= j < c ==> Z[i][j] == 0.0
  {
    seq(r, _ => seq(c, _ => 0.0))
  }

  /** s * M */
  function Scale(s: real, M: Matrix): (R: Matrix)
    ensures SameShape(R, M)
    ensures forall i, j :: 0 <= i < |M| && 0 <= j < |M[i]| ==> R[i][j] == s * M[i][j]
  {
    seq(|M|, i requires 0 <= i < |M| =>
      seq(|M[i]|, j requires 0 <= j < |M[i]| => s * M[i][j]))
  }

  /** A + B, elementwise */
  function Add(A: Matrix, B: Matrix): (R: Matrix)
    requires SameShape(A, B)
    ensures SameShape(R, A)
    ensures forall i, j :: 0 <= i < |A| && 0 <= j < |A[i]| ==> R[i][j] == A[i][j] + B[i][j]
  {
    seq(|A|, i requires 0 <= i < |A| =>
      seq(|A[i]|, j requires 0 <= j < |A[i]| => A[i][j] + B[i][j]))
  }

  /** A - B, elementwise */
  function Sub(A: Matrix, B: Matrix): (R: Matrix)
    requires SameShape(A, B)
    ensures SameShape(R, A)
    ensures forall i, j :: 0 <= i < |A| && 0 <= j < |A[i]| ==> R[i][j] == A[i][j] - B[i][j]
  {
    seq(|A|, i requires 0 <= i < |A| =>
      seq(|A[i]|, j requires 0 <= j < |A[i]| => A[i][j] - B[i][j]))
  }

  /** The sum of the entries of a vector. */
  function Sum(v: seq<real>): real
    decreases |v|
  {
    if |v| == 0 then 0.0 else Sum(v[..|v| - 1]) + v[|v| - 1]
  }

  /** The inner product of two vectors of equal length. */
  function Dot(u: seq<real>, v: seq<real>): real
    requires |u| == |v|
    decreases |u|
  {
    if |u| == 0 then 0.0 else Dot(u[..|u| - 1], v[..|u| - 1]) + u[|u| - 1] * v[|u| - 1]
  }

  /** Column j of M. */
  function Col(M: Matrix, j: nat): (v: seq<real>)
    requires forall i :: 0 <= i < |M| ==> j < |M[i]|
    ensures |v| == |M| && forall i :: 0 <= i < |M| ==> v[i] == M[i][j]
  {
    seq(|M|, i requires 0 <= i < |M| => M[i][j])
  }

  /** np.dot(A, B): each row of A has as many entries as B has rows. */
  function MatMul(A: Matrix, B: Matrix): (R: Matrix)
    requires forall i :: 0 <= i < |A| ==> |A[i]| == |B|
    requires IsShape(B, |B|, Cols(B))
    ensures IsShape(R, |A|, Cols(B))
    ensures forall i, j :: 0 <= i < |A| && 0 <= j < Cols(B) ==> R[i][j] == Dot(A[i], Col(B, j))
  {
    seq(|A|, i requires 0 <= i < |A| =>
      seq(Cols(B), j requires 0 <= j < Cols(B) => Dot(A[i], Col(B, j))))
  }

  /** M.T */
  function Transpose(M: Matrix): (R: Matrix)
    requires IsShape(M, |M|, Cols(M))
    ensures IsShape(R, Cols(M), |M|)
    ensures forall j, i :: 0 <= j < Cols(M) && 0 <= i < |M| ==> R[j][i] == M[i][j]
  {
    seq(Cols(M), j requires 0 <= j < Cols(M) => Col(M, j))
  }

  /** Z + b, where the column vector b (one entry per row of Z) is
      broadcast across every column of Z. */
  function AddColumn(Z: Matrix, b: Matrix): (R: Matrix)
    requires IsShape(b, |Z|, 1)
    ensures SameShape(R, Z)
    ensures forall i, j :: 0 <= i < |Z| && 0 <= j < |Z[i]| ==> R[i][j] == Z[i][j] + b[i][0]
  {
    seq(|Z|, i requires 0 <= i < |Z| =>
      seq(|Z[i]|, j requires 0 <= j < |Z[i]| => Z[i][j] + b[i][0]))
  }

  /** np.sum(M, axis=1, keepdims=True) */
  function RowSums(M: Matrix): (R: Matrix)
    ensures IsShape(R, |M|, 1)
    ensures forall i :: 0 <= i < |M| ==> R[i][0] == Sum(M[i])
  {
    seq(|M|, i requires 0 <= i < |M| => [Sum(M[i])])
  }

  /** np.sum(np.square(M)) */
  function SumSquares(M: Matrix): real
    decreases |M|
  {
    if |M| == 0 then 0.0 else SumSquares(M[..|M| - 1]) + Dot(M[|M| - 1], M[|M| - 1])
  }

  /** The sum over t < n of A[i][t] * B[t][j], written out over indices. */
  function SumOfProducts(A: Matrix, B: Matrix, i: nat, j: nat, n: nat): real
    requires i < |A| && n <= |A[i]| && n <= |B|
    requires forall t :: 0 <= t < n ==> j < |B[t]|
    decreases n
  {
    if n == 0 then 0.0 else SumOfProducts(A, B, i, j, n - 1) + A[i][n - 1] * B[n - 1][j]
  }

  /** Entry (i, j) of a product is the sum over k of A[i][k] * B[k][j]. */
  lemma {:induction false} MatMulEntry(A: Matrix, B: Matrix, i: nat, j: nat)
    requires forall r :: 0 <= r < |A| ==> |A[r]| == |B|
    requires IsShape(B, |B|, Cols(B))
    requires i < |A| && j < Cols(B)
    ensures MatMul(A, B)[i][j] == SumOfProducts(A, B, i, j, |B|)
  {
    DotPrefix(A, B, i, j, |B|);
    assert A[i][..|B|] == A[i];
    assert Col(B, j)[..|B|] == Col(B, j);
  }

  lemma {:induction false} DotPrefix(A: Matrix, B: Matrix, i: nat, j: nat, n: nat)
    requires forall r :: 0 <= r < |A| ==> |A[r]| == |B|
    requires IsShape(B, |B|, Cols(B))
    requires i < |A| && j < Cols(B) && n <= |B|
    ensures Dot(A[i][..n], Col(B, j)[..n]) == SumOfProducts(A, B, i, j, n)
    decreases n
  {
    if n > 0 {
      DotPrefix(A, B, i, j, n - 1);
      assert A[i][..n][..n - 1] == A[i][..n - 1];
      assert Col(B, j)[..n][..n - 1] == Col(B, j)[..n - 1];
    }
  }

  /** An inner product whose every product term is non-negative is
      non-negative. */
  lemma {:induction false} DotNonNegative(u: seq<real>, v: seq<real>)
    requires |u| == |v| && forall k :: 0 <= k < |u| ==> u[k] * v[k] >= 0.0
    ensures Dot(u, v) >= 0.0
    decreases |u|
  {
    if |u| > 0 {
      var n := |u| - 1;
      DotNonNegative(u[..n], v[..n]);
      assert u[n] * v[n] >= 0.0;
    }
  }

  /** ... and positive once one of those terms is positive. The two
      vectors are kept apart so that the solver keeps the strict bound on
      the product term. */
  lemma {:induction false} DotPositive(u: seq<real>, v: seq<real>, k: nat)
    requires |u| == |v| && k < |u| && u[k] * v[k] > 0.0
    requires forall i :: 0 <= i < |u| ==> u[i] * v[i] >= 0.0
    ensures Dot(u, v) > 0.0
    decreases |u|
  {
    var n := |u| - 1;
    if k == n {
      DotNonNegative(u[..n], v[..n]);
    } else {
      assert u[..n][k] == u[k] && v[..n][k] == v[k];
      DotPositive(u[..n], v[..n], k);
      assert u[n] * v[n] >= 0.0;
    }
  }

  /** A vector's inner product with itself is never negative. */
  lemma DotSelfNonNegative(v: seq<real>)
    ensures Dot(v, v) >= 0.0
  {
    DotNonNegative(v, v);
  }

  /** A vector with a non-zero entry has a positive inner product with
      itself. */
  lemma DotSelfPositive(v: seq<real>, k: nat)
    requires k < |v| && v[k] != 0.0
    ensures Dot(v, v) > 0.0
  {
    DotPositive(v, v, k);
  }

  /** The sum of squares of a matrix is never negative. */
  lemma {:induction false} SumSquaresNonNegative(M: Matrix)
    ensures SumSquares(M) >= 0.0
    decreases |M|
  {
    if |M| > 0 {
      SumSquaresNonNegative(M[..|M| - 1]);
      DotSelfNonNegative(M[|M| - 1]);
    }
  }

  /** A matrix with a non-zero entry has a positive sum of squares. */
  lemma {:induction false} SumSquaresPositive(M: Matrix, i: nat, j: nat)
    requires i < |M| && j < |M[i]| && M[i][j] != 0.0
    ensures SumSquares(M) > 0.0
    decreases |M|
  {
    var n := |M| - 1;
    if i == n {
      SumSquaresNonNegative(M[..n]);
      DotSelfPositive(M[n], j);
    } else {
      assert M[..n][i] == M[i];
      SumSquaresPositive(M[..n], i, j);
      DotSelfNonNegative(M[n]);
    }
  }
}
