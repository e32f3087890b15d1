/** Dense real matrices as row sequences: the arithmetic the adapters perform
    (`torch.matmul`, elementwise scaling and addition, einsum-style weighted sums). */
module Matrices {

  type Vector = seq<real>
  type Matrix = seq<Vector>

  /** `m` has `rows` rows of `cols` entries each. */
  predicate IsMatrix(m: Matrix, rows: nat, cols: nat) {
    |m| == rows && forall i :: 0 <= i < rows ==> |m[i]| == cols
  }

  /** Every entry of `m` is zero. */
  predicate IsZero(m: Matrix) {
    forall i, j :: 0 <= i < |m| && 0 <= j < |m[i]| ==> m[i][j] == 0.0
  }

  function Zeros(rows: nat, cols: nat): (z: Matrix)
    ensures IsMatrix(z, rows, cols) && IsZero(z)
  {
    seq(rows, i => seq(cols, j => 0.0))
  }

  function Dot(u: Vector, v: Vector): real
    requires |u| == |v|
  {
    if |u| == 0 then 0.0 else u[0] * v[0] + Dot(u[1..], v[1..])
  }

  function Column(m: Matrix, j: nat): (c: Vector)
    requires forall i :: 0 <= i < |m| ==> j < |m[i]|
    ensures |c| == |m| && forall i :: 0 <= i < |m| ==> c[i] == m[i][j]
  {
    seq(|m|, i requires 0 <= i < |m| => m[i][j])
  }

  /** The matrix product `a @ b`, where `b` has `cols` columns. */
  function MatMul(a: Matrix, b: Matrix, cols: nat): (c: Matrix)
    requires forall i :: 0 <= i < |a| ==> |a[i]| == |b|
    requires forall k :: 0 <= k < |b| ==> |b[k]| == cols
    ensures IsMatrix(c, |a|, cols)
    ensures forall i, j :: 0 <= i < |a| && 0 <= j < cols ==> c[i][j] == Dot(a[i], Column(b, j))
  {
    seq(|a|, i requires 0 <= i < |a| => seq(cols, j requires 0 <= j < cols => Dot(a[i], Column(b, j))))
  }

  /** Every entry multiplied by `c`. */
  function Scale(m: Matrix, c: real): (r: Matrix)
    ensures |r| == |m|
    ensures forall i :: 0 <= i < |m| ==> |r[i]| == |m[i]|
    ensures forall i, j :: 0 <= i < |m| && 0 <= j < |m[i]| ==> r[i][j] == m[i][j] * c
  {
    seq(|m|, i requires 0 <= i < |m| => seq(|m[i]|, j requires 0 <= j < |m[i]| => m[i][j] * c))
  }

  /** Entrywise sum of two matrices of the same shape. */
  function Add(a: Matrix, b: Matrix): (r: Matrix)
    requires |a| == |b| && forall i :: 0 <= i < |a| ==> |a[i]| == |b[i]|
    ensures |r| == |a|
    ensures forall i :: 0 <= i < |a| ==> |r[i]| == |a[i]|
    ensures forall i, j :: 0 <= i < |a| && 0 <= j < |a[i]| ==> r[i][j] == a[i][j] + b[i][j]
  {
    seq(|a|, i requires 0 <= i < |a| => seq(|a[i]|, j requires 0 <= j < |a[i]| => a[i][j] + b[i][j]))
  }

  lemma {:induction false} DotZero(u: Vector, v: Vector)
    requires |u| == |v|
    requires forall k :: 0 <= k < |v| ==> v[k] == 0.0
    ensures Dot(u, v) == 0.0
  {
    if |u| > 0 {
      DotZero(u[1..], v[1..]);
    }
  }

  /** Multiplying by a zero matrix gives a zero matrix. */
  lemma MatMulZero(a: Matrix, b: Matrix, cols: nat)
    requires forall i :: 0 <= i < |a| ==> |a[i]| == |b|
    requires forall k :: 0 <= k < |b| ==> |b[k]| == cols
    requires IsZero(b)
    ensures IsZero(MatMul(a, b, cols))
  {
    forall i, j | 0 <= i < |a| && 0 <= j < cols
      ensures MatMul(a, b, cols)[i][j] == 0.0
    {
      DotZero(a[i], Column(b, j));
    }
  }

  /** Adding a zero matrix of the same shape changes nothing. */
  lemma AddZero(a: Matrix, z: Matrix)
    requires |a| == |z| && forall i :: 0 <= i < |a| ==> |a[i]| == |z[i]|
    requires IsZero(z)
    ensures Add(a, z) == a
  {
    var r := Add(a, z);
    forall i | 0 <= i < |a|
      ensures r[i] == a[i]
    {
      assert forall j :: 0 <= j < |a[i]| ==> r[i][j] == a[i][j];
    }
  }

  /** `sum_k ws[k] * ms[k]`, each `ms[k]` a `rows` x `cols` matrix. */
  function WeightedSum(ws: seq<real>, ms: seq<Matrix>, rows: nat, cols: nat): (r: Matrix)
    requires |ws| == |ms|
    requires forall k :: 0 <= k < |ms| ==> IsMatrix(ms[k], rows, cols)
    ensures IsMatrix(r, rows, cols)
  {
    if |ws| == 0 then Zeros(rows, cols)
    else
      assert IsMatrix(ms[0], rows, cols);
      Add(Scale(ms[0], ws[0]), WeightedSum(ws[1..], ms[1..], rows, cols))
  }

  /** The weight vector that puts all mass on position `k`. */
  function OneHot(n: nat, k: nat): (w: seq<real>)
    requires k < n
    ensures |w| == n && w[k] == 1.0
    ensures forall j :: 0 <= j < n && j != k ==> w[j] == 0.0
  {
    seq(n, j => if j == k then 1.0 else 0.0)
  }

  lemma {:induction false} WeightedSumOfZeroWeights(ws: seq<real>, ms: seq<Matrix>, rows: nat, cols: nat)
    requires |ws| == |ms|
    requires forall k :: 0 <= k < |ms| ==> IsMatrix(ms[k], rows, cols)
    requires forall k :: 0 <= k < |ws| ==> ws[k] == 0.0
    ensures WeightedSum(ws, ms, rows, cols) == Zeros(rows, cols)
  {
    if |ws| > 0 {
      WeightedSumOfZeroWeights(ws[1..], ms[1..], rows, cols);
      var s := Scale(ms[0], ws[0]);
      var r := WeightedSum(ws, ms, rows, cols);
      forall i | 0 <= i < rows
        ensures r[i] == Zeros(rows, cols)[i]
      {
        assert forall j :: 0 <= j < cols ==> r[i][j] == 0.0;
      }
    }
  }

  /** A one-hot weighting picks out exactly one of the matrices. */
  lemma {:induction false} WeightedSumOneHot(n: nat, k: nat, ms: seq<Matrix>, rows: nat, cols: nat)
    requires k < n && |ms| == n
    requires forall q :: 0 <= q < n ==> IsMatrix(ms[q], rows, cols)
    ensures WeightedSum(OneHot(n, k), ms, rows, cols) == ms[k]
  {
    var w := OneHot(n, k);
    var r := WeightedSum(w, ms, rows, cols);
    if k == 0 {
      WeightedSumOfZeroWeights(w[1..], ms[1..], rows, cols);
      forall i | 0 <= i < rows
        ensures r[i] == ms[0][i]
      {
        assert forall j :: 0 <= j < cols ==> r[i][j] == ms[0][i][j];
      }
    } else {
      assert w[1..] == OneHot(n - 1, k - 1);
      WeightedSumOneHot(n - 1, k - 1, ms[1..], rows, cols);
      forall i | 0 <= i < rows
        ensures r[i] == ms[k][i]
      {
        assert forall j :: 0 <= j < cols ==> r[i][j] == ms[k][i][j];
      }
    }
  }
}
