/** Two-dimensional arrays as sequences of rows, and the handful of numpy
    operations the codec stages use on them: transpose, outer product,
    matrix product and elementwise product. */
module Matrices {

  /** Side length of a block. */
  const BlockSize: nat := 8

  type Matrix = seq<seq<real>>
  type IntMatrix = seq<seq<int>>

  /** `m` has `rows` rows of `cols` entries each. */
  predicate IsMatrix<T>(m: seq<seq<T>>, rows: nat, cols: nat)
  {
    |m| == rows && forall i :: 0 <= i < rows ==> |m[i]| == cols
  }

  /** `a` and `b` have the same number of rows, row by row of the same length. */
  predicate SameShape<T, U>(a: seq<seq<T>>, b: seq<seq<U>>)
  {
    |a| == |b| && forall i :: 0 <= i < |a| ==> |a[i]| == |b[i]|
  }

  /** An 8 by 8 array. */
  predicate IsBlock<T>(m: seq<seq<T>>)
  {
    IsMatrix(m, BlockSize, BlockSize)
  }

  /** Rows and columns exchanged. */
  function Transpose<T>(m: seq<seq<T>>): (t: seq<seq<T>>)
    requires IsBlock(m)
    ensures IsBlock(t)
    ensures forall i, j :: 0 <= i < BlockSize && 0 <= j < BlockSize ==> t[i][j] == m[j][i]
  {
    seq(BlockSize, i requires 0 <= i < BlockSize =>
      seq(BlockSize, j requires 0 <= j < BlockSize => m[j][i]))
  }

  lemma TransposeTwice<T>(m: seq<seq<T>>)
    requires IsBlock(m)
    ensures Transpose(Transpose(m)) == m
  {
    var t := Transpose(Transpose(m));
    forall i | 0 <= i < BlockSize
      ensures t[i] == m[i]
    {
    }
  }

  /** Outer product of two integer vectors: numpy's `a @ b` for an 8 by 1
      column `a` and a 1 by 8 row `b`. */
  function OuterInt(a: seq<int>, b: seq<int>): (m: IntMatrix)
    requires |a| == BlockSize && |b| == BlockSize
    ensures IsBlock(m)
  {
    seq(BlockSize, i requires 0 <= i < BlockSize =>
      seq(BlockSize, j requires 0 <= j < BlockSize => a[i] * b[j]))
  }

  /** Outer product of two real vectors. The same construction as OuterInt;
      it is written twice because Dafny has no multiplication generic over
      int and real. */
  function OuterReal(a: seq<real>, b: seq<real>): (m: Matrix)
    requires |a| == BlockSize && |b| == BlockSize
    ensures IsBlock(m)
  {
    seq(BlockSize, i requires 0 <= i < BlockSize =>
      seq(BlockSize, j requires 0 <= j < BlockSize => a[i] * b[j]))
  }

  /** Exchanging the factors of an outer product transposes it. */
  lemma {:induction false} OuterIntSwap(a: seq<int>, b: seq<int>)
    requires |a| == BlockSize && |b| == BlockSize
    ensures OuterInt(b, a) == Transpose(OuterInt(a, b))
  {
    var l, r := OuterInt(b, a), Transpose(OuterInt(a, b));
    forall i | 0 <= i < BlockSize
      ensures l[i] == r[i]
    {
      forall j | 0 <= j < BlockSize
        ensures l[i][j] == r[i][j]
      {
        calc {
          l[i][j];
          b[i] * a[j];
          a[j] * b[i];
          OuterInt(a, b)[j][i];
          r[i][j];
        }
      }
    }
  }

  /** Sum of the products of corresponding entries; it vanishes when one
      factor is the zero vector. */
  function Dot(u: seq<real>, v: seq<real>): (r: real)
    requires |u| == |v|
    ensures (forall i :: 0 <= i < |u| ==> u[i] == 0.0) ==> r == 0.0
    ensures (forall i :: 0 <= i < |v| ==> v[i] == 0.0) ==> r == 0.0
    decreases |u|
  {
    if |u| == 0 then 0.0
    else Dot(u[..|u| - 1], v[..|v| - 1]) + u[|u| - 1] * v[|v| - 1]
  }

  /** Column `j` of a block. */
  function Column(m: Matrix, j: nat): (c: seq<real>)
    requires IsBlock(m) && j < BlockSize
    ensures |c| == BlockSize
    ensures forall i :: 0 <= i < BlockSize ==> c[i] == m[i][j]
  {
    seq(BlockSize, i requires 0 <= i < BlockSize => m[i][j])
  }

  /** Matrix product, numpy's `a @ b`. */
  function MatMul(a: Matrix, b: Matrix): (m: Matrix)
    requires IsBlock(a) && IsBlock(b)
    ensures IsBlock(m)
  {
    seq(BlockSize, i requires 0 <= i < BlockSize =>
      seq(BlockSize, j requires 0 <= j < BlockSize => Dot(a[i], Column(b, j))))
  }

  /** Elementwise product, numpy's `a * b` on equal shapes. */
  function Hadamard(a: Matrix, b: Matrix): (m: Matrix)
    requires IsBlock(a) && IsBlock(b)
    ensures IsBlock(m)
  {
    seq(BlockSize, i requires 0 <= i < BlockSize =>
      seq(BlockSize, j requires 0 <= j < BlockSize => a[i][j] * b[i][j]))
  }

  /** Scalar multiple, numpy's `k * a`. */
  function Scale(k: real, a: Matrix): (m: Matrix)
    requires IsBlock(a)
    ensures IsBlock(m)
  {
    seq(BlockSize, i requires 0 <= i < BlockSize =>
      seq(BlockSize, j requires 0 <= j < BlockSize => k * a[i][j]))
  }
}
