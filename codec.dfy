/** The three codec stages of the block pipeline (report/Code/Codec.py): a level
    shift, the two-dimensional DCT in its matrix form, and scalar quantization.
    Every stage is an immutable value; encode and decode are functions of it. */
module Codec {
  import opened Numeric
  import opened Matrices

  /** The floating-point primitives the DCT stage is built from, numpy's `cos`,
      `sqrt` and `pi`. Their values are not modelled; a caller supplies them. */
  datatype Trig = Trig(cos: real -> real, sqrt: real -> real, pi: real)

  /** What the DCT stage needs of `sqrt`: the square root of two exceeds one,
      so 1/sqrt(2) is a proper fraction. */
  predicate TrigValid(t: Trig)
  {
    t.sqrt(2.0) > 1.0
  }

  /** A codec stage together with the configuration its constructor computed. */
  datatype Stage =
    | Shift
    | Dct(encodeMatrix: Matrix, decodeMatrix: Matrix, c: Matrix)
    | Quantization(qTable: IntMatrix)

  /** The stage's matrices are 8 by 8, so decode is defined on blocks. */
  predicate WellShaped(s: Stage)
  {
    match s
    case Shift => true
    case Dct(e, d, c) => IsBlock(e) && IsBlock(d) && IsBlock(c)
    case Quantization(q) => IsBlock(q)
  }

  /** Every entry of a quantization table is nonzero. */
  predicate NonZero(q: IntMatrix)
    requires IsBlock(q)
  {
    forall u, v :: 0 <= u < BlockSize && 0 <= v < BlockSize ==> q[u][v] != 0
  }

  /** Encode is defined too: quantization divides by every table entry. */
  predicate Ready(s: Stage)
  {
    WellShaped(s) && (s.Quantization? ==> NonZero(s.qTable))
  }

  /** A real that is a whole number. */
  predicate IsInteger(r: real)
  {
    r.Floor as real == r
  }

  /** Every entry of the array is a whole number. */
  predicate Integral(m: Matrix)
  {
    forall i, j :: 0 <= i < |m| && 0 <= j < |m[i]| ==> IsInteger(m[i][j])
  }

  // ---------------------------------------------------------------------------
  // Shift

  /** Shift encoding: subtract 128 from every element. */
  function ShiftEncode(x: Matrix): (y: Matrix)
    ensures SameShape(x, y)
    ensures forall i, j :: 0 <= i < |x| && 0 <= j < |x[i]| ==> y[i][j] == x[i][j] - 128.0
  {
    seq(|x|, i requires 0 <= i < |x| =>
      seq(|x[i]|, j requires 0 <= j < |x[i]| => x[i][j] - 128.0))
  }

  /** Shift decoding: add 128 to every element. */
  function ShiftDecode(y: Matrix): (x: Matrix)
    ensures SameShape(y, x)
    ensures forall i, j :: 0 <= i < |y| && 0 <= j < |y[i]| ==> x[i][j] == y[i][j] + 128.0
  {
    seq(|y|, i requires 0 <= i < |y| =>
      seq(|y[i]|, j requires 0 <= j < |y[i]| => y[i][j] + 128.0))
  }

  /** Decoding undoes encoding exactly, whatever the shape. */
  lemma ShiftRoundTrip(x: Matrix)
    ensures ShiftDecode(ShiftEncode(x)) == x
  {
    var r := ShiftDecode(ShiftEncode(x));
    assert |r| == |x|;
    forall i | 0 <= i < |x|
      ensures r[i] == x[i]
    {
    }
  }

  /** Encoding centres the unsigned 8-bit range: samples in [0, 255] land in
      [-128, 127], and the shape is kept. */
  lemma ShiftRange(x: Matrix)
    requires forall i, j :: 0 <= i < |x| && 0 <= j < |x[i]| ==> 0.0 <= x[i][j] <= 255.0
    ensures SameShape(x, ShiftEncode(x))
    ensures forall i, j :: 0 <= i < |x| && 0 <= j < |x[i]| ==> -128.0 <= ShiftEncode(x)[i][j] <= 127.0
  {
  }

  // ---------------------------------------------------------------------------
  // DCT

  /** The column vector 0..7, numpy's `arange(8).reshape([8, 1])`. */
  function Range8(): (r: seq<int>)
    ensures |r| == BlockSize && forall i :: 0 <= i < BlockSize ==> r[i] == i
  {
    seq(BlockSize, i requires 0 <= i < BlockSize => i)
  }

  /** The odd numbers 1, 3, .., 15, that is `2 * range8 + 1`. */
  function Odd8(): (r: seq<int>)
    ensures |r| == BlockSize && forall i :: 0 <= i < BlockSize ==> r[i] == 2 * i + 1
  {
    seq(BlockSize, i requires 0 <= i < BlockSize => 2 * i + 1)
  }

  /** Integer argument grid of the encode matrix, `range8 @ (2 * range8.T + 1)`:
      row u, column x holds u * (2x + 1). */
  function EncodeGrid(): (g: IntMatrix)
    ensures IsBlock(g)
    ensures forall u, x :: 0 <= u < BlockSize && 0 <= x < BlockSize ==> g[u][x] == u * (2 * x + 1)
  {
    OuterInt(Range8(), Odd8())
  }

  /** Integer argument grid of the decode matrix, `(2 * range8 + 1) @ range8.T`:
      row x, column u holds (2x + 1) * u. */
  function DecodeGrid(): (g: IntMatrix)
    ensures IsBlock(g)
    ensures forall x, u :: 0 <= x < BlockSize && 0 <= u < BlockSize ==> g[x][u] == (2 * x + 1) * u
  {
    OuterInt(Odd8(), Range8())
  }

  /** The decode grid is the transpose of the encode grid. */
  lemma DecodeGridIsTranspose()
    ensures DecodeGrid() == Transpose(EncodeGrid())
  {
    OuterIntSwap(Range8(), Odd8());
  }

  /** cos(g * pi / 16), one basis value. */
  function CosAt(t: Trig, g: int): real
  {
    t.cos(g as real * t.pi / 16.0)
  }

  /** CosAt applied to every entry of an integer grid. */
  function CosOfGrid(t: Trig, g: IntMatrix): (m: Matrix)
    requires IsBlock(g)
    ensures IsBlock(m)
    ensures forall i, j :: 0 <= i < BlockSize && 0 <= j < BlockSize ==> m[i][j] == CosAt(t, g[i][j])
  {
    seq(BlockSize, i requires 0 <= i < BlockSize =>
      seq(BlockSize, j requires 0 <= j < BlockSize => CosAt(t, g[i][j])))
  }

  /** The row vector [1/sqrt(2), 1, .., 1] of DCT normalisation factors. */
  function ScalingVector(t: Trig): (c: seq<real>)
    requires TrigValid(t)
    ensures |c| == BlockSize
    ensures c[0] == 1.0 / t.sqrt(2.0)
    ensures forall i :: 1 <= i < BlockSize ==> c[i] == 1.0
  {
    var h := 1.0 / t.sqrt(2.0);
    [h] + seq(BlockSize - 1, i => 1.0)
  }

  /** The DCT stage as its constructor builds it: the two cosine basis matrices
      and the scaling matrix `C.T @ C`. */
  function MakeDct(t: Trig): (s: Stage)
    requires TrigValid(t)
    ensures s.Dct? && Ready(s)
  {
    Dct(CosOfGrid(t, EncodeGrid()), CosOfGrid(t, DecodeGrid()),
        OuterReal(ScalingVector(t), ScalingVector(t)))
  }

  /** The decode basis matrix is the transpose of the encode basis matrix. */
  lemma DecodeMatrixIsTranspose(t: Trig)
    requires TrigValid(t)
    ensures MakeDct(t).decodeMatrix == Transpose(MakeDct(t).encodeMatrix)
  {
    var s := MakeDct(t);
    DecodeGridIsTranspose();
    var tr := Transpose(s.encodeMatrix);
    forall i | 0 <= i < BlockSize
      ensures s.decodeMatrix[i] == tr[i]
    {
      forall j | 0 <= j < BlockSize
        ensures s.decodeMatrix[i][j] == tr[i][j]
      {
        assert DecodeGrid()[i][j] == EncodeGrid()[j][i];
      }
    }
  }

  /** The scaling matrix is symmetric, and an entry differs from one exactly
      when it lies in row 0 or column 0. */
  lemma ScalingPattern(t: Trig)
    requires TrigValid(t)
    ensures Transpose(MakeDct(t).c) == MakeDct(t).c
    ensures forall u, v :: 0 <= u < BlockSize && 0 <= v < BlockSize ==>
      (MakeDct(t).c[u][v] == 1.0 <==> u != 0 && v != 0)
  {
    var c := MakeDct(t).c;
    var h := ScalingVector(t)[0];
    assert 0.0 < h < 1.0;
    assert h * h < 1.0;
    var tr := Transpose(c);
    forall i | 0 <= i < BlockSize
      ensures tr[i] == c[i]
    {
    }
  }

  /** DCT encoding: `1/4 * C * (E @ x @ E.T)`, the product with C elementwise. */
  function DctEncode(e: Matrix, c: Matrix, x: Matrix): (y: Matrix)
    requires IsBlock(e) && IsBlock(c) && IsBlock(x)
    ensures IsBlock(y)
  {
    Hadamard(Scale(0.25, c), MatMul(MatMul(e, x), Transpose(e)))
  }

  /** DCT decoding: `1/4 * (D @ (C * y) @ D.T)`. */
  function DctDecode(d: Matrix, c: Matrix, y: Matrix): (x: Matrix)
    requires IsBlock(d) && IsBlock(c) && IsBlock(y)
    ensures IsBlock(x)
  {
    Scale(0.25, MatMul(MatMul(d, Hadamard(c, y)), Transpose(d)))
  }

  // ---------------------------------------------------------------------------
  // Quantization

  /** One entry of the effective table. */
  function ScaledEntry(k: real, b: real): int
  {
    Round(k * b)
  }

  /** The table the constructor keeps: `around(k * qTable)`, computed once. */
  function MakeQuantTable(k: real, base: Matrix): (q: IntMatrix)
    ensures SameShape(base, q)
    ensures forall u, v :: 0 <= u < |base| && 0 <= v < |base[u]| ==> q[u][v] == Round(k * base[u][v])
  {
    seq(|base|, u requires 0 <= u < |base| =>
      seq(|base[u]|, v requires 0 <= v < |base[u]| => ScaledEntry(k, base[u][v])))
  }

  /** The effective table has no zero entry exactly when every scaled base
      entry lies outside [-1/2, 1/2]. */
  lemma QuantTableReady(k: real, base: Matrix)
    requires IsBlock(base)
    ensures Ready(Quantization(MakeQuantTable(k, base))) <==>
      forall u, v :: 0 <= u < BlockSize && 0 <= v < BlockSize ==> (k * base[u][v] < -0.5 || 0.5 < k * base[u][v])
  {
    var q := MakeQuantTable(k, base);
    forall u, v | 0 <= u < BlockSize && 0 <= v < BlockSize
      ensures q[u][v] == 0 <==> -0.5 <= k * base[u][v] <= 0.5
    {
      RoundIsZero(k * base[u][v]);
    }
  }

  /** One quantized sample, `around(x / qe)`: a whole number within one half
      of x / qe, an even one on a tie. */
  function QuantizeCell(x: real, qe: int): (r: real)
    requires qe != 0
    ensures IsInteger(r) && Nearest(x / qe as real, r.Floor) && TieToEven(x / qe as real, r.Floor)
  {
    Round(x / qe as real) as real
  }

  /** One dequantized sample, `around(y * qe)`: a whole number within one half
      of y * qe, an even one on a tie. */
  function DequantizeCell(y: real, qe: int): (r: real)
    ensures IsInteger(r) && Nearest(y * qe as real, r.Floor) && TieToEven(y * qe as real, r.Floor)
  {
    Round(y * qe as real) as real
  }

  /** Quantization encoding: `around(x / Q)` elementwise. */
  function QuantEncode(q: IntMatrix, x: Matrix): (y: Matrix)
    requires IsBlock(q) && NonZero(q) && IsBlock(x)
    ensures IsBlock(y) && Integral(y)
    ensures forall u, v :: 0 <= u < BlockSize && 0 <= v < BlockSize ==>
      y[u][v] == QuantizeCell(x[u][v], q[u][v])
  {
    seq(BlockSize, u requires 0 <= u < BlockSize =>
      seq(BlockSize, v requires 0 <= v < BlockSize => QuantizeCell(x[u][v], q[u][v])))
  }

  /** Quantization decoding: `around(y * Q)` elementwise. */
  function QuantDecode(q: IntMatrix, y: Matrix): (x: Matrix)
    requires IsBlock(q) && IsBlock(y)
    ensures IsBlock(x) && Integral(x)
  {
    seq(BlockSize, u requires 0 <= u < BlockSize =>
      seq(BlockSize, v requires 0 <= v < BlockSize => DequantizeCell(y[u][v], q[u][v])))
  }

  /** A product of two whole numbers is a whole number and rounds to itself. */
  lemma RoundOfProduct(a: real, b: int)
    requires IsInteger(a)
    ensures DequantizeCell(a, b) == a * b as real
  {
    var n := a.Floor;
    assert a * b as real == (n * b) as real;
    RoundOfInt(n * b);
  }

  /** On whole-number codes the decoder's rounding does nothing: decoding is
      the plain elementwise product with the table. */
  lemma QuantDecodeOfCodes(q: IntMatrix, y: Matrix)
    requires IsBlock(q) && IsBlock(y) && Integral(y)
    ensures forall u, v :: 0 <= u < BlockSize && 0 <= v < BlockSize ==>
      QuantDecode(q, y)[u][v] == y[u][v] * q[u][v] as real
  {
    forall u, v | 0 <= u < BlockSize && 0 <= v < BlockSize
      ensures QuantDecode(q, y)[u][v] == y[u][v] * q[u][v] as real
    {
      RoundOfProduct(y[u][v], q[u][v]);
      assert QuantDecode(q, y)[u][v] == DequantizeCell(y[u][v], q[u][v]);
    }
  }

  /** Quantizing then dequantizing one sample with table entry `qe`. */
  function Requantized(x: real, qe: int): real
    requires qe != 0
  {
    DequantizeCell(QuantizeCell(x, qe), qe)
  }

  lemma RequantizedIsMultiple(x: real, qe: int)
    requires qe != 0
    ensures Requantized(x, qe) == QuantizeCell(x, qe) * qe as real
  {
    RoundOfProduct(QuantizeCell(x, qe), qe);
  }

  /** For a positive entry the reconstruction error of one sample is at most
      half the step. */
  lemma CellErrorBound(x: real, qe: int)
    requires qe > 0
    ensures -(qe as real) / 2.0 <= Requantized(x, qe) - x <= qe as real / 2.0
  {
    var Q := qe as real;
    var d := QuantizeCell(x, qe) - x / Q;
    var err := Requantized(x, qe) - x;
    CellError(x, qe);
    assert err == d * Q;
    ScaleBound(d, Q);
    assert -Q / 2.0 <= err <= Q / 2.0;
  }

  /** The reconstruction error is the rounding error of x / qe, scaled by qe. */
  lemma CellError(x: real, qe: int)
    requires qe != 0
    ensures Requantized(x, qe) - x == (QuantizeCell(x, qe) - x / qe as real) * qe as real
    ensures -0.5 <= QuantizeCell(x, qe) - x / qe as real <= 0.5
  {
    var Q := qe as real;
    var n := QuantizeCell(x, qe);
    RequantizedIsMultiple(x, qe);
    assert (n - x / Q) * Q == n * Q - (x / Q) * Q;
    assert (x / Q) * Q == x;
  }

  /** |d| <= 1/2 scales to |d * Q| <= Q / 2 for positive Q. */
  lemma ScaleBound(d: real, Q: real)
    requires -0.5 <= d <= 0.5 && Q > 0.0
    ensures -Q / 2.0 <= d * Q <= Q / 2.0
  {
    assert (d + 0.5) * Q >= 0.0;
    assert (0.5 - d) * Q >= 0.0;
  }

  /** The round trip returns a sample exactly when the sample is a whole
      multiple of its table entry. */
  lemma CellExactIff(x: real, qe: int)
    requires qe != 0
    ensures Requantized(x, qe) == x <==> IsInteger(x / qe as real)
  {
    var Q := qe as real;
    var m := Round(x / Q);
    RequantizedIsMultiple(x, qe);
    if IsInteger(x / Q) {
      RoundOfInt((x / Q).Floor);
      assert m as real == x / Q;
      assert m as real * Q == x;
    }
    if Requantized(x, qe) == x {
      assert m as real * Q == x;
      assert x / Q == m as real;
    }
  }

  /** Block form of the error bound: for a table of positive entries every
      sample of decode(encode(x)) is within half a step of x. */
  lemma QuantErrorBound(q: IntMatrix, x: Matrix)
    requires IsBlock(q) && IsBlock(x)
    requires forall u, v :: 0 <= u < BlockSize && 0 <= v < BlockSize ==> q[u][v] > 0
    ensures forall u, v :: 0 <= u < BlockSize && 0 <= v < BlockSize ==>
      -(q[u][v] as real) / 2.0 <= QuantDecode(q, QuantEncode(q, x))[u][v] - x[u][v] <= q[u][v] as real / 2.0
  {
    forall u, v | 0 <= u < BlockSize && 0 <= v < BlockSize
      ensures -(q[u][v] as real) / 2.0 <= QuantDecode(q, QuantEncode(q, x))[u][v] - x[u][v] <= q[u][v] as real / 2.0
    {
      CellErrorBound(x[u][v], q[u][v]);
    }
  }

  /** Block form of the exactness condition: the round trip returns x exactly
      when every sample is a whole multiple of its table entry. */
  lemma QuantExactIff(q: IntMatrix, x: Matrix)
    requires IsBlock(q) && NonZero(q) && IsBlock(x)
    ensures QuantDecode(q, QuantEncode(q, x)) == x <==>
      forall u, v :: 0 <= u < BlockSize && 0 <= v < BlockSize ==> IsInteger(x[u][v] / q[u][v] as real)
  {
    var r := QuantDecode(q, QuantEncode(q, x));
    forall u, v | 0 <= u < BlockSize && 0 <= v < BlockSize
      ensures r[u][v] == x[u][v] <==> IsInteger(x[u][v] / q[u][v] as real)
    {
      CellExactIff(x[u][v], q[u][v]);
    }
    if forall u, v :: 0 <= u < BlockSize && 0 <= v < BlockSize ==> IsInteger(x[u][v] / q[u][v] as real) {
      forall u | 0 <= u < BlockSize
        ensures r[u] == x[u]
      {
      }
    }
  }

  /** Re-quantizing a dequantized sample gives back the same code. */
  lemma CellIdempotent(x: real, qe: int)
    requires qe != 0
    ensures QuantizeCell(DequantizeCell(QuantizeCell(x, qe), qe), qe) == QuantizeCell(x, qe)
  {
    var Q := qe as real;
    var m := Round(x / Q);
    var n := m as real;
    RoundOfProduct(n, qe);
    assert DequantizeCell(n, qe) == n * Q;
    TimesDiv(n, Q);
    RoundOfInt(m);
    assert QuantizeCell(n * Q, qe) == Round(n) as real;
  }

  lemma TimesDiv(n: real, Q: real)
    requires Q != 0.0
    ensures (n * Q) / Q == n
  {
  }

  /** Re-quantizing a dequantized block gives back the same codes. */
  lemma QuantIdempotent(q: IntMatrix, x: Matrix)
    requires IsBlock(q) && NonZero(q) && IsBlock(x)
    ensures QuantEncode(q, QuantDecode(q, QuantEncode(q, x))) == QuantEncode(q, x)
  {
    var y := QuantEncode(q, x);
    var y' := QuantEncode(q, QuantDecode(q, y));
    forall u | 0 <= u < BlockSize
      ensures y'[u] == y[u]
    {
      forall v | 0 <= v < BlockSize
        ensures y'[u][v] == y[u][v]
      {
        CellIdempotent(x[u][v], q[u][v]);
      }
    }
  }

  // ---------------------------------------------------------------------------
  // The common interface

  /** Stage encoding. */
  function Encode(s: Stage, x: Matrix): (y: Matrix)
    requires Ready(s) && IsBlock(x)
    ensures IsBlock(y)
  {
    match s
    case Shift => ShiftEncode(x)
    case Dct(e, _, c) => DctEncode(e, c, x)
    case Quantization(q) => QuantEncode(q, x)
  }

  /** Stage decoding. */
  function Decode(s: Stage, y: Matrix): (x: Matrix)
    requires WellShaped(s) && IsBlock(y)
    ensures IsBlock(x)
  {
    match s
    case Shift => ShiftDecode(y)
    case Dct(_, d, c) => DctDecode(d, c, y)
    case Quantization(q) => QuantDecode(q, y)
  }

  /** The built DCT stage decodes with its decode basis D, which is the
      transpose of the encode basis E: decoding is `1/4 * E.T @ (C * y) @ E`,
      the adjoint of encoding's `E @ x @ E.T`. */
  lemma DctStageDecode(t: Trig, y: Matrix)
    requires TrigValid(t) && IsBlock(y)
    ensures Decode(MakeDct(t), y) == DctDecode(MakeDct(t).decodeMatrix, MakeDct(t).c, y)
    ensures Decode(MakeDct(t), y) ==
      Scale(0.25, MatMul(MatMul(Transpose(MakeDct(t).encodeMatrix), Hadamard(MakeDct(t).c, y)), MakeDct(t).encodeMatrix))
  {
    var s := MakeDct(t);
    DecodeMatrixIsTranspose(t);
    TransposeTwice(s.encodeMatrix);
  }

  /** Decoding undoes encoding exactly on every block. */
  ghost predicate Exact(s: Stage)
  {
    Ready(s) && forall x {:trigger Decode(s, Encode(s, x))} :: IsBlock(x) ==> Decode(s, Encode(s, x)) == x
  }

  /** The shift stage is exact. */
  lemma ShiftExact()
    ensures Exact(Shift)
  {
    forall x | IsBlock(x)
      ensures Decode(Shift, Encode(Shift, x)) == x
    {
      ShiftRoundTrip(x);
    }
  }

  /** No quantization stage is exact: a block holding a quarter of the first
      table entry everywhere does not come back unchanged. */
  lemma QuantLossy(q: IntMatrix)
    requires Ready(Quantization(q))
    ensures !Exact(Quantization(q))
  {
    var s, h := Quantization(q), q[0][0] as real / 4.0;
    var x := seq(BlockSize, u requires 0 <= u < BlockSize =>
      seq(BlockSize, v requires 0 <= v < BlockSize => h));
    assert IsBlock(x) && x[0][0] == h;
    assert h / q[0][0] as real == 0.25;
    assert !IsInteger(x[0][0] / q[0][0] as real);
    QuantExactIff(q, x);
    var e := Encode(s, x);
    assert e == QuantEncode(q, x);
    assert Decode(s, e) == QuantDecode(q, e);
  }
}
