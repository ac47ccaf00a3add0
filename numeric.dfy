/** Scalar arithmetic shared by the codec stages: numpy's rounding, clipping and
    the conversion of a clipped sample back to an unsigned 8-bit value. */
module Numeric {

  /** An unsigned 8-bit sample, the element type of input and output images. */
  type Byte = b: int | 0 <= b < 256

  /** Distance between a real and an integer is at most one half. */
  predicate Nearest(x: real, n: int)
  {
    x - 0.5 <= n as real <= x + 0.5
  }

  /** A tie (exactly half-way between two integers) is broken towards the even one. */
  predicate TieToEven(x: real, n: int)
  {
    (n as real == x - 0.5 || n as real == x + 0.5) ==> n % 2 == 0
  }

  /** Rounding to the nearest integer, ties to even, as numpy's `around` with
      zero decimals does. */
  function Round(x: real): (n: int)
    ensures Nearest(x, n)
    ensures TieToEven(x, n)
  {
    var f := x.Floor;
    var d := x - f as real;
    if d < 0.5 then f
    else if d > 0.5 then f + 1
    else if f % 2 == 0 then f else f + 1
  }

  /** Nearest and TieToEven determine the rounded value: Round is the only
      function meeting its own contract. */
  lemma RoundUnique(x: real, n: int)
    requires Nearest(x, n) && TieToEven(x, n)
    ensures n == Round(x)
  {
  }

  /** Rounding leaves integers alone. */
  lemma RoundOfInt(n: int)
    ensures Round(n as real) == n
  {
    RoundUnique(n as real, n);
  }

  /** Rounding gives zero exactly on the closed interval [-1/2, 1/2]: one half
      rounds to the even neighbour zero. */
  lemma RoundIsZero(x: real)
    ensures Round(x) == 0 <==> -0.5 <= x <= 0.5
  {
    if -0.5 <= x <= 0.5 {
      RoundUnique(x, 0);
    }
  }

  /** numpy's clip of one value into [lo, hi]. */
  function Clip(v: real, lo: real, hi: real): (r: real)
    requires lo <= hi
    ensures lo <= r <= hi
    ensures lo <= v <= hi ==> r == v
    ensures v < lo ==> r == lo
    ensures hi < v ==> r == hi
  {
    if v < lo then lo else if hi < v then hi else v
  }

  /** Clipping to [0, 255] followed by the cast to an unsigned 8-bit integer;
      the cast truncates towards zero, which on a non-negative value is the floor. */
  function ToByte(v: real): (b: Byte)
    ensures b as real <= Clip(v, 0.0, 255.0) < b as real + 1.0
  {
    Clip(v, 0.0, 255.0).Floor
  }

  /** A sample that is already an integer in [0, 255] survives the conversion. */
  lemma ToByteOfByte(b: Byte)
    ensures ToByte(b as real) == b
  {
  }
}
