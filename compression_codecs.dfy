/** The composite pipeline and the image orchestrator (Code/CompressionCodecs.py):
    an ordered list of codec stages applied forwards to encode and backwards to
    decode, and `compress`, which crops an image to whole 8 by 8 blocks, sends
    every block of every channel through encode and decode in place, clips the
    result to unsigned 8-bit samples and squeezes a single channel away. */
module CompressionCodecs {
  import opened Numeric
  import opened Matrices
  import opened Codec

  datatype Option<T> = None | Some(value: T)

  // ---------------------------------------------------------------------------
  // Configuring the pipeline

  /** The codec classes a pipeline can be configured with. */
  datatype CodecKind = ShiftCodec | DCTCodec | QuantizationCodec

  /** The stage list used when the caller gives none. */
  const DefaultCodecs: seq<CodecKind> := [ShiftCodec, DCTCodec, QuantizationCodec]

  /** `codec(**kw)`: every class receives the same arguments and uses only
      those it needs. */
  function Construct(kind: CodecKind, k: real, qTable: Matrix, t: Trig): (s: Stage)
    requires TrigValid(t)
    ensures s.Shift? <==> kind == ShiftCodec
    ensures s.Dct? <==> kind == DCTCodec
    ensures s.Dct? ==> Ready(s)
    ensures s.Quantization? ==> SameShape(qTable, s.qTable)
  {
    match kind
    case ShiftCodec => Shift
    case DCTCodec => MakeDct(t)
    case QuantizationCodec => Quantization(MakeQuantTable(k, qTable))
  }

  /** `[codec(**kw) for codec in codecs]`. */
  function ConstructAll(kinds: seq<CodecKind>, k: real, qTable: Matrix, t: Trig): (ss: seq<Stage>)
    requires TrigValid(t)
    ensures |ss| == |kinds|
    ensures forall i :: 0 <= i < |kinds| ==>
      (ss[i].Shift? <==> kinds[i] == ShiftCodec) &&
      (ss[i].Dct? <==> kinds[i] == DCTCodec) &&
      (ss[i].Quantization? <==> kinds[i] == QuantizationCodec)
  {
    seq(|kinds|, i requires 0 <= i < |kinds| => Construct(kinds[i], k, qTable, t))
  }

  /** Without a codec list the pipeline is shift, DCT, quantization, in that
      order, the last two built from the shared arguments. */
  lemma DefaultPipeline(k: real, qTable: Matrix, t: Trig)
    requires TrigValid(t)
    ensures ConstructAll(DefaultCodecs, k, qTable, t) == [Shift, MakeDct(t), Quantization(MakeQuantTable(k, qTable))]
  {
  }

  /** Every stage can encode. */
  predicate AllReady(ss: seq<Stage>)
  {
    forall i :: 0 <= i < |ss| ==> Ready(ss[i])
  }

  /** Every stage can decode. */
  predicate AllShaped(ss: seq<Stage>)
  {
    forall i :: 0 <= i < |ss| ==> WellShaped(ss[i])
  }

  // ---------------------------------------------------------------------------
  // Encoding and decoding through the list

  /** The stages' encodings in list order, each output feeding the next stage. */
  function EncodeAll(ss: seq<Stage>, x: Matrix): (y: Matrix)
    requires AllReady(ss) && IsBlock(x)
    ensures IsBlock(y)
    decreases |ss|
  {
    if |ss| == 0 then x else EncodeAll(ss[1..], Codec.Encode(ss[0], x))
  }

  /** The stages' decodings in reverse list order: the last stage decodes first. */
  function DecodeAll(ss: seq<Stage>, y: Matrix): (x: Matrix)
    requires AllShaped(ss) && IsBlock(y)
    ensures IsBlock(x)
    decreases |ss|
  {
    if |ss| == 0 then y else Codec.Decode(ss[0], DecodeAll(ss[1..], y))
  }

  /** What happens to one block: `decode(encode(block))`. */
  function RoundTrip(ss: seq<Stage>, x: Matrix): (r: Matrix)
    requires AllReady(ss) && IsBlock(x)
    ensures IsBlock(r)
  {
    DecodeAll(ss, EncodeAll(ss, x))
  }

  /** A one-stage pipeline is that stage's own decode after encode. */
  lemma SingleStage(s: Stage, x: Matrix)
    requires Ready(s) && IsBlock(x)
    ensures AllReady([s])
    ensures RoundTrip([s], x) == Codec.Decode(s, Codec.Encode(s, x))
  {
    assert [s][1..] == [];
    var y := Codec.Encode(s, x);
    assert EncodeAll([s], x) == EncodeAll([], y) == y;
    assert DecodeAll([s], y) == Codec.Decode(s, DecodeAll([], y));
  }

  /** Encoding through a concatenation encodes through the first list, then the second. */
  lemma {:induction false} EncodeConcat(ps: seq<Stage>, qs: seq<Stage>, x: Matrix)
    requires AllReady(ps + qs) && IsBlock(x)
    ensures AllReady(ps) && AllReady(qs)
    ensures EncodeAll(ps + qs, x) == EncodeAll(qs, EncodeAll(ps, x))
    decreases |ps|
  {
    assert forall i :: 0 <= i < |ps| ==> (ps + qs)[i] == ps[i];
    assert forall i :: 0 <= i < |qs| ==> (ps + qs)[|ps| + i] == qs[i];
    if |ps| > 0 {
      assert (ps + qs)[1..] == ps[1..] + qs;
      EncodeConcat(ps[1..], qs, Codec.Encode(ps[0], x));
    } else {
      assert ps + qs == qs;
    }
  }

  /** Decoding through a concatenation decodes through the second list, then the first. */
  lemma {:induction false} DecodeConcat(ps: seq<Stage>, qs: seq<Stage>, y: Matrix)
    requires AllShaped(ps + qs) && IsBlock(y)
    ensures AllShaped(ps) && AllShaped(qs)
    ensures DecodeAll(ps + qs, y) == DecodeAll(ps, DecodeAll(qs, y))
    decreases |ps|
  {
    assert forall i :: 0 <= i < |ps| ==> (ps + qs)[i] == ps[i];
    assert forall i :: 0 <= i < |qs| ==> (ps + qs)[|ps| + i] == qs[i];
    if |ps| > 0 {
      assert (ps + qs)[1..] == ps[1..] + qs;
      DecodeConcat(ps[1..], qs, y);
    } else {
      assert ps + qs == qs;
    }
  }

  /** The reversal invariant: a pipeline of exact stages is exact, whatever
      their number and order. */
  lemma {:induction false} PipelineExact(ss: seq<Stage>, x: Matrix)
    requires forall i :: 0 <= i < |ss| ==> Exact(ss[i])
    requires IsBlock(x)
    ensures AllReady(ss)
    ensures RoundTrip(ss, x) == x
    decreases |ss|
  {
    if |ss| > 0 {
      var y := Codec.Encode(ss[0], x);
      PipelineExact(ss[1..], y);
      assert Exact(ss[0]);
    }
  }

  /** The round trip of a concatenation nests the second list's round trip
      inside the first list's encoding and decoding. */
  lemma RoundTripSplit(ps: seq<Stage>, qs: seq<Stage>, x: Matrix)
    requires AllReady(ps + qs) && IsBlock(x)
    ensures AllReady(ps) && AllReady(qs)
    ensures RoundTrip(ps + qs, x) == DecodeAll(ps, RoundTrip(qs, EncodeAll(ps, x)))
  {
    EncodeConcat(ps, qs, x);
    DecodeConcat(ps, qs, EncodeAll(qs, EncodeAll(ps, x)));
  }

  /** Exact stages at the end of the list cancel out. */
  lemma ExactSuffixCancels(ps: seq<Stage>, qs: seq<Stage>, x: Matrix)
    requires AllReady(ps + qs) && IsBlock(x)
    requires forall i :: 0 <= i < |qs| ==> Exact(qs[i])
    ensures AllReady(ps)
    ensures RoundTrip(ps + qs, x) == RoundTrip(ps, x)
  {
    RoundTripSplit(ps, qs, x);
    PipelineExact(qs, EncodeAll(ps, x));
  }

  /** When quantization is the last stage, all loss happens there: the block
      handed to the other stages' decoders is their encoder's output with
      every coefficient moved by at most half its step. */
  lemma LossAtQuantization(ps: seq<Stage>, q: IntMatrix, x: Matrix)
    requires AllReady(ps) && IsBlock(q) && IsBlock(x)
    requires forall u, v :: 0 <= u < BlockSize && 0 <= v < BlockSize ==> q[u][v] > 0
    ensures AllReady(ps + [Quantization(q)])
    ensures RoundTrip(ps + [Quantization(q)], x) == DecodeAll(ps, QuantDecode(q, QuantEncode(q, EncodeAll(ps, x))))
    ensures forall u, v :: 0 <= u < BlockSize && 0 <= v < BlockSize ==>
      -(q[u][v] as real) / 2.0 <= QuantDecode(q, QuantEncode(q, EncodeAll(ps, x)))[u][v] - EncodeAll(ps, x)[u][v] <= q[u][v] as real / 2.0
  {
    var s := Quantization(q);
    assert Ready(s);
    assert AllReady(ps + [s]) by {
      forall i | 0 <= i < |ps + [s]|
        ensures Ready((ps + [s])[i])
      {
        if i < |ps| {
          assert (ps + [s])[i] == ps[i];
        }
      }
    }
    var f := EncodeAll(ps, x);
    RoundTripSplit(ps, [s], x);
    SingleStage(s, f);
    QuantErrorBound(q, f);
  }

  /** Prepending a stage encodes with it first and decodes with it last. */
  lemma PrependStage(s: Stage, ss: seq<Stage>, x: Matrix, y: Matrix)
    requires Ready(s) && AllReady(ss) && IsBlock(x) && IsBlock(y)
    ensures AllReady([s] + ss)
    ensures EncodeAll([s] + ss, x) == EncodeAll(ss, Codec.Encode(s, x))
    ensures DecodeAll([s] + ss, y) == Codec.Decode(s, DecodeAll(ss, y))
  {
    assert ([s] + ss)[1..] == ss;
  }

  /** Three stages encode in list order and decode in reverse order. */
  lemma ThreeStages(a: Stage, b: Stage, c: Stage, x: Matrix)
    requires Ready(a) && Ready(b) && Ready(c) && IsBlock(x)
    ensures AllReady([a, b, c])
    ensures RoundTrip([a, b, c], x) ==
      Codec.Decode(a, Codec.Decode(b, Codec.Decode(c, Codec.Encode(c, Codec.Encode(b, Codec.Encode(a, x))))))
  {
    var ea := Codec.Encode(a, x);
    var eb := Codec.Encode(b, ea);
    var ec := Codec.Encode(c, eb);
    SingleStage(c, eb);
    assert [b, c] == [b] + [c] && [a, b, c] == [a] + [b, c];
    PrependStage(b, [c], ea, ec);
    PrependStage(a, [b, c], x, ec);
  }

  /** The default pipeline's data flow: shift, DCT and quantization encode,
      then quantization, DCT and shift decode. */
  lemma DefaultRoundTrip(k: real, qTable: Matrix, t: Trig, x: Matrix)
    requires TrigValid(t) && IsBlock(x)
    requires Ready(Quantization(MakeQuantTable(k, qTable)))
    ensures AllReady(ConstructAll(DefaultCodecs, k, qTable, t))
    ensures RoundTrip(ConstructAll(DefaultCodecs, k, qTable, t), x) ==
      Codec.Decode(Shift, Codec.Decode(MakeDct(t), Codec.Decode(Quantization(MakeQuantTable(k, qTable)),
        Codec.Encode(Quantization(MakeQuantTable(k, qTable)), Codec.Encode(MakeDct(t), Codec.Encode(Shift, x))))))
  {
    DefaultPipeline(k, qTable, t);
    ThreeStages(Shift, MakeDct(t), Quantization(MakeQuantTable(k, qTable)), x);
  }

  // ---------------------------------------------------------------------------
  // Images

  /** A three-dimensional array of shape (height, width, channels). */
  datatype Volume<T> = Volume(height: nat, width: nat, channels: nat, px: seq<seq<seq<T>>>)
  {
    predicate Valid()
    {
      && |px| == height
      && (forall r :: 0 <= r < height ==> |px[r]| == width)
      && (forall r, c :: 0 <= r < height && 0 <= c < width ==> |px[r][c]| == channels)
    }
  }

  /** An input or output image: two-dimensional grayscale, or three-dimensional. */
  datatype Image =
    | Gray(height: nat, width: nat, samples: seq<seq<Byte>>)
    | Color(vol: Volume<Byte>)
  {
    predicate Valid()
    {
      match this
      case Gray(h, w, s) => IsMatrix(s, h, w)
      case Color(v) => v.Valid()
    }

    function Height(): nat
    {
      match this
      case Gray(h, _, _) => h
      case Color(v) => v.height
    }

    function Width(): nat
    {
      match this
      case Gray(_, w, _) => w
      case Color(v) => v.width
    }

    /** A grayscale image has one channel. */
    function Channels(): nat
    {
      match this
      case Gray(_, _, _) => 1
      case Color(v) => v.channels
    }
  }

  /** Two valid volumes of the same shape with equal samples are equal. */
  lemma VolumeExt<T>(a: Volume<T>, b: Volume<T>)
    requires a.Valid() && b.Valid()
    requires a.height == b.height && a.width == b.width && a.channels == b.channels
    requires forall r, c, p :: 0 <= r < a.height && 0 <= c < a.width && 0 <= p < a.channels ==>
      a.px[r][c][p] == b.px[r][c][p]
    ensures a == b
  {
    forall r | 0 <= r < a.height
      ensures a.px[r] == b.px[r]
    {
      forall c | 0 <= c < a.width
        ensures a.px[r][c] == b.px[r][c]
      {
      }
    }
  }

  /** `__reshape`: a two-dimensional image gains a trailing channel axis of
      length one; a three-dimensional one is kept. */
  function Reshape(img: Image): (v: Volume<Byte>)
    requires img.Valid()
    ensures v.Valid()
    ensures v.height == img.Height() && v.width == img.Width() && v.channels == img.Channels()
    ensures img.Gray? ==> forall r, c :: 0 <= r < v.height && 0 <= c < v.width ==> v.px[r][c] == [img.samples[r][c]]
    ensures img.Color? ==> v == img.vol
  {
    match img
    case Gray(h, w, s) =>
      Volume(h, w, 1, seq(h, r requires 0 <= r < h => seq(w, c requires 0 <= c < w => [s[r][c]])))
    case Color(v) => v
  }

  /** `__reshape_back`: a result with exactly one channel loses its channel axis. */
  function ReshapeBack(v: Volume<Byte>): (img: Image)
    requires v.Valid()
    ensures img.Valid()
    ensures img.Height() == v.height && img.Width() == v.width && img.Channels() == v.channels
    ensures img.Gray? <==> v.channels == 1
    ensures img.Gray? ==> forall r, c :: 0 <= r < v.height && 0 <= c < v.width ==> img.samples[r][c] == v.px[r][c][0]
    ensures img.Color? ==> img.vol == v
  {
    if v.channels == 1 then
      Gray(v.height, v.width, seq(v.height, r requires 0 <= r < v.height =>
        seq(v.width, c requires 0 <= c < v.width => v.px[r][c][0])))
    else Color(v)
  }

  /** Squeezing undoes the promotion of a grayscale image. */
  lemma ReshapeRoundTrip(img: Image)
    requires img.Valid() && (img.Gray? || img.Channels() != 1)
    ensures ReshapeBack(Reshape(img)) == img
  {
    if img.Gray? {
      var g := ReshapeBack(Reshape(img));
      forall r | 0 <= r < img.height
        ensures g.samples[r] == img.samples[r]
      {
      }
    }
  }

  /** The largest multiple of 8 not above n, `int(n / 8) * 8`. */
  function Nearest8(n: nat): (m: nat)
    ensures m % BlockSize == 0 && m <= n < m + BlockSize
  {
    n / BlockSize * BlockSize
  }

  /** `__crop8`: keep the first rows and columns up to the largest multiples of 8. */
  function Crop8<T>(v: Volume<T>): (w: Volume<T>)
    requires v.Valid()
    ensures w.Valid()
    ensures w.height == Nearest8(v.height) && w.width == Nearest8(v.width) && w.channels == v.channels
    ensures forall r, c :: 0 <= r < w.height && 0 <= c < w.width ==> w.px[r][c] == v.px[r][c]
  {
    var h, wd := Nearest8(v.height), Nearest8(v.width);
    Volume(h, wd, v.channels, seq(h, r requires 0 <= r < h => v.px[r][..wd]))
  }

  /** Cropping is idempotent. */
  lemma CropIdempotent<T>(v: Volume<T>)
    requires v.Valid()
    ensures Crop8(Crop8(v)) == Crop8(v)
  {
    var a, b := Crop8(Crop8(v)), Crop8(v);
    VolumeExt(a, b);
  }

  /** A volume whose height and width are multiples of 8 is left unchanged. */
  lemma CropUnchanged<T>(v: Volume<T>)
    requires v.Valid() && v.height % BlockSize == 0 && v.width % BlockSize == 0
    ensures Crop8(v) == v
  {
    VolumeExt(Crop8(v), v);
  }

  /** `astype(np.float64)`. */
  function ToReal(v: Volume<Byte>): (w: Volume<real>)
    requires v.Valid()
    ensures w.Valid()
    ensures w.height == v.height && w.width == v.width && w.channels == v.channels
    ensures forall r, c, p :: 0 <= r < w.height && 0 <= c < w.width && 0 <= p < w.channels ==>
      w.px[r][c][p] == v.px[r][c][p] as real
  {
    Volume(v.height, v.width, v.channels,
      seq(v.height, r requires 0 <= r < v.height =>
        seq(v.width, c requires 0 <= c < v.width =>
          seq(v.channels, p requires 0 <= p < v.channels => v.px[r][c][p] as real))))
  }

  /** `clip(x, 0, 255).astype(np.uint8)`. */
  function ToBytes(v: Volume<real>): (w: Volume<Byte>)
    requires v.Valid()
    ensures w.Valid()
    ensures w.height == v.height && w.width == v.width && w.channels == v.channels
    ensures forall r, c, p :: 0 <= r < w.height && 0 <= c < w.width && 0 <= p < w.channels ==>
      w.px[r][c][p] == ToByte(v.px[r][c][p])
  {
    Volume(v.height, v.width, v.channels,
      seq(v.height, r requires 0 <= r < v.height =>
        seq(v.width, c requires 0 <= c < v.width =>
          seq(v.channels, p requires 0 <= p < v.channels => ToByte(v.px[r][c][p])))))
  }

  /** The block `x[i:i+8, j:j+8, p]`. */
  function BlockOf(v: Volume<real>, i: nat, j: nat, p: nat): (b: Matrix)
    requires v.Valid() && i + BlockSize <= v.height && j + BlockSize <= v.width && p < v.channels
    ensures IsBlock(b)
    ensures forall a, d :: 0 <= a < BlockSize && 0 <= d < BlockSize ==> b[a][d] == v.px[i + a][j + d][p]
  {
    seq(BlockSize, a requires 0 <= a < BlockSize =>
      seq(BlockSize, d requires 0 <= d < BlockSize => v.px[i + a][j + d][p]))
  }

  /** The block origins along an axis are the multiples of 8, and every index
      lies in the block of exactly one of them, the one at Nearest8. */
  lemma BlockOwner(r: nat, i: nat)
    ensures (i % BlockSize == 0 && i <= r < i + BlockSize) <==> i == Nearest8(r)
  {
  }

  /** A volume whose height and width are multiples of 8. */
  predicate Tiled<T>(v: Volume<T>)
  {
    v.Valid() && v.height % BlockSize == 0 && v.width % BlockSize == 0
  }

  /** One block per block row, block column and channel of `v`. */
  predicate IsTable(t: seq<seq<seq<Matrix>>>, v: Volume<real>)
  {
    && |t| == v.height / BlockSize
    && (forall bi :: 0 <= bi < |t| ==> |t[bi]| == v.width / BlockSize)
    && (forall bi, bj :: 0 <= bi < |t| && 0 <= bj < |t[bi]| ==> |t[bi][bj]| == v.channels)
    && (forall bi, bj, p :: 0 <= bi < |t| && 0 <= bj < |t[bi]| && 0 <= p < |t[bi][bj]| ==> IsBlock(t[bi][bj][p]))
  }

  /** Block number `b` along an axis whose length is a multiple of 8 lies inside it. */
  lemma TileFits(b: nat, n: nat)
    requires n % BlockSize == 0 && b < n / BlockSize
    ensures b * BlockSize + BlockSize <= n
  {
  }

  /** decode(encode(block)) for block (bi, bj) of channel p. */
  function TileRoundTrip(ss: seq<Stage>, v: Volume<real>, bi: nat, bj: nat, p: nat): (b: Matrix)
    requires AllReady(ss) && Tiled(v)
    requires bi < v.height / BlockSize && bj < v.width / BlockSize && p < v.channels
    ensures IsBlock(b)
  {
    TileFits(bi, v.height);
    TileFits(bj, v.width);
    RoundTrip(ss, BlockOf(v, bi * BlockSize, bj * BlockSize, p))
  }

  /** decode(encode(block)) for every block of `v`, indexed by block row,
      block column and channel. */
  function ProcessedBlocks(ss: seq<Stage>, v: Volume<real>): (t: seq<seq<seq<Matrix>>>)
    requires AllReady(ss) && Tiled(v)
    ensures IsTable(t, v)
    ensures forall bi, bj, p :: 0 <= bi < v.height / BlockSize && 0 <= bj < v.width / BlockSize && 0 <= p < v.channels ==>
      t[bi][bj][p] == TileRoundTrip(ss, v, bi, bj, p)
  {
    seq(v.height / BlockSize, bi requires 0 <= bi < v.height / BlockSize =>
      seq(v.width / BlockSize, bj requires 0 <= bj < v.width / BlockSize =>
        seq(v.channels, p requires 0 <= p < v.channels => TileRoundTrip(ss, v, bi, bj, p))))
  }

  /** The sample at (r, c, p) of the volume tiled by the blocks of `t`. */
  function TableSample(t: seq<seq<seq<Matrix>>>, v: Volume<real>, r: nat, c: nat, p: nat): real
    requires Tiled(v) && IsTable(t, v) && r < v.height && c < v.width && p < v.channels
  {
    t[r / BlockSize][c / BlockSize][p][r % BlockSize][c % BlockSize]
  }

  /** The volume tiled by the blocks of `t`. */
  function Assemble(t: seq<seq<seq<Matrix>>>, v: Volume<real>): (w: Volume<real>)
    requires Tiled(v) && IsTable(t, v)
    ensures Tiled(w)
    ensures w.height == v.height && w.width == v.width && w.channels == v.channels
    ensures forall r, c, p :: 0 <= r < w.height && 0 <= c < w.width && 0 <= p < w.channels ==>
      w.px[r][c][p] == TableSample(t, v, r, c, p)
  {
    Volume(v.height, v.width, v.channels,
      seq(v.height, r requires 0 <= r < v.height =>
        seq(v.width, c requires 0 <= c < v.width =>
          seq(v.channels, p requires 0 <= p < v.channels => TableSample(t, v, r, c, p)))))
  }

  /** The position of an index inside the block starting at a multiple of 8. */
  lemma BlockIndex(i: nat, a: nat)
    requires i % BlockSize == 0 && a < BlockSize
    ensures (i + a) / BlockSize == i / BlockSize && (i + a) % BlockSize == a
    ensures i / BlockSize * BlockSize == i
  {
  }

  /** The block of the assembled volume at (i, j) in channel p is the table's. */
  lemma AssembledBlock(t: seq<seq<seq<Matrix>>>, v: Volume<real>, i: nat, j: nat, p: nat)
    requires Tiled(v) && IsTable(t, v)
    requires i % BlockSize == 0 && j % BlockSize == 0
    requires i + BlockSize <= v.height && j + BlockSize <= v.width && p < v.channels
    ensures BlockOf(Assemble(t, v), i, j, p) == t[i / BlockSize][j / BlockSize][p]
  {
    var lhs, rhs := BlockOf(Assemble(t, v), i, j, p), t[i / BlockSize][j / BlockSize][p];
    forall a | 0 <= a < BlockSize
      ensures lhs[a] == rhs[a]
    {
      forall d | 0 <= d < BlockSize
        ensures lhs[a][d] == rhs[a][d]
      {
        BlockIndex(i, a);
        BlockIndex(j, d);
      }
    }
  }

  /** The volume after every block has been replaced by its round trip. */
  function ProcessVolume(ss: seq<Stage>, v: Volume<real>): (w: Volume<real>)
    requires AllReady(ss) && Tiled(v)
    ensures Tiled(w)
    ensures w.height == v.height && w.width == v.width && w.channels == v.channels
  {
    Assemble(ProcessedBlocks(ss, v), v)
  }

  /** Every 8 by 8 block of every channel is replaced by decode(encode(block)). */
  lemma BlockReplaced(ss: seq<Stage>, v: Volume<real>, i: nat, j: nat, p: nat)
    requires AllReady(ss) && Tiled(v)
    requires i % BlockSize == 0 && j % BlockSize == 0
    requires i + BlockSize <= v.height && j + BlockSize <= v.width && p < v.channels
    ensures BlockOf(ProcessVolume(ss, v), i, j, p) == RoundTrip(ss, BlockOf(v, i, j, p))
  {
    var t := ProcessedBlocks(ss, v);
    AssembledBlock(t, v, i, j, p);
    BlockIndex(i, 0);
    BlockIndex(j, 0);
    assert t[i / BlockSize][j / BlockSize][p] == TileRoundTrip(ss, v, i / BlockSize, j / BlockSize, p);
  }

  /** What `compress` returns. The output has the cropped height and width
      and the input's channel count, and is two-dimensional exactly when there
      is one channel. */
  function CompressSpec(ss: seq<Stage>, img: Image): (out: Image)
    requires AllReady(ss) && img.Valid()
    ensures out.Valid()
    ensures out.Height() == Nearest8(img.Height()) && out.Width() == Nearest8(img.Width())
    ensures out.Channels() == img.Channels()
    ensures out.Gray? <==> img.Channels() == 1
  {
    ReshapeBack(ToBytes(ProcessVolume(ss, ToReal(Crop8(Reshape(img))))))
  }

  /** Sample (i + a, j + d, p) of the clipped, squeezed, assembled volume is
      sample (a, d) of table block (i / 8, j / 8, p), clipped. */
  lemma AssembledOutput(t: seq<seq<seq<Matrix>>>, v: Volume<real>, i: nat, j: nat, p: nat, a: nat, d: nat)
    requires Tiled(v) && IsTable(t, v)
    requires i % BlockSize == 0 && j % BlockSize == 0 && a < BlockSize && d < BlockSize
    requires i + BlockSize <= v.height && j + BlockSize <= v.width && p < v.channels
    ensures var out := ReshapeBack(ToBytes(Assemble(t, v)));
            (if out.Gray? then out.samples[i + a][j + d] else out.vol.px[i + a][j + d][p]) ==
              ToByte(t[i / BlockSize][j / BlockSize][p][a][d])
  {
    BlockIndex(i, a);
    BlockIndex(j, d);
  }

  /** Each output sample is the clipped and truncated sample of its block's
      round trip: sample (i + a, j + d) of channel p, for a block origin (i, j)
      of the cropped image. */
  lemma CompressSamples(ss: seq<Stage>, img: Image, i: nat, j: nat, p: nat, a: nat, d: nat)
    requires AllReady(ss) && img.Valid()
    requires i % BlockSize == 0 && j % BlockSize == 0 && a < BlockSize && d < BlockSize
    requires i + BlockSize <= Nearest8(img.Height()) && j + BlockSize <= Nearest8(img.Width()) && p < img.Channels()
    ensures var out := CompressSpec(ss, img);
            var f := ToReal(Crop8(Reshape(img)));
            (if out.Gray? then out.samples[i + a][j + d] else out.vol.px[i + a][j + d][p]) ==
              ToByte(RoundTrip(ss, BlockOf(f, i, j, p))[a][d])
  {
    var f := ToReal(Crop8(Reshape(img)));
    var t := ProcessedBlocks(ss, f);
    AssembledOutput(t, f, i, j, p, a, d);
    BlockIndex(i, 0);
    BlockIndex(j, 0);
    assert t[i / BlockSize][j / BlockSize][p] == TileRoundTrip(ss, f, i / BlockSize, j / BlockSize, p);
  }

  /** With exact stages every block comes back unchanged, and so does the volume. */
  lemma ProcessExact(ss: seq<Stage>, v: Volume<real>)
    requires forall i :: 0 <= i < |ss| ==> Exact(ss[i])
    requires Tiled(v)
    ensures AllReady(ss)
    ensures ProcessVolume(ss, v) == v
  {
    assert AllReady(ss);
    var t := ProcessedBlocks(ss, v);
    var w := ProcessVolume(ss, v);
    forall r, c, p | 0 <= r < v.height && 0 <= c < v.width && 0 <= p < v.channels
      ensures w.px[r][c][p] == v.px[r][c][p]
    {
      var bi, bj := r / BlockSize, c / BlockSize;
      TileFits(bi, v.height);
      TileFits(bj, v.width);
      var b := BlockOf(v, bi * BlockSize, bj * BlockSize, p);
      PipelineExact(ss, b);
      assert t[bi][bj][p] == TileRoundTrip(ss, v, bi, bj, p) == b;
      assert b[r % BlockSize][c % BlockSize] == v.px[r][c][p];
    }
    VolumeExt(w, v);
  }

  /** Widening 8-bit samples to reals and converting them back loses nothing. */
  lemma BytesRoundTrip(v: Volume<Byte>)
    requires v.Valid()
    ensures ToBytes(ToReal(v)) == v
  {
    var w := ToBytes(ToReal(v));
    forall r, c, p | 0 <= r < v.height && 0 <= c < v.width && 0 <= p < v.channels
      ensures w.px[r][c][p] == v.px[r][c][p]
    {
      ToByteOfByte(v.px[r][c][p]);
    }
    VolumeExt(w, v);
  }

  /** With exact stages `compress` returns an image whose sides are multiples
      of 8 unchanged, unless it is three-dimensional with a single channel,
      which comes back squeezed to two dimensions. */
  lemma CompressExactIsIdentity(ss: seq<Stage>, img: Image)
    requires forall i :: 0 <= i < |ss| ==> Exact(ss[i])
    requires img.Valid() && img.Height() % BlockSize == 0 && img.Width() % BlockSize == 0
    requires img.Gray? || img.Channels() != 1
    ensures AllReady(ss)
    ensures CompressSpec(ss, img) == img
  {
    var v := Reshape(img);
    CropUnchanged(v);
    ProcessExact(ss, ToReal(v));
    BytesRoundTrip(v);
    ReshapeRoundTrip(img);
  }

  /** A pipeline made of shift stages alone leaves such images unchanged. */
  lemma ShiftOnlyCompress(n: nat, img: Image)
    requires img.Valid() && img.Height() % BlockSize == 0 && img.Width() % BlockSize == 0
    requires img.Gray? || img.Channels() != 1
    ensures AllReady(seq(n, _ => Shift))
    ensures CompressSpec(seq(n, _ => Shift), img) == img
  {
    ShiftExact();
    CompressExactIsIdentity(seq(n, _ => Shift), img);
  }

  // ---------------------------------------------------------------------------
  // Arrays

  /** The contents of a three-dimensional array. */
  function Snapshot(x: array3<real>): (v: Volume<real>)
    reads x
    ensures v.Valid()
    ensures v.height == x.Length0 && v.width == x.Length1 && v.channels == x.Length2
    ensures forall r, c, p :: 0 <= r < x.Length0 && 0 <= c < x.Length1 && 0 <= p < x.Length2 ==>
      v.px[r][c][p] == x[r, c, p]
  {
    Volume(x.Length0, x.Length1, x.Length2,
      seq(x.Length0, r requires 0 <= r < x.Length0 reads x =>
        seq(x.Length1, c requires 0 <= c < x.Length1 reads x =>
          seq(x.Length2, p requires 0 <= p < x.Length2 reads x => x[r, c, p]))))
  }

  /** The block `x[i:i+8, j:j+8, p]` of an array. */
  function BlockAt(x: array3<real>, i: nat, j: nat, p: nat): (b: Matrix)
    reads x
    requires i + BlockSize <= x.Length0 && j + BlockSize <= x.Length1 && p < x.Length2
    ensures IsBlock(b)
    ensures forall a, d :: 0 <= a < BlockSize && 0 <= d < BlockSize ==> b[a][d] == x[i + a, j + d, p]
  {
    seq(BlockSize, a requires 0 <= a < BlockSize reads x =>
      seq(BlockSize, d requires 0 <= d < BlockSize reads x => x[i + a, j + d, p]))
  }

  /** Sample (r, c, q) comes before the block of channel p whose top left
      corner is (i, j), in the order `compress` visits blocks: by block row,
      then block column, then channel. */
  predicate Before(r: int, c: int, q: int, i: int, j: int, p: int)
  {
    r < i || (r < i + BlockSize && (c < j || (c < j + BlockSize && q < p)))
  }

  /** The array holds `g` on the samples visited before block (i, j, p) and
      `f` on the rest. */
  ghost predicate Progress(x: array3<real>, f: Volume<real>, g: Volume<real>, i: int, j: int, p: int)
    reads x
  {
    && f.Valid() && g.Valid()
    && f.height == g.height == x.Length0
    && f.width == g.width == x.Length1
    && f.channels == g.channels == x.Length2
    && forall r, c, q :: 0 <= r < x.Length0 && 0 <= c < x.Length1 && 0 <= q < x.Length2 ==>
         x[r, c, q] == (if Before(r, c, q, i, j, p) then g.px[r][c][q] else f.px[r][c][q])
  }

  /** Nothing is visited before the first block. */
  lemma ProgressStart(x: array3<real>, f: Volume<real>, g: Volume<real>)
    requires f.Valid() && g.Valid()
    requires f.height == g.height == x.Length0 && f.width == g.width == x.Length1 && f.channels == g.channels == x.Length2
    requires forall r, c, q :: 0 <= r < x.Length0 && 0 <= c < x.Length1 && 0 <= q < x.Length2 ==> x[r, c, q] == f.px[r][c][q]
    ensures Progress(x, f, g, 0, 0, 0)
  {
  }

  /** After the last channel of a block comes the first channel of the next
      block to the right. */
  lemma ProgressNextColumn(x: array3<real>, f: Volume<real>, g: Volume<real>, i: int, j: int)
    requires Progress(x, f, g, i, j, x.Length2)
    ensures Progress(x, f, g, i, j + BlockSize, 0)
  {
  }

  /** After the last block of a block row comes the first block of the next row. */
  lemma ProgressNextRow(x: array3<real>, f: Volume<real>, g: Volume<real>, i: int)
    requires Progress(x, f, g, i, x.Length1, 0)
    ensures Progress(x, f, g, i + BlockSize, 0, 0)
  {
  }

  /** Once every block row is visited the array holds `g`. */
  lemma ProgressEnd(x: array3<real>, f: Volume<real>, g: Volume<real>)
    requires Progress(x, f, g, x.Length0, 0, 0)
    ensures Snapshot(x) == g
  {
    VolumeExt(Snapshot(x), g);
  }

  /** The block about to be visited still holds the input samples. */
  lemma UnvisitedBlock(x: array3<real>, f: Volume<real>, g: Volume<real>, i: nat, j: nat, p: nat)
    requires Progress(x, f, g, i, j, p)
    requires i + BlockSize <= x.Length0 && j + BlockSize <= x.Length1 && p < x.Length2
    ensures BlockAt(x, i, j, p) == BlockOf(f, i, j, p)
  {
    var a, b := BlockAt(x, i, j, p), BlockOf(f, i, j, p);
    forall u | 0 <= u < BlockSize
      ensures a[u] == b[u]
    {
      forall w | 0 <= w < BlockSize
        ensures a[u][w] == b[u][w]
      {
        assert !Before(i + u, j + w, p, i, j, p);
      }
    }
  }

  /** A multiple of 8 below a multiple of 8 leaves room for a whole block. */
  lemma BlockFits(i: nat, n: nat)
    requires i % BlockSize == 0 && n % BlockSize == 0 && i < n
    ensures i + BlockSize <= n
  {
  }

  /** `x[i:i+8, j:j+8, p] = d`, where `d` is block (i, j, p) of `g`: the visit
      of that block. */
  method StoreBlock(x: array3<real>, i: nat, j: nat, p: nat, d: Matrix, ghost f: Volume<real>, ghost g: Volume<real>)
    modifies x
    requires i + BlockSize <= x.Length0 && j + BlockSize <= x.Length1 && p < x.Length2
    requires Progress(x, f, g, i, j, p)
    requires d == BlockOf(g, i, j, p)
    ensures Progress(x, f, g, i, j, p + 1)
  {
    forall r, c | i <= r < i + BlockSize && j <= c < j + BlockSize {
      x[r, c, p] := d[r - i][c - j];
    }
    forall r, c, q | 0 <= r < x.Length0 && 0 <= c < x.Length1 && 0 <= q < x.Length2
      ensures x[r, c, q] == (if Before(r, c, q, i, j, p + 1) then g.px[r][c][q] else f.px[r][c][q])
    {
      if i <= r < i + BlockSize && j <= c < j + BlockSize && q == p {
        assert d[r - i][c - j] == g.px[r][c][q];
      } else {
        assert x[r, c, q] == old(x[r, c, q]);
      }
    }
  }

  // ---------------------------------------------------------------------------
  // The composite

  class CompressionCodecs {
    /** The configured stages, fixed at construction. */
    const codecs: seq<Stage>

    /** Builds one stage per codec class, every class from the same arguments;
        without a list the classes are shift, DCT and quantization. */
    constructor (kinds: Option<seq<CodecKind>>, k: real, qTable: Matrix, t: Trig)
      requires TrigValid(t)
      ensures codecs == ConstructAll(if kinds.None? then DefaultCodecs else kinds.value, k, qTable, t)
    {
      var ks := if kinds.None? then DefaultCodecs else kinds.value;
      codecs := ConstructAll(ks, k, qTable, t);
    }

    /** Encodes a block in the order of the stages. */
    method Encode(x: Matrix) returns (y: Matrix)
      requires AllReady(codecs) && IsBlock(x)
      ensures y == EncodeAll(codecs, x)
    {
      y := x;
      var i := 0;
      while i < |codecs|
        invariant 0 <= i <= |codecs|
        invariant IsBlock(y)
        invariant EncodeAll(codecs[i..], y) == EncodeAll(codecs, x)
      {
        assert codecs[i..][1..] == codecs[i + 1..];
        y := Codec.Encode(codecs[i], y);
        i := i + 1;
      }
    }

    /** Decodes a block in the reverse order of the stages. */
    method Decode(y: Matrix) returns (x: Matrix)
      requires AllShaped(codecs) && IsBlock(y)
      ensures x == DecodeAll(codecs, y)
    {
      x := y;
      var i := |codecs|;
      while i > 0
        invariant 0 <= i <= |codecs|
        invariant IsBlock(x)
        invariant x == DecodeAll(codecs[i..], y)
      {
        i := i - 1;
        assert codecs[i..][1..] == codecs[i + 1..];
        x := Codec.Decode(codecs[i], x);
      }
    }

    /** Replaces every 8 by 8 block of every channel of `x` by
        decode(encode(block)), block row by block row, then block column by
        block column, then channel by channel. */
    method ProcessBlocks(x: array3<real>)
      requires AllReady(codecs) && x.Length0 % BlockSize == 0 && x.Length1 % BlockSize == 0
      modifies x
      ensures Snapshot(x) == ProcessVolume(codecs, old(Snapshot(x)))
    {
      var height, width, channel := x.Length0, x.Length1, x.Length2;
      ghost var f := Snapshot(x);
      ghost var target := ProcessVolume(codecs, f);
      ProgressStart(x, f, target);
      var i := 0;
      while i < height
        invariant 0 <= i <= height && i % BlockSize == 0
        invariant Progress(x, f, target, i, 0, 0)
      {
        BlockFits(i, height);
        var j := 0;
        while j < width
          invariant 0 <= j <= width && j % BlockSize == 0
          invariant Progress(x, f, target, i, j, 0)
        {
          BlockFits(j, width);
          var p := 0;
          while p < channel
            invariant 0 <= p <= channel
            invariant Progress(x, f, target, i, j, p)
          {
            var block := BlockAt(x, i, j, p);
            UnvisitedBlock(x, f, target, i, j, p);
            var e := Encode(block);
            var d := Decode(e);
            BlockReplaced(codecs, f, i, j, p);
            assert d == BlockOf(target, i, j, p);
            StoreBlock(x, i, j, p, d, f, target);
            p := p + 1;
          }
          ProgressNextColumn(x, f, target, i, j);
          j := j + BlockSize;
        }
        ProgressNextRow(x, f, target, i);
        i := i + BlockSize;
      }
      assert i == height;
      ProgressEnd(x, f, target);
    }

    /** Compresses an image: promote to three dimensions, crop to whole
        blocks, replace every block of every channel by decode(encode(block))
        in place, clip to unsigned 8-bit samples and squeeze a single channel. */
    method Compress(img: Image) returns (out: Image)
      requires AllReady(codecs) && img.Valid()
      ensures out == CompressSpec(codecs, img)
    {
      var v := Reshape(img);
      v := Crop8(v);
      var f := ToReal(v);
      var height, width, channel := f.height, f.width, f.channels;
      var x := new real[height, width, channel]((r: nat, c: nat, p: nat) =>
        if r < height && c < width && p < channel then f.px[r][c][p] else 0.0);
      VolumeExt(Snapshot(x), f);
      ProcessBlocks(x);
      out := ReshapeBack(ToBytes(Snapshot(x)));
    }
  }
}
