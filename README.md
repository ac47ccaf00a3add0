# Block-transform image compression, modelled in Dafny

This project models the core of a small JPEG-style image compressor written in
Python with numpy, and proves properties of that model. The compressor has two
parts.

- **Three codec stages** (`report/Code/Codec.py`), each with an `encode` and a
  `decode` on an 8 by 8 block:
  - a level shift by 128;
  - a two-dimensional DCT in matrix form, `1/4 * C * (E @ x @ E.T)`, whose
    cosine matrices and scaling matrix are computed once by the constructor;
  - scalar quantization by the table `around(k * qTable)`.
- **The composite `CompressionCodecs`** (`Code/CompressionCodecs.py`). It
  builds one stage per configured codec class. It encodes through the stages
  in list order and decodes in reverse order. Its `compress` does the
  following, in order:
  1. promotes a grayscale image to three dimensions;
  2. crops it to whole 8 by 8 blocks;
  3. overwrites each block of each channel with decode(encode(block)), in place;
  4. clips the result to unsigned 8-bit samples;
  5. squeezes away a single channel.

The Dafny modules follow these files:

| module | file | form |
|---|---|---|
| `Numeric` | `numeric.dfy` | numpy's `around` (round half to even), `clip`, and the cast to `uint8` |
| `Matrices` | `matrices.dfy` | blocks as `seq<seq<real>>`; transpose, outer, matrix and elementwise products |
| `Codec` | `codec.dfy` | the stages as an immutable `Stage` datatype, with encode and decode as functions |
| `CompressionCodecs` | `compression_codecs.dfy` | stage lists as functions and images as values; the Python class becomes a `class` whose `Encode`, `Decode` and `ProcessBlocks` are methods with loops, and whose `Compress` allocates the array `ProcessBlocks` works on |

`Compress` allocates a three-dimensional `array3<real>`. `ProcessBlocks` then
walks the blocks in the source's order: block row, then block column, then
channel. It writes each block back with an aggregate `forall` statement, the
counterpart of numpy's slice assignment. Its loop invariant, `Progress`, says
two things:

- every sample visited so far holds its processed value;
- every other sample still holds its input value.

So an in-place write never disturbs a block that has not been read yet.

`__reshape_back` squeezes every single-channel result
(`Code/CompressionCodecs.py:44-45`), so a three-dimensional single-channel
input also comes back two-dimensional; `CompressSpec` states this.

## Model

| member | source | states |
|---|---|---|
| Numeric.Round | report/Code/Codec.py:162 | the result is within 1/2 of x, and a tie goes to the even neighbour (numpy `around`) |
| Numeric.RoundUnique | report/Code/Codec.py:162 | nearest-with-ties-to-even determines the rounded value uniquely |
| Numeric.RoundOfInt | report/Code/Codec.py:166 | rounding leaves a whole number unchanged |
| Numeric.RoundIsZero | report/Code/Codec.py:158 | a value rounds to 0 exactly when it lies in [-1/2, 1/2] |
| Numeric.Clip | Code/CompressionCodecs.py:75 | the result lies in [lo, hi]; it equals v inside the interval and the nearer bound outside it |
| Numeric.ToByte | Code/CompressionCodecs.py:75 | clip to [0, 255], then truncate to a byte: the byte is the floor of the clipped value |
| Numeric.ToByteOfByte | Code/CompressionCodecs.py:64 | converting a byte to float and back returns the same byte |
| Matrices.Transpose | report/Code/Codec.py:121 | entry (i, j) of the result is entry (j, i) of the input |
| Matrices.TransposeTwice | report/Code/Codec.py:121 | transposing twice gives back the block |
| Matrices.OuterInt | report/Code/Codec.py:114-115 | the product of an 8 by 1 column and a 1 by 8 row is an 8 by 8 block |
| Matrices.OuterReal | report/Code/Codec.py:116-117 | `C.T @ C` for a 1 by 8 row C is an 8 by 8 block |
| Matrices.OuterIntSwap | report/Code/Codec.py:114-115 | swapping the factors of an outer product transposes it |
| Matrices.Column | report/Code/Codec.py:121 | column j holds entry j of every row |
| Matrices.Dot | report/Code/Codec.py:121 | the sum of products inside `@`; it is zero when either factor is the zero vector |
| Matrices.MatMul | report/Code/Codec.py:121 | `@` of two blocks is a block |
| Matrices.Hadamard | report/Code/Codec.py:121 | elementwise `*` of two blocks is a block |
| Matrices.Scale | report/Code/Codec.py:121 | `1/4 *` a block is a block |
| Codec.ShiftEncode | report/Code/Codec.py:40-42 | same shape as the input, every element minus 128 |
| Codec.ShiftDecode | report/Code/Codec.py:44-46 | same shape as the input, every element plus 128 |
| Codec.ShiftRoundTrip | report/Code/Codec.py:40-46 | shift decoding undoes shift encoding exactly, for any shape |
| Codec.ShiftRange | report/Code/Codec.py:33-38 | samples in [0, 255] encode into [-128, 127] |
| Codec.Range8 | report/Code/Codec.py:113 | `arange(8)`: entry i is i |
| Codec.Odd8 | report/Code/Codec.py:114 | `2 * range8 + 1`: entry i is 2i + 1 |
| Codec.EncodeGrid | report/Code/Codec.py:114 | the encode argument grid is 8 by 8 and holds u(2x+1) at (u, x), the table drawn in the docstring |
| Codec.DecodeGrid | report/Code/Codec.py:115 | the decode argument grid is 8 by 8 and holds (2x+1)u at (x, u), the table drawn in the docstring |
| Codec.DecodeGridIsTranspose | report/Code/Codec.py:114-115 | the decode argument grid is the transpose of the encode grid |
| Codec.CosOfGrid | report/Code/Codec.py:114-115 | entry (i, j) is cos(g[i][j] * pi / 16) |
| Codec.ScalingVector | report/Code/Codec.py:116 | length 8; the first factor is 1/sqrt(2) and the other seven are 1 |
| Codec.MakeDct | report/Code/Codec.py:78-117 | the constructor yields a DCT stage whose three matrices are 8 by 8 |
| Codec.DecodeMatrixIsTranspose | report/Code/Codec.py:114-115 | the decode cosine matrix is the transpose of the encode cosine matrix |
| Codec.ScalingPattern | report/Code/Codec.py:116-117 | C is symmetric, and C(u, v) = 1 exactly when neither u nor v is 0, as the docstring's C(u) C(v) requires |
| Codec.DctEncode | report/Code/Codec.py:119-121 | encoding a block gives a block |
| Codec.DctDecode | report/Code/Codec.py:123-125 | decoding a block gives a block |
| Codec.DctStageDecode | report/Code/Codec.py:123-125 | the built DCT stage decodes with its decode matrix D, which makes decoding 1/4 * E.T @ (C * y) @ E, the adjoint of encoding with E |
| Codec.MakeQuantTable | report/Code/Codec.py:158 | same shape as the base table; each entry is around(k * entry) |
| Codec.QuantTableReady | report/Code/Codec.py:158-162 | the table has no zero entry (so encoding is defined) exactly when every k * entry lies outside [-1/2, 1/2] |
| Codec.QuantizeCell | report/Code/Codec.py:162 | one code is a whole number within 1/2 of x / Q, the even one on a tie |
| Codec.DequantizeCell | report/Code/Codec.py:166 | one decoded sample is a whole number within 1/2 of y * Q, the even one on a tie |
| Codec.QuantEncode | report/Code/Codec.py:160-162 | the codes form a block of whole numbers; code (u, v) is around(x(u, v) / Q(u, v)) |
| Codec.QuantDecode | report/Code/Codec.py:164-166 | the result is a block of whole numbers |
| Codec.RoundOfProduct | report/Code/Codec.py:166 | for a whole-number code, the decoder's rounding is exact: around(y * Q) = y * Q |
| Codec.QuantDecodeOfCodes | report/Code/Codec.py:164-166 | on whole-number codes, decoding is the product FQ * Q the docstring gives |
| Codec.RequantizedIsMultiple | report/Code/Codec.py:160-166 | a sample's round trip is its code times its table entry |
| Codec.CellError | report/Code/Codec.py:160-166 | the round-trip error is the rounding error of x / Q, scaled by Q, and that rounding error is at most 1/2 |
| Codec.CellErrorBound | report/Code/Codec.py:160-166 | for a positive entry Q, a sample's round trip is within Q/2 of it |
| Codec.CellExactIff | report/Code/Codec.py:160-166 | a sample survives the round trip exactly when x / Q is a whole number |
| Codec.QuantErrorBound | report/Code/Codec.py:160-166 | for a positive table, every sample of decode(encode(x)) is within Q(u, v)/2 of x(u, v) |
| Codec.QuantExactIff | report/Code/Codec.py:160-166 | decode(encode(x)) = x exactly when every x(u, v) / Q(u, v) is a whole number |
| Codec.CellIdempotent | report/Code/Codec.py:160-166 | quantizing a dequantized sample gives back its code |
| Codec.QuantIdempotent | report/Code/Codec.py:160-166 | encode(decode(encode(x))) = encode(x): after the first pass, compressing again changes no code |
| Codec.Encode | report/Code/Codec.py:19-22 | a stage's encoding of a block is a block |
| Codec.Decode | report/Code/Codec.py:24-27 | a stage's decoding of a block is a block |
| Codec.ShiftExact | report/Code/Codec.py:40-46 | the shift stage is exact: decode(encode(x)) = x for every block |
| Codec.QuantLossy | report/Code/Codec.py:160-166 | no quantization stage is exact: some block does not survive its round trip |
| CompressionCodecs.Construct | Code/CompressionCodecs.py:27 | `codec(**kw)`: each class yields its own kind of stage; a DCT stage is always ready; a quantization table has the shape of the base table |
| CompressionCodecs.ConstructAll | Code/CompressionCodecs.py:27 | one stage per configured codec class, in list order: stage i is a shift, DCT or quantization stage exactly when class i is that codec |
| CompressionCodecs.DefaultPipeline | Code/CompressionCodecs.py:25-27 | without a list, the stages are shift, DCT and quantization, in that order, built from the shared arguments |
| CompressionCodecs.EncodeAll | Code/CompressionCodecs.py:89-93 | encoding a block through the list gives a block |
| CompressionCodecs.DecodeAll | Code/CompressionCodecs.py:95-101 | decoding a block through the list gives a block |
| CompressionCodecs.RoundTrip | Code/CompressionCodecs.py:73 | decode(encode(block)) is a block |
| CompressionCodecs.SingleStage | Code/CompressionCodecs.py:89-101 | a one-stage list round-trips as that stage alone |
| CompressionCodecs.PrependStage | Code/CompressionCodecs.py:89-101 | a stage at the head of the list encodes first and decodes last |
| CompressionCodecs.EncodeConcat | Code/CompressionCodecs.py:89-93 | encoding through ps + qs encodes through ps, then through qs |
| CompressionCodecs.DecodeConcat | Code/CompressionCodecs.py:95-101 | decoding through ps + qs decodes through qs, then through ps |
| CompressionCodecs.PipelineExact | Code/CompressionCodecs.py:89-101 | if every stage is exact, the whole round trip returns every block unchanged, whatever the number and order of stages |
| CompressionCodecs.RoundTripSplit | Code/CompressionCodecs.py:89-101 | the round trip through ps + qs is ps's decoding of qs's round trip of ps's encoding |
| CompressionCodecs.ExactSuffixCancels | Code/CompressionCodecs.py:89-101 | exact stages at the end of the list do not change the round trip |
| CompressionCodecs.LossAtQuantization | Code/CompressionCodecs.py:89-101 | with quantization last, the earlier stages' decoders receive their encoders' output with each coefficient off by at most half its step |
| CompressionCodecs.ThreeStages | Code/CompressionCodecs.py:89-101 | three stages a, b, c round-trip as decode_a(decode_b(decode_c(encode_c(encode_b(encode_a(x)))))) |
| CompressionCodecs.DefaultRoundTrip | Code/CompressionCodecs.py:25-27 | the default pipeline applies shift, DCT and quantization encoding, then the three decodings in reverse order |
| CompressionCodecs.Reshape | Code/CompressionCodecs.py:30-37 | a two-dimensional image gains a trailing channel axis of length 1; a three-dimensional one is kept as is |
| CompressionCodecs.ReshapeBack | Code/CompressionCodecs.py:39-46 | the result is two-dimensional exactly when there is one channel, and it keeps height, width and samples |
| CompressionCodecs.ReshapeRoundTrip | Code/CompressionCodecs.py:30-46 | squeezing undoes the promotion of a grayscale image (and leaves multi-channel images alone) |
| CompressionCodecs.Nearest8 | Code/CompressionCodecs.py:86 | `int(n / 8) * 8` is the largest multiple of 8 not above n |
| CompressionCodecs.Crop8 | Code/CompressionCodecs.py:81-87 | height and width become their Nearest8; channels and the kept samples are unchanged |
| CompressionCodecs.CropIdempotent | Code/CompressionCodecs.py:81-87 | cropping twice is cropping once |
| CompressionCodecs.CropUnchanged | Code/CompressionCodecs.py:81-87 | an image whose sides are multiples of 8 is not cropped |
| CompressionCodecs.ToReal | Code/CompressionCodecs.py:64 | `astype(float64)`: same shape, the same sample values as reals |
| CompressionCodecs.ToBytes | Code/CompressionCodecs.py:75 | same shape; each sample is clipped to [0, 255] and truncated |
| CompressionCodecs.BytesRoundTrip | Code/CompressionCodecs.py:64-75 | widening bytes to reals and converting them back loses nothing |
| CompressionCodecs.BlockOf | Code/CompressionCodecs.py:73 | `x[i:i+8, j:j+8, p]`: an 8 by 8 block whose entry (a, d) is sample (i+a, j+d, p) |
| CompressionCodecs.BlockOwner | Code/CompressionCodecs.py:70 | the blocks of `range(0, n, 8)` partition the axis: index r lies in block i exactly when i = Nearest8(r) |
| CompressionCodecs.TileFits | Code/CompressionCodecs.py:70 | each block of a side that is a multiple of 8 lies inside the image |
| CompressionCodecs.BlockIndex | Code/CompressionCodecs.py:70 | offset a inside the block at multiple-of-8 origin i has block number i/8 and offset a |
| CompressionCodecs.TileRoundTrip | Code/CompressionCodecs.py:73 | the processed block is a block |
| CompressionCodecs.ProcessedBlocks | Code/CompressionCodecs.py:70-73 | one processed block per block row, block column and channel, each the round trip of the input block at that position |
| CompressionCodecs.Assemble | Code/CompressionCodecs.py:73 | the reassembled volume has the input's shape, and each sample comes from its block in the table |
| CompressionCodecs.AssembledBlock | Code/CompressionCodecs.py:73 | block (i, j, p) of the reassembled volume is the table's block for that position |
| CompressionCodecs.ProcessVolume | Code/CompressionCodecs.py:69-73 | processing keeps the shape and the multiple-of-8 sides |
| CompressionCodecs.BlockReplaced | Code/CompressionCodecs.py:70-73 | after processing, every 8 by 8 block of every channel is decode(encode(the input block)) |
| CompressionCodecs.CompressSpec | Code/CompressionCodecs.py:48-79 | what `compress` returns: the output is a valid image with the cropped height and width and the input's channel count, and is two-dimensional exactly when there is one channel |
| CompressionCodecs.AssembledOutput | Code/CompressionCodecs.py:73-78 | each output sample is the clipped sample of its block in the table |
| CompressionCodecs.CompressSamples | Code/CompressionCodecs.py:48-79 | output sample (i+a, j+d, p) is the clipped, truncated sample (a, d) of decode(encode(block (i, j, p) of the cropped input)) |
| CompressionCodecs.ProcessExact | Code/CompressionCodecs.py:70-73 | with exact stages, processing returns the volume unchanged |
| CompressionCodecs.CompressExactIsIdentity | Code/CompressionCodecs.py:48-79 | with exact stages, compress returns unchanged any image whose sides are multiples of 8 (unless it is a three-dimensional image with one channel, which is squeezed) |
| CompressionCodecs.ShiftOnlyCompress | Code/CompressionCodecs.py:48-79 | a pipeline of shift stages alone compresses such images to themselves |
| CompressionCodecs.Snapshot | Code/CompressionCodecs.py:66-68 | the contents of the array, with its three lengths as height, width and channels |
| CompressionCodecs.BlockAt | Code/CompressionCodecs.py:73 | `x[i:i+8, j:j+8, p]` of the array, an 8 by 8 block of its current samples |
| CompressionCodecs.ProgressStart | Code/CompressionCodecs.py:70 | before the first block, no sample has been visited |
| CompressionCodecs.ProgressNextColumn | Code/CompressionCodecs.py:70 | after the last channel of a block comes the first channel of the next block to the right |
| CompressionCodecs.ProgressNextRow | Code/CompressionCodecs.py:70 | after the last block of a block row comes the first block of the next row |
| CompressionCodecs.ProgressEnd | Code/CompressionCodecs.py:70-73 | once every block row is visited, the array holds the processed volume |
| CompressionCodecs.UnvisitedBlock | Code/CompressionCodecs.py:71-73 | the block about to be read still holds the input samples: writes to earlier blocks do not overlap it |
| CompressionCodecs.BlockFits | Code/CompressionCodecs.py:70 | a block origin below a multiple-of-8 side leaves room for a whole block |
| CompressionCodecs.StoreBlock | Code/CompressionCodecs.py:73 | the slice assignment writes the block into channel p and nothing else, advancing the traversal by one block |
| CompressionCodecs.CompressionCodecs.constructor | Code/CompressionCodecs.py:14-27 | the stages are the configured classes (shift, DCT, quantization by default), each built from the shared arguments |
| CompressionCodecs.CompressionCodecs.Encode | Code/CompressionCodecs.py:89-93 | the loop over the stages in list order computes EncodeAll |
| CompressionCodecs.CompressionCodecs.Decode | Code/CompressionCodecs.py:95-101 | the loop over the reversed stage list computes DecodeAll |
| CompressionCodecs.CompressionCodecs.ProcessBlocks | Code/CompressionCodecs.py:66-73 | the in-place traversal leaves the array holding the processed volume of its initial contents |
| CompressionCodecs.CompressionCodecs.Compress | Code/CompressionCodecs.py:48-79 | the result is reshape-back(clip-and-cast(process(astype(crop8(reshape(image)))))) |

## Left out

- Floating point. All arithmetic is on mathematical reals, and `float64` rounding is not modelled. The `uint8` cast is modelled as truncation of a value already clipped to [0, 255].
- The values of `cos`, `sqrt` and `pi`. They are a parameter, `Trig`. The only assumption made of it is sqrt(2) > 1.
- That DCT decoding inverts DCT encoding (the orthogonality of the cosine basis). It depends on those values, so `Exact` appears as a hypothesis in `PipelineExact` and `CompressExactIsIdentity` rather than as a theorem about the DCT stage.
- The docstring's double-sum formulas for the DCT. Only the matrix form the code computes is modelled; that it equals the double sums is not proved.
- The end-to-end scenario of a 16 by 16 constant image staying within 1 of its value. It depends on the DCT's numerical values.
- Codec.DctEncode: the contract states only the shape, because every further property needs the cosine values.
- Codec.DctDecode: the contract states only the shape, for the same reason.
- Codec.QuantEncode: requires a table with no zero entry. For a zero entry, numpy divides by zero and yields infinities or NaN; the model does not represent those. `QuantTableReady` states exactly which `k` and base tables avoid a zero entry.
- CompressionCodecs.EncodeAll: blocks only. The source also accepts arrays of other shapes when no DCT or quantization stage needs 8 by 8.
- CompressionCodecs.DecodeAll: blocks only, for the same reason.
- CompressionCodecs.CompressionCodecs.Encode: blocks only, as for EncodeAll.
- CompressionCodecs.CompressionCodecs.Decode: blocks only, as for DecodeAll.
- The abstract base class `Codec` and its `**kw` constructor protocol. A Python `TypeError` for a missing `k` or `qTable` is not modelled: the model's constructor always receives both.
- Input arrays of element types other than `uint8`, and images with other than two or three dimensions.
- The float division in `int(y / 8)`. It is exact for every length below 2^53, far beyond any array `compress` can convert to float64, so the crop is modelled with integer division.
- `Code/matlab.py`, the bridge that reshapes column-major flat arrays (the image and `qTable`) and forwards them to `compress`. It is not part of this model.
