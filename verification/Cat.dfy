/**
 * The cat process: block copies concatenate arrays along one dimension.
 *
 * Arrays are column-major, dimension 0 fastest, with elements of `bytes` bytes. Sizes and offsets are unbounded.
 */
module Cat {
  import opened IndexNumeric
  import opened NumericTypes

  /** The dimensions and the type of an array: the bits of its elements and order, and those of its complex format. */
  datatype Structure = Structure(dims: seq<nat>, kind: nat, format: Format)

  /** Where the blocks of one input go: its block size, and the offset of its first block in the output. */
  datatype Placement = Placement(bytesPerBlock: nat, offset: nat)

  datatype Refusal = None | DimOutOfRange | TypeMismatch | CountMismatch | SizeMismatch

  /** The inputs agree in type, in the number of dimensions and in every size but the one along `dim`. */
  ghost predicate Compatible(inputs: seq<Structure>, dim: nat) {
    && inputs != [] && dim < |inputs[0].dims|
    && forall i :: 0 <= i < |inputs| ==> Matches(inputs[0], inputs[i], dim)
  }

  ghost predicate Matches(first: Structure, other: Structure, dim: nat) {
    && SameType(first, other) && |other.dims| == |first.dims|
    && forall d :: 0 <= d < |first.dims| && d != dim ==> other.dims[d] == first.dims[d]
  }

  predicate SameType(first: Structure, other: Structure) {
    other.kind == first.kind && other.format == first.format
  }

  /** The total size along `dim` of the first `n` inputs. */
  ghost function Extent(inputs: seq<Structure>, dim: nat, n: nat): nat
    requires n <= |inputs| && forall i :: 0 <= i < n ==> dim < |inputs[i].dims|
  {
    if n == 0 then 0 else Extent(inputs, dim, n - 1) + inputs[n - 1].dims[dim]
  }

  /** The dimensions of the concatenation. */
  ghost function OutputDims(inputs: seq<Structure>, dim: nat): (dims: seq<nat>)
    requires Compatible(inputs, dim)
    ensures |dims| == |inputs[0].dims|
  {
    inputs[0].dims[dim := Extent(inputs, dim, |inputs|)]
  }

  /** Bytes in a block of `count` slices along `dim`: all of the dimensions below, `count` times. */
  function BlockBytes(dims: seq<nat>, dim: nat, count: nat, bytes: nat): nat
    requires dim < |dims|
  {
    Volume(Product(dims[..dim]), count, bytes)
  }

  function Volume(below: nat, count: nat, bytes: nat): nat {
    below * count * bytes
  }

  function BlockCount(dims: seq<nat>, dim: nat): nat
    requires dim < |dims|
  {
    Product(dims[dim + 1..])
  }

  ghost function PlacementOf(inputs: seq<Structure>, dim: nat, bytes: nat, i: nat): Placement
    requires Compatible(inputs, dim) && i < |inputs|
  {
    Placement(BlockBytes(inputs[0].dims, dim, inputs[i].dims[dim], bytes),
              BlockBytes(inputs[0].dims, dim, Extent(inputs, dim, i), bytes))
  }

  /** The layout: consecutive blocks, one of each input, together make one block of the output. */
  ghost predicate LaidOut(inputs: seq<Structure>, dim: nat, bytes: nat, placements: seq<Placement>, stride: nat,
                          blockCount: nat)
  {
    && Compatible(inputs, dim) && |placements| == |inputs|
    && (forall i :: 0 <= i < |inputs| ==> placements[i] == PlacementOf(inputs, dim, bytes, i))
    && stride == BlockBytes(inputs[0].dims, dim, Extent(inputs, dim, |inputs|), bytes)
    && blockCount == BlockCount(inputs[0].dims, dim)
  }

  lemma BlockBytesAdd(dims: seq<nat>, dim: nat, x: nat, y: nat, bytes: nat)
    requires dim < |dims|
    ensures BlockBytes(dims, dim, x, bytes) + BlockBytes(dims, dim, y, bytes) == BlockBytes(dims, dim, x + y, bytes)
    ensures BlockBytes(dims, dim, 0, bytes) == 0
  {
    var p := Product(dims[..dim]);
    assert p * x + p * y == p * (x + y);
    assert (p * x) * bytes + (p * y) * bytes == (p * x + p * y) * bytes;
  }

  // -------------------------------------------------------------------------- every byte exactly once

  /** The blocks of the inputs follow each other without gap or overlap, and fill the stride. */
  ghost predicate Packed(placements: seq<Placement>, stride: nat) {
    && (placements != [] ==> placements[0].offset == 0)
    && (forall i :: 0 <= i < |placements| - 1 ==>
          placements[i + 1].offset == placements[i].offset + placements[i].bytesPerBlock)
    && stride == if placements == [] then 0
                 else placements[|placements| - 1].offset + placements[|placements| - 1].bytesPerBlock
  }

  lemma LayoutIsPacked(inputs: seq<Structure>, dim: nat, bytes: nat, placements: seq<Placement>, stride: nat,
                       blockCount: nat)
    requires LaidOut(inputs, dim, bytes, placements, stride, blockCount)
    ensures Packed(placements, stride)
  {
    NextOffset(inputs, dim, bytes, 0);
    forall i | 0 <= i < |inputs|
      ensures BlockBytes(inputs[0].dims, dim, Extent(inputs, dim, i + 1), bytes)
           == placements[i].offset + placements[i].bytesPerBlock
    {
      NextOffset(inputs, dim, bytes, i);
    }
    hide BlockBytes, Extent, Compatible;
  }

  lemma NextOffset(inputs: seq<Structure>, dim: nat, bytes: nat, i: nat)
    requires Compatible(inputs, dim) && i < |inputs|
    ensures BlockBytes(inputs[0].dims, dim, Extent(inputs, dim, 0), bytes) == 0
    ensures BlockBytes(inputs[0].dims, dim, Extent(inputs, dim, i + 1), bytes)
         == BlockBytes(inputs[0].dims, dim, Extent(inputs, dim, i), bytes)
          + BlockBytes(inputs[0].dims, dim, inputs[i].dims[dim], bytes)
  {
    hide BlockBytes;
    BlockBytesAdd(inputs[0].dims, dim, Extent(inputs, dim, i), inputs[i].dims[dim], bytes);
  }

  lemma {:induction false} OffsetsGrow(placements: seq<Placement>, stride: nat, i: nat, j: nat)
    requires Packed(placements, stride) && i < j <= |placements|
    ensures placements[i].offset + placements[i].bytesPerBlock
         <= if j < |placements| then placements[j].offset else stride
  {
    if i + 1 < j {
      OffsetsGrow(placements, stride, i, j - 1);
    }
  }

  /** A byte of the output: byte `at` of block `block` of input `i`. */
  ghost predicate IsByte(placements: seq<Placement>, blockCount: nat, i: nat, block: nat, at: nat) {
    i < |placements| && block < blockCount && at < placements[i].bytesPerBlock
  }

  ghost function Position(placements: seq<Placement>, stride: nat, i: nat, block: nat, at: nat): nat
    requires i < |placements|
  {
    placements[i].offset + block * stride + at
  }

  /** Some block has its byte at `p`. */
  ghost predicate Written(placements: seq<Placement>, stride: nat, blockCount: nat, p: nat) {
    exists i: nat, block: nat, at: nat ::
      IsByte(placements, blockCount, i, block, at) && Position(placements, stride, i, block, at) == p
  }

  lemma PositionInOutput(placements: seq<Placement>, stride: nat, blockCount: nat, i: nat, block: nat, at: nat)
    requires Packed(placements, stride) && IsByte(placements, blockCount, i, block, at)
    ensures Position(placements, stride, i, block, at) < stride * blockCount
    ensures placements[i].offset + at < stride
  {
    OffsetsGrow(placements, stride, i, |placements|);
    Monotone(stride, block + 1, blockCount);
    assert stride * (block + 1) == block * stride + stride;
  }

  /** No byte of the output is written twice ... */
  lemma WrittenAtMostOnce(placements: seq<Placement>, stride: nat, blockCount: nat, i: nat, block: nat, at: nat,
                          i': nat, block': nat, at': nat)
    requires Packed(placements, stride)
    requires IsByte(placements, blockCount, i, block, at) && IsByte(placements, blockCount, i', block', at')
    requires Position(placements, stride, i, block, at) == Position(placements, stride, i', block', at')
    ensures i == i' && block == block' && at == at'
  {
    PositionInOutput(placements, stride, blockCount, i, block, at);
    PositionInOutput(placements, stride, blockCount, i', block', at');
    SameSplit(stride, placements[i].offset + at, placements[i'].offset + at', block, block');
    if i < i' {
      OffsetsGrow(placements, stride, i, i');
    } else if i' < i {
      OffsetsGrow(placements, stride, i', i);
    }
  }

  lemma PositiveFactor(x: nat, y: nat)
    requires x * y > 0
    ensures x > 0
  {
  }

  /** ... and every byte below the stride times the number of blocks is written. */
  lemma WrittenAtLeastOnce(placements: seq<Placement>, stride: nat, blockCount: nat, p: nat)
    requires Packed(placements, stride) && p < stride * blockCount
    ensures Written(placements, stride, blockCount, p)
  {
    PositiveFactor(stride, blockCount);
    var block, rest := p / stride, p % stride;
    Quotient(p, stride, blockCount);
    var i := Containing(placements, stride, rest, |placements| - 1);
    hide Packed;
    var at := rest - placements[i].offset;
    assert IsByte(placements, blockCount, i, block, at);
    assert Position(placements, stride, i, block, at) == p;
  }

  /** The input, at most `i`, whose block contains an offset into the stride. */
  ghost function Containing(placements: seq<Placement>, stride: nat, rest: nat, i: nat): (j: nat)
    requires Packed(placements, stride) && i < |placements|
    requires rest < placements[i].offset + placements[i].bytesPerBlock
    ensures j <= i && placements[j].offset <= rest < placements[j].offset + placements[j].bytesPerBlock
  {
    if placements[i].offset <= rest then i else Containing(placements, stride, rest, i - 1)
  }

  // ----------------------------------------------------------------------- column-major concatenation

  /** The output holds the blocks of the inputs where the layout puts them. */
  ghost predicate Copied<T>(output: seq<T>, contents: seq<seq<T>>, placements: seq<Placement>, stride: nat,
                            blockCount: nat)
  {
    && |contents| == |placements|
    && forall i: nat, block: nat, at: nat :: IsByte(placements, blockCount, i, block, at) ==>
         ByteCopied(output, contents, placements, stride, i, block, at)
  }

  ghost predicate ByteCopied<T>(output: seq<T>, contents: seq<seq<T>>, placements: seq<Placement>, stride: nat,
                                i: nat, block: nat, at: nat)
    requires |contents| == |placements|
  {
    && i < |placements|
    && Position(placements, stride, i, block, at) < |output|
    && block * placements[i].bytesPerBlock + at < |contents[i]|
    && output[Position(placements, stride, i, block, at)] == contents[i][block * placements[i].bytesPerBlock + at]
  }

  lemma {:induction false} LinearSplits(dims: seq<nat>, at: seq<nat>, d: nat)
    requires |at| == |dims| && d <= |dims|
    ensures Linear(dims, at) == Linear(dims[..d], at[..d]) + Product(dims[..d]) * Linear(dims[d..], at[d..])
  {
    if d == 0 {
      assert dims[..0] == [] && dims[0..] == dims && at[0..] == at;
    } else {
      LinearSplits(dims[1..], at[1..], d - 1);
      assert dims[..d][1..] == dims[1..][..d - 1] && at[..d][1..] == at[1..][..d - 1];
      assert dims[1..][d - 1..] == dims[d..] && at[1..][d - 1..] == at[d..];
      Associate(dims[0], Linear(dims[1..][..d - 1], at[1..][..d - 1]), Product(dims[1..][..d - 1]),
                Linear(dims[d..], at[d..]));
    }
  }

  lemma Associate(n: nat, x: nat, p: nat, y: nat)
    ensures n * (x + p * y) == n * x + n * p * y
  {
    assert n * (x + p * y) == n * x + n * (p * y);
  }

  /** The number of an element, by what lies below `dim`, along it and above it. */
  lemma LinearAround(dims: seq<nat>, at: seq<nat>, dim: nat)
    requires |at| == |dims| && dim < |dims|
    ensures Linear(dims, at) == Linear(dims[..dim], at[..dim])
              + Product(dims[..dim]) * (at[dim] + dims[dim] * Linear(dims[dim + 1..], at[dim + 1..]))
  {
    LinearSplits(dims, at, dim);
    assert dims[dim..][1..] == dims[dim + 1..] && at[dim..][1..] == at[dim + 1..];
  }

  /**
   * The element of the output at a multi-index is that of the one input whose range along `dim` contains it, at the
   * multi-index counted from the start of that range, byte for byte. Elements are counted by their real bytes here:
   * what that means for complex ones is the next section.
   */
  lemma Concatenates<T>(inputs: seq<Structure>, dim: nat, bytes: nat, placements: seq<Placement>, stride: nat,
                        blockCount: nat, contents: seq<seq<T>>, output: seq<T>, at: seq<nat>, i: nat, byte: nat)
    requires LaidOut(inputs, dim, bytes, placements, stride, blockCount)
    requires Copied(output, contents, placements, stride, blockCount)
    requires Within(OutputDims(inputs, dim), at) && byte < bytes
    requires i < |inputs| && Extent(inputs, dim, i) <= at[dim] < Extent(inputs, dim, i) + inputs[i].dims[dim]
    ensures var there := at[dim := at[dim] - Extent(inputs, dim, i)];
            && Within(inputs[i].dims, there)
            && ByteOf(Linear(OutputDims(inputs, dim), at), bytes, byte) < |output|
            && ByteOf(Linear(inputs[i].dims, there), bytes, byte) < |contents[i]|
            && output[ByteOf(Linear(OutputDims(inputs, dim), at), bytes, byte)]
            == contents[i][ByteOf(Linear(inputs[i].dims, there), bytes, byte)]
  {
    var there := at[dim := at[dim] - Extent(inputs, dim, i)];
    Around(inputs, dim, at, i);
    SameShape(inputs, dim, bytes, placements, stride, blockCount, i);
    hide *;
    var block, k := ByteInBlock(inputs, dim, bytes, placements, stride, blockCount, at, there, i, byte);
    CopiedAt(output, contents, placements, stride, blockCount, i, block, k,
             ByteOf(Linear(OutputDims(inputs, dim), at), bytes, byte),
             ByteOf(Linear(inputs[i].dims, there), bytes, byte));
  }

  /** The number of byte `byte` of an element. */
  ghost function ByteOf(element: nat, bytes: nat, byte: nat): nat {
    element * bytes + byte
  }

  lemma SameShape(inputs: seq<Structure>, dim: nat, bytes: nat, placements: seq<Placement>, stride: nat,
                  blockCount: nat, i: nat)
    requires LaidOut(inputs, dim, bytes, placements, stride, blockCount) && i < |inputs|
    ensures i < |placements| && dim < |inputs[i].dims| && |inputs[i].dims| == |inputs[0].dims|
  {
    assert Matches(inputs[0], inputs[i], dim);
  }

  /** The block and the place in it of a byte, the same from the start of the output and of the input. */
  lemma ByteInBlock(inputs: seq<Structure>, dim: nat, bytes: nat, placements: seq<Placement>, stride: nat,
                    blockCount: nat, at: seq<nat>, there: seq<nat>, i: nat, byte: nat)
    returns (block: nat, k: nat)
    requires LaidOut(inputs, dim, bytes, placements, stride, blockCount)
    requires Within(OutputDims(inputs, dim), at) && byte < bytes && i < |inputs| && |there| == |inputs[i].dims|
    requires dim < |inputs[i].dims|
    requires Extent(inputs, dim, i) <= at[dim] < Extent(inputs, dim, i) + inputs[i].dims[dim]
    requires there == at[dim := at[dim] - Extent(inputs, dim, i)]
    ensures block < blockCount && i < |placements| && k < placements[i].bytesPerBlock
    ensures ByteOf(Linear(OutputDims(inputs, dim), at), bytes, byte) == placements[i].offset + block * stride + k
    ensures ByteOf(Linear(inputs[i].dims, there), bytes, byte) == block * placements[i].bytesPerBlock + k
  {
    Around(inputs, dim, at, i);
    NumbersOf(inputs, dim, bytes, placements, stride, blockCount, i);
    hide *;
    var dims, slices := inputs[0].dims, inputs[i].dims[dim];
    var low, below := Linear(dims[..dim], at[..dim]), Product(dims[..dim]);
    block := Linear(dims[dim + 1..], at[dim + 1..]);
    k := ByteOf(Stacked(low, below, there[dim], slices, 0), bytes, byte);
    ByteNumbers(low, below, there[dim], slices, OutputDims(inputs, dim)[dim], block, bytes, byte,
                Extent(inputs, dim, i), placements[i], stride,
                Linear(OutputDims(inputs, dim), at), Linear(inputs[i].dims, there), k);
  }

  /** The number of element `low` of slice `slice` of a block of `total` slices. */
  ghost function Stacked(low: nat, below: nat, slice: nat, total: nat, block: nat): nat {
    low + below * (slice + total * block)
  }

  lemma ByteNumbers(low: nat, below: nat, slice: nat, slices: nat, total: nat, block: nat, bytes: nat, byte: nat,
                    before: nat, placement: Placement, stride: nat, out: nat, mine: nat, k: nat)
    requires low < below && slice < slices && byte < bytes
    requires placement == Placement(Volume(below, slices, bytes), Volume(below, before, bytes))
    requires stride == Volume(below, total, bytes)
    requires out == Stacked(low, below, before + slice, total, block)
    requires mine == Stacked(low, below, slice, slices, block)
    requires k == ByteOf(Stacked(low, below, slice, slices, 0), bytes, byte)
    ensures k < placement.bytesPerBlock
    ensures ByteOf(out, bytes, byte) == placement.offset + block * stride + k
    ensures ByteOf(mine, bytes, byte) == block * placement.bytesPerBlock + k
  {
    InBlock(low, below, slice, slices, bytes, byte);
    ByteNumber(low, below, slice, slices, block, bytes, byte, 0);
    ByteNumber(low, below, slice, total, block, bytes, byte, before);
  }

  /** The numbers of an output element and of the input element it comes from share all but the place along `dim`. */
  lemma Around(inputs: seq<Structure>, dim: nat, at: seq<nat>, i: nat)
    requires Compatible(inputs, dim) && Within(OutputDims(inputs, dim), at)
    requires i < |inputs| && dim < |inputs[i].dims|
    requires Extent(inputs, dim, i) <= at[dim] < Extent(inputs, dim, i) + inputs[i].dims[dim]
    ensures var dims, there := inputs[0].dims, at[dim := at[dim] - Extent(inputs, dim, i)];
            var low, below := Linear(dims[..dim], at[..dim]), Product(dims[..dim]);
            var block := Linear(dims[dim + 1..], at[dim + 1..]);
            && Within(inputs[i].dims, there) && low < below && block < Product(dims[dim + 1..])
            && Linear(inputs[i].dims, there) == Stacked(low, below, there[dim], inputs[i].dims[dim], block)
            && Linear(OutputDims(inputs, dim), at) == Stacked(low, below, at[dim], OutputDims(inputs, dim)[dim], block)
  {
    var dims, there := inputs[0].dims, at[dim := at[dim] - Extent(inputs, dim, i)];
    var out, mine := OutputDims(inputs, dim), inputs[i].dims;
    SameAround(inputs, dim, at, there, i);
    hide Linear, Product, Extent, Compatible, Within, OutputDims;
    LinearInside(dims[..dim], at[..dim]);
    LinearInside(dims[dim + 1..], at[dim + 1..]);
    LinearAround(out, at, dim);
    LinearAround(mine, there, dim);
  }

  /** Below and above `dim` the output, the first input and every other input have the same sizes. */
  lemma SameAround(inputs: seq<Structure>, dim: nat, at: seq<nat>, there: seq<nat>, i: nat)
    requires Compatible(inputs, dim) && Within(OutputDims(inputs, dim), at)
    requires i < |inputs| && dim < |inputs[i].dims| && |at| == |there|
    requires forall d :: 0 <= d < |at| && d != dim ==> there[d] == at[d]
    requires there[dim] < inputs[i].dims[dim]
    ensures var dims, out, mine := inputs[0].dims, OutputDims(inputs, dim), inputs[i].dims;
            && |mine| == |dims| == |at| && Within(mine, there)
            && Within(dims[..dim], at[..dim]) && Within(dims[dim + 1..], at[dim + 1..])
            && out[..dim] == dims[..dim] == mine[..dim] && out[dim + 1..] == dims[dim + 1..] == mine[dim + 1..]
            && there[..dim] == at[..dim] && there[dim + 1..] == at[dim + 1..]
  {
    hide Extent;
    assert Matches(inputs[0], inputs[i], dim);
  }

  lemma NumbersOf(inputs: seq<Structure>, dim: nat, bytes: nat, placements: seq<Placement>, stride: nat,
                  blockCount: nat, i: nat)
    requires LaidOut(inputs, dim, bytes, placements, stride, blockCount) && i < |inputs|
    ensures i < |placements| && dim < |inputs[i].dims| && |inputs[i].dims| == |inputs[0].dims|
    ensures placements[i].bytesPerBlock == Volume(Product(inputs[0].dims[..dim]), inputs[i].dims[dim], bytes)
    ensures placements[i].offset == Volume(Product(inputs[0].dims[..dim]), Extent(inputs, dim, i), bytes)
    ensures stride == Volume(Product(inputs[0].dims[..dim]), OutputDims(inputs, dim)[dim], bytes)
    ensures blockCount == Product(inputs[0].dims[dim + 1..])
  {
    assert Matches(inputs[0], inputs[i], dim);
  }

  lemma CopiedAt<T>(output: seq<T>, contents: seq<seq<T>>, placements: seq<Placement>, stride: nat, blockCount: nat,
                    i: nat, block: nat, at: nat, to: nat, from: nat)
    requires Copied(output, contents, placements, stride, blockCount)
    requires i < |placements| && block < blockCount && at < placements[i].bytesPerBlock
    requires to == placements[i].offset + block * stride + at && from == block * placements[i].bytesPerBlock + at
    ensures i < |contents| && to < |output| && from < |contents[i]| && output[to] == contents[i][from]
  {
    assert IsByte(placements, blockCount, i, block, at);
  }

  /** A byte of a slice lies in the block of the slices. */
  lemma InBlock(low: nat, below: nat, slice: nat, slices: nat, bytes: nat, byte: nat)
    requires low < below && slice < slices && byte < bytes
    ensures (low + below * slice) * bytes + byte < below * slices * bytes
  {
    Nested(below, slices, low, slice);
    Nested(bytes, below * slices, byte, low + below * slice);
  }

  /** The number of a byte, from the start of its block and from the start of its own stretch of the block. */
  lemma ByteNumber(low: nat, below: nat, slice: nat, size: nat, block: nat, bytes: nat, byte: nat, before: nat)
    ensures (low + below * (before + slice + size * block)) * bytes + byte
         == below * before * bytes + block * (below * size * bytes) + ((low + below * slice) * bytes + byte)
  {
    calc {
      (low + below * (before + slice + size * block)) * bytes;
    == { assert below * (before + slice + size * block) == below * before + below * slice + below * (size * block); }
      (low + below * before + below * slice + below * (size * block)) * bytes;
    ==
      (low + below * slice) * bytes + (below * before) * bytes + below * (size * block) * bytes;
    == { assert below * (size * block) * bytes == block * (below * size * bytes); }
      (low + below * slice) * bytes + below * before * bytes + block * (below * size * bytes);
    }
  }

  // ----------------------------------------------------------------------------------- complex elements

  /** What the service makes of an output: every block is in its place, and what is behind the blocks stays. */
  ghost predicate Ran<T>(before: seq<T>, contents: seq<seq<T>>, after: seq<T>, placements: seq<Placement>,
                         stride: nat, blockCount: nat)
  {
    && stride * blockCount <= |before| == |after|
    && Copied(after, contents, placements, stride, blockCount)
    && after[stride * blockCount..] == before[stride * blockCount..]
  }

  /** numberOfBytesReal */
  ghost function RealBytes(dims: seq<nat>, bytes: nat): nat {
    NumberOfElements(dims) * bytes
  }

  /** numberOfBytesTotal of the output, and of every input: what setStructure allocates. */
  ghost function OutputBytes(inputs: seq<Structure>, dim: nat, bytes: nat): nat
    requires Compatible(inputs, dim)
  {
    Parts(inputs[0].format) * RealBytes(OutputDims(inputs, dim), bytes)
  }

  ghost predicate Allocated<T>(inputs: seq<Structure>, dim: nat, bytes: nat, contents: seq<seq<T>>, output: seq<T>)
    requires Compatible(inputs, dim)
  {
    && |output| == OutputBytes(inputs, dim, bytes) && |contents| == |inputs|
    && forall i :: 0 <= i < |inputs| ==>
         |contents[i]| == Parts(inputs[i].format) * RealBytes(inputs[i].dims, bytes)
  }

  /** Input `i` is where an element of the output comes from. */
  ghost predicate FromInput(inputs: seq<Structure>, dim: nat, at: seq<nat>, i: nat)
    requires Compatible(inputs, dim)
  {
    && Within(OutputDims(inputs, dim), at) && i < |inputs| && dim < |inputs[i].dims|
    && Extent(inputs, dim, i) <= at[dim] < Extent(inputs, dim, i) + inputs[i].dims[dim]
  }

  /** Every byte of every part of every element of the output is that of the element it comes from. */
  ghost predicate FullyConcatenated<T>(inputs: seq<Structure>, dim: nat, bytes: nat, contents: seq<seq<T>>,
                                       output: seq<T>)
    requires Compatible(inputs, dim)
  {
    forall at: seq<nat>, i: nat, part: nat, byte: nat ::
      FromInput(inputs, dim, at, i) && part < Parts(inputs[0].format) && byte < bytes ==>
        PartConcatenated(inputs, dim, bytes, contents, output, at, i, part, byte)
  }

  ghost predicate PartConcatenated<T>(inputs: seq<Structure>, dim: nat, bytes: nat, contents: seq<seq<T>>,
                                      output: seq<T>, at: seq<nat>, i: nat, part: nat, byte: nat)
    requires Compatible(inputs, dim) && FromInput(inputs, dim, at, i)
  {
    var there := at[dim := at[dim] - Extent(inputs, dim, i)];
    var to := PartByte(inputs[0].format, OutputDims(inputs, dim), at, part, bytes, byte);
    var from := PartByte(inputs[i].format, inputs[i].dims, there, part, bytes, byte);
    && to < |output| && i < |contents| && from < |contents[i]|
    && output[to] == contents[i][from]
  }

  /** The number of a byte of a part of an element. */
  ghost function PartByte(format: Format, dims: seq<nat>, at: seq<nat>, part: nat, bytes: nat, byte: nat): nat
    requires |at| == |dims|
  {
    ByteOf(Part(format, NumberOfElements(dims), Linear(dims, at), part), bytes, byte)
  }

  /** Every element of the output comes from exactly one input. */
  lemma OneInput(inputs: seq<Structure>, dim: nat, at: seq<nat>)
    requires Compatible(inputs, dim) && Within(OutputDims(inputs, dim), at)
    ensures exists i: nat :: FromInput(inputs, dim, at, i)
    ensures forall i: nat, j: nat :: FromInput(inputs, dim, at, i) && FromInput(inputs, dim, at, j) ==> i == j
  {
    AllHaveDim(inputs, dim);
    var i := InputAt(inputs, dim, at[dim], |inputs|);
    assert FromInput(inputs, dim, at, i);
    forall j: nat, k: nat | FromInput(inputs, dim, at, j) && FromInput(inputs, dim, at, k) ensures j == k {
      if j < k {
        ExtentGrows(inputs, dim, j + 1, k);
      } else if k < j {
        ExtentGrows(inputs, dim, k + 1, j);
      }
    }
  }

  lemma AllHaveDim(inputs: seq<Structure>, dim: nat)
    requires Compatible(inputs, dim)
    ensures forall i :: 0 <= i < |inputs| ==> dim < |inputs[i].dims|
  {
    forall i | 0 <= i < |inputs| ensures dim < |inputs[i].dims| {
      assert Matches(inputs[0], inputs[i], dim);
    }
  }

  lemma {:induction false} InputAt(inputs: seq<Structure>, dim: nat, slice: nat, n: nat) returns (i: nat)
    requires n <= |inputs| && forall j :: 0 <= j < n ==> dim < |inputs[j].dims|
    requires slice < Extent(inputs, dim, n)
    ensures i < n && Extent(inputs, dim, i) <= slice < Extent(inputs, dim, i) + inputs[i].dims[dim]
  {
    if Extent(inputs, dim, n - 1) <= slice {
      i := n - 1;
    } else {
      i := InputAt(inputs, dim, slice, n - 1);
    }
  }

  lemma {:induction false} ExtentGrows(inputs: seq<Structure>, dim: nat, m: nat, n: nat)
    requires m <= n <= |inputs| && forall j :: 0 <= j < n ==> dim < |inputs[j].dims|
    ensures Extent(inputs, dim, m) <= Extent(inputs, dim, n)
  {
    if m < n {
      ExtentGrows(inputs, dim, m, n - 1);
    }
  }

  /** The blocks together are the bytes of real elements, of the output and of every input. */
  lemma BlocksAreRealBytes(inputs: seq<Structure>, dim: nat, bytes: nat, placements: seq<Placement>, stride: nat,
                           blockCount: nat)
    requires LaidOut(inputs, dim, bytes, placements, stride, blockCount)
    ensures stride * blockCount == RealBytes(OutputDims(inputs, dim), bytes)
    ensures forall i :: 0 <= i < |inputs| ==>
              placements[i].bytesPerBlock * blockCount == RealBytes(inputs[i].dims, bytes)
  {
    var dims, out := inputs[0].dims, OutputDims(inputs, dim);
    forall i | 0 <= i < |inputs|
      ensures placements[i].bytesPerBlock * blockCount == RealBytes(inputs[i].dims, bytes)
    {
      assert Matches(inputs[0], inputs[i], dim);
      assert inputs[i].dims[..dim] == dims[..dim] && inputs[i].dims[dim + 1..] == dims[dim + 1..];
      BlocksTogether(inputs[i].dims, dim, bytes);
    }
    assert out[..dim] == dims[..dim] && out[dim + 1..] == dims[dim + 1..];
    BlocksTogether(out, dim, bytes);
  }

  lemma BlocksTogether(dims: seq<nat>, dim: nat, bytes: nat)
    requires dim < |dims|
    ensures BlockBytes(dims, dim, dims[dim], bytes) * BlockCount(dims, dim) == RealBytes(dims, bytes)
  {
    ProductAround(dims, dim);
    Regroup(Product(dims[..dim]), dims[dim], bytes, Product(dims[dim + 1..]));
  }

  lemma Regroup(below: nat, count: nat, bytes: nat, above: nat)
    ensures Volume(below, count, bytes) * above == below * count * above * bytes
  {
    assert below * count * bytes * above == (below * count) * (bytes * above);
  }

  lemma {:induction false} ProductAround(dims: seq<nat>, d: nat)
    requires d < |dims|
    ensures Product(dims) == Product(dims[..d]) * dims[d] * Product(dims[d + 1..])
  {
    if d == 0 {
      assert dims[..0] == [];
    } else {
      ProductAround(dims[1..], d - 1);
      assert dims[..d][1..] == dims[1..][..d - 1] && dims[1..][d..] == dims[d + 1..];
      Reassociate(dims[0], Product(dims[1..][..d - 1]), dims[d], Product(dims[d + 1..]));
    }
  }

  lemma Reassociate(n: nat, low: nat, size: nat, high: nat)
    ensures n * (low * size * high) == n * low * size * high
  {
    assert n * (low * size * high) == n * (low * size) * high;
    assert n * (low * size) == n * low * size;
  }

  /** Every byte of the output is written if and only if the elements are real, or there are no bytes. */
  lemma WrittenExactly(inputs: seq<Structure>, dim: nat, bytes: nat, placements: seq<Placement>, stride: nat,
                       blockCount: nat)
    requires LaidOut(inputs, dim, bytes, placements, stride, blockCount)
    ensures (forall p: nat :: p < OutputBytes(inputs, dim, bytes) ==> Written(placements, stride, blockCount, p))
       <==> (!inputs[0].format.complex || RealBytes(OutputDims(inputs, dim), bytes) == 0)
  {
    LayoutIsPacked(inputs, dim, bytes, placements, stride, blockCount);
    BlocksAreRealBytes(inputs, dim, bytes, placements, stride, blockCount);
    hide LaidOut, Compatible, RealBytes, OutputDims, Packed, IsByte, Position;
    var size := RealBytes(OutputDims(inputs, dim), bytes);
    forall p: nat ensures Written(placements, stride, blockCount, p) <==> p < size {
      WrittenBelow(placements, stride, blockCount, p);
    }
    if inputs[0].format.complex && size > 0 {
      assert !Written(placements, stride, blockCount, size);
    }
  }

  lemma WrittenBelow(placements: seq<Placement>, stride: nat, blockCount: nat, p: nat)
    requires Packed(placements, stride)
    ensures Written(placements, stride, blockCount, p) <==> p < stride * blockCount
  {
    if p < stride * blockCount {
      WrittenAtLeastOnce(placements, stride, blockCount, p);
    }
    forall i: nat, block: nat, at: nat | IsByte(placements, blockCount, i, block, at)
      ensures Position(placements, stride, i, block, at) < stride * blockCount
    {
      PositionInOutput(placements, stride, blockCount, i, block, at);
    }
  }

  /** The service concatenates whatever it is given if and only if the elements are real, or there are no bytes. */
  lemma ConcatenatesExactly<T(!new)>(inputs: seq<Structure>, dim: nat, bytes: nat, placements: seq<Placement>,
                                     stride: nat, blockCount: nat, x: T, y: T)
    requires LaidOut(inputs, dim, bytes, placements, stride, blockCount) && x != y
    ensures (forall before: seq<T>, contents: seq<seq<T>>, after: seq<T> ::
               Allocated(inputs, dim, bytes, contents, before)
               && Ran(before, contents, after, placements, stride, blockCount)
               ==> FullyConcatenated(inputs, dim, bytes, contents, after))
       <==> (!inputs[0].format.complex || RealBytes(OutputDims(inputs, dim), bytes) == 0)
  {
    assert Compatible(inputs, dim) && inputs != [];
    hide LaidOut, Compatible, RealBytes, OutputDims, Ran, Allocated, FullyConcatenated;
    if !inputs[0].format.complex || RealBytes(OutputDims(inputs, dim), bytes) == 0 {
      forall before: seq<T>, contents: seq<seq<T>>, after: seq<T> |
        Allocated(inputs, dim, bytes, contents, before)
        && Ran(before, contents, after, placements, stride, blockCount)
        ensures FullyConcatenated(inputs, dim, bytes, contents, after)
      {
        RealConcatenated(inputs, dim, bytes, placements, stride, blockCount, before, contents, after);
      }
    } else {
      var contents, output := ImaginaryLost(inputs, dim, bytes, placements, stride, blockCount, x, y);
    }
  }

  lemma RealConcatenated<T>(inputs: seq<Structure>, dim: nat, bytes: nat, placements: seq<Placement>, stride: nat,
                            blockCount: nat, before: seq<T>, contents: seq<seq<T>>, after: seq<T>)
    requires LaidOut(inputs, dim, bytes, placements, stride, blockCount)
    requires Ran(before, contents, after, placements, stride, blockCount)
    requires !inputs[0].format.complex || RealBytes(OutputDims(inputs, dim), bytes) == 0
    ensures FullyConcatenated(inputs, dim, bytes, contents, after)
  {
    forall at: seq<nat>, i: nat, part: nat, byte: nat |
      FromInput(inputs, dim, at, i) && part < Parts(inputs[0].format) && byte < bytes
      ensures PartConcatenated(inputs, dim, bytes, contents, after, at, i, part, byte)
    {
      SomeElement(inputs, dim, bytes, at);
      RealPartConcatenated(inputs, dim, bytes, placements, stride, blockCount, before, contents, after, at, i, byte);
    }
  }

  lemma SomeElement(inputs: seq<Structure>, dim: nat, bytes: nat, at: seq<nat>)
    requires Compatible(inputs, dim) && Within(OutputDims(inputs, dim), at) && bytes > 0
    ensures RealBytes(OutputDims(inputs, dim), bytes) > 0
  {
    LinearInside(OutputDims(inputs, dim), at);
    Monotone(Product(OutputDims(inputs, dim)), 1, bytes);
  }

  /** Of elements not interleaved, the real part is concatenated; what is behind the real parts is as it was. */
  lemma RealPartConcatenated<T>(inputs: seq<Structure>, dim: nat, bytes: nat, placements: seq<Placement>,
                                stride: nat, blockCount: nat, before: seq<T>, contents: seq<seq<T>>, after: seq<T>,
                                at: seq<nat>, i: nat, byte: nat)
    requires LaidOut(inputs, dim, bytes, placements, stride, blockCount)
    requires Ran(before, contents, after, placements, stride, blockCount)
    requires FromInput(inputs, dim, at, i) && byte < bytes
    requires !(inputs[0].format.complex && inputs[0].format.interleaved)
    ensures PartConcatenated(inputs, dim, bytes, contents, after, at, i, 0, byte)
    ensures RealBytes(OutputDims(inputs, dim), bytes) <= |before| == |after|
    ensures after[RealBytes(OutputDims(inputs, dim), bytes)..] == before[RealBytes(OutputDims(inputs, dim), bytes)..]
  {
    BlocksAreRealBytes(inputs, dim, bytes, placements, stride, blockCount);
    hide LaidOut, RealBytes, Copied, Linear, OutputDims, Extent, Within;
    Concatenates(inputs, dim, bytes, placements, stride, blockCount, contents, after, at, i, byte);
  }

  /** Contents whose imaginary parts do not arrive, if there are any. */
  lemma ImaginaryLost<T(!new)>(inputs: seq<Structure>, dim: nat, bytes: nat, placements: seq<Placement>,
                               stride: nat, blockCount: nat, x: T, y: T)
    returns (contents: seq<seq<T>>, output: seq<T>)
    requires LaidOut(inputs, dim, bytes, placements, stride, blockCount) && x != y
    requires inputs[0].format.complex && RealBytes(OutputDims(inputs, dim), bytes) > 0
    ensures Allocated(inputs, dim, bytes, contents, output)
    ensures Ran(output, contents, output, placements, stride, blockCount)
    ensures !FullyConcatenated(inputs, dim, bytes, contents, output)
  {
    var size := RealBytes(OutputDims(inputs, dim), bytes);
    contents := seq(|inputs|, i requires 0 <= i < |inputs| =>
                      seq(2 * RealBytes(inputs[i].dims, bytes), _ => x));
    output := seq(2 * size, n => if n < size then x else y);
    RanOverX(inputs, dim, bytes, placements, stride, blockCount, contents, output, x);
    var at, i := LastImaginary(inputs, dim, bytes);
    assert PartByte(inputs[0].format, OutputDims(inputs, dim), at, 1, bytes, 0) >= size;
    assert !PartConcatenated(inputs, dim, bytes, contents, output, at, i, 1, 0);
  }

  /** Inputs of one value, and an output that has it already where the blocks go. */
  lemma RanOverX<T>(inputs: seq<Structure>, dim: nat, bytes: nat, placements: seq<Placement>, stride: nat,
                    blockCount: nat, contents: seq<seq<T>>, output: seq<T>, x: T)
    requires LaidOut(inputs, dim, bytes, placements, stride, blockCount)
    requires |contents| == |inputs| && |output| >= RealBytes(OutputDims(inputs, dim), bytes)
    requires forall n :: 0 <= n < RealBytes(OutputDims(inputs, dim), bytes) ==> output[n] == x
    requires forall i :: 0 <= i < |inputs| ==>
               && |contents[i]| >= RealBytes(inputs[i].dims, bytes)
               && forall n :: 0 <= n < |contents[i]| ==> contents[i][n] == x
    ensures Ran(output, contents, output, placements, stride, blockCount)
  {
    LayoutIsPacked(inputs, dim, bytes, placements, stride, blockCount);
    BlocksAreRealBytes(inputs, dim, bytes, placements, stride, blockCount);
    assert |placements| == |inputs|;
    hide LaidOut, Compatible, RealBytes, OutputDims, Packed, Copied;
    assert Copied(output, contents, placements, stride, blockCount) by {
      CopiedOverX(placements, stride, blockCount, contents, output, x);
    }
  }

  lemma CopiedOverX<T>(placements: seq<Placement>, stride: nat, blockCount: nat, contents: seq<seq<T>>,
                       output: seq<T>, x: T)
    requires Packed(placements, stride) && |contents| == |placements| && |output| >= stride * blockCount
    requires forall n :: 0 <= n < stride * blockCount ==> output[n] == x
    requires forall i :: 0 <= i < |contents| ==>
               && |contents[i]| >= placements[i].bytesPerBlock * blockCount
               && forall n :: 0 <= n < |contents[i]| ==> contents[i][n] == x
    ensures Copied(output, contents, placements, stride, blockCount)
  {
    hide Packed, Position, IsByte, ByteCopied;
    forall i: nat, block: nat, at: nat | IsByte(placements, blockCount, i, block, at)
      ensures ByteCopied(output, contents, placements, stride, i, block, at)
    {
      ByteInside(placements, stride, blockCount, i, block, at);
      ByteOverX(placements, stride, contents, output, x, i, block, at);
    }
  }

  lemma ByteInside(placements: seq<Placement>, stride: nat, blockCount: nat, i: nat, block: nat, at: nat)
    requires Packed(placements, stride) && IsByte(placements, blockCount, i, block, at)
    ensures i < |placements| && Position(placements, stride, i, block, at) < stride * blockCount
    ensures block * placements[i].bytesPerBlock + at < placements[i].bytesPerBlock * blockCount
  {
    hide Packed, Position;
    PositionInOutput(placements, stride, blockCount, i, block, at);
    BlockFits(placements, stride, blockCount, i, block);
  }

  lemma ByteOverX<T>(placements: seq<Placement>, stride: nat, contents: seq<seq<T>>, output: seq<T>, x: T, i: nat,
                     block: nat, at: nat)
    requires i < |placements| == |contents|
    requires Position(placements, stride, i, block, at) < |output|
    requires block * placements[i].bytesPerBlock + at < |contents[i]|
    requires output[Position(placements, stride, i, block, at)] == x
    requires contents[i][block * placements[i].bytesPerBlock + at] == x
    ensures ByteCopied(output, contents, placements, stride, i, block, at)
  {
    hide Position;
  }

  /** The last element of the output: its imaginary part is behind the real bytes in either format. */
  lemma LastImaginary(inputs: seq<Structure>, dim: nat, bytes: nat) returns (at: seq<nat>, i: nat)
    requires Compatible(inputs, dim) && inputs[0].format.complex && RealBytes(OutputDims(inputs, dim), bytes) > 0
    ensures FromInput(inputs, dim, at, i)
    ensures PartByte(inputs[0].format, OutputDims(inputs, dim), at, 1, bytes, 0)
         >= RealBytes(OutputDims(inputs, dim), bytes)
  {
    var out := OutputDims(inputs, dim);
    PositiveFactor(NumberOfElements(out), bytes);
    at := LastElement(out);
    OneInput(inputs, dim, at);
    i :| FromInput(inputs, dim, at, i);
    Monotone(bytes, NumberOfElements(out), Part(inputs[0].format, NumberOfElements(out), Linear(out, at), 1));
  }

  lemma {:induction false} LastElement(dims: seq<nat>) returns (at: seq<nat>)
    requires Product(dims) > 0
    ensures Within(dims, at) && Linear(dims, at) == Product(dims) - 1
  {
    if dims == [] {
      at := [];
    } else {
      PositiveFactor(dims[0], Product(dims[1..]));
      PositiveFactor(Product(dims[1..]), dims[0]);
      var rest := LastElement(dims[1..]);
      at := [dims[0] - 1] + rest;
      assert at[1..] == rest;
      assert dims[0] * (Product(dims[1..]) - 1) == dims[0] * Product(dims[1..]) - dims[0];
    }
  }

  // ----------------------------------------------------------------------------------------- process

  /** Why an input does not go with the first one, in the order of the checks. */
  ghost function Reason(first: Structure, other: Structure, dim: nat): (refusal: Refusal)
    ensures refusal == None <==> Matches(first, other, dim)
  {
    if !SameType(first, other) then TypeMismatch
    else if |other.dims| != |first.dims| then CountMismatch
    else if exists d :: 0 <= d < |first.dims| && d != dim && other.dims[d] != first.dims[d] then SizeMismatch
    else None
  }

  /** What the first `i` inputs have contributed. */
  ghost predicate Placed(inputs: seq<Structure>, dim: nat, bytes: nat, placements: seq<Placement>, offset: nat,
                         i: nat)
  {
    && i == |placements| <= |inputs| && inputs != [] && dim < |inputs[0].dims|
    && (forall j :: 0 <= j < i ==> Matches(inputs[0], inputs[j], dim))
    && offset == BlockBytes(inputs[0].dims, dim, Extent(inputs, dim, i), bytes)
    && (forall j :: 0 <= j < i ==>
          placements[j].bytesPerBlock == BlockBytes(inputs[0].dims, dim, inputs[j].dims[dim], bytes))
    && (forall j :: 0 <= j < i ==>
          placements[j].offset == BlockBytes(inputs[0].dims, dim, Extent(inputs, dim, j), bytes))
  }

  /** The sizes of the output so far; the first input is there before the first turn. */
  ghost function SizesSoFar(inputs: seq<Structure>, dim: nat, i: nat): seq<nat>
    requires inputs != [] && dim < |inputs[0].dims|
    requires i <= |inputs| && forall j :: 0 <= j < i ==> dim < |inputs[j].dims|
  {
    if i == 0 then inputs[0].dims else inputs[0].dims[dim := Extent(inputs, dim, i)]
  }

  lemma PlacedMeans(inputs: seq<Structure>, dim: nat, bytes: nat, placements: seq<Placement>, offset: nat, i: nat)
    requires Placed(inputs, dim, bytes, placements, offset, i)
    ensures inputs != [] && dim < |inputs[0].dims| && i == |placements| <= |inputs|
    ensures forall j :: 0 <= j < i ==> Matches(inputs[0], inputs[j], dim) && dim < |inputs[j].dims|
    ensures var sizes := SizesSoFar(inputs, dim, i);
            && |sizes| == |inputs[0].dims|
            && forall d :: 0 <= d < |sizes| && d != dim ==> sizes[d] == inputs[0].dims[d]
  {
  }

  lemma SizesNext(inputs: seq<Structure>, dim: nat, i: nat)
    requires inputs != [] && dim < |inputs[0].dims| && i < |inputs|
    requires forall j :: 0 <= j <= i ==> dim < |inputs[j].dims|
    ensures var sizes := SizesSoFar(inputs, dim, i);
            && |sizes| == |inputs[0].dims|
            && SizesSoFar(inputs, dim, i + 1)
            == if i == 0 then sizes else sizes[dim := sizes[dim] + inputs[i].dims[dim]]
  {
  }

  lemma Outset(inputs: seq<Structure>, dim: nat, bytes: nat)
    requires inputs != []
    ensures dim >= |inputs[0].dims| ==> !Compatible(inputs, dim)
    ensures dim < |inputs[0].dims| ==>
              && Placed(inputs, dim, bytes, [], 0, 0) && SizesSoFar(inputs, dim, 0) == inputs[0].dims
              && BlockCount(inputs[0].dims, dim) == Product(inputs[0].dims[dim + 1..])
  {
    if dim < |inputs[0].dims| {
      BlockBytesAdd(inputs[0].dims, dim, 0, 0, bytes);
    }
  }

  /** Input `i` is the first that does not go with input 0, for the reason given. */
  ghost predicate Refused(inputs: seq<Structure>, dim: nat, i: nat, refusal: Refusal) {
    && 0 < i < |inputs| && Reason(inputs[0], inputs[i], dim) == refusal
    && forall j :: 0 <= j < i ==> Matches(inputs[0], inputs[j], dim)
  }

  lemma RefusedAt(inputs: seq<Structure>, dim: nat, bytes: nat, placements: seq<Placement>, offset: nat, i: nat)
    requires Placed(inputs, dim, bytes, placements, offset, i) && i < |inputs|
    requires Reason(inputs[0], inputs[i], dim) != None
    ensures Refused(inputs, dim, i, Reason(inputs[0], inputs[i], dim)) && !Compatible(inputs, dim)
  {
  }

  lemma PlacedNext(inputs: seq<Structure>, dim: nat, bytes: nat, placements: seq<Placement>, offset: nat, i: nat,
                   size: nat)
    requires i < |inputs| && Placed(inputs, dim, bytes, placements, offset, i)
    requires Matches(inputs[0], inputs[i], dim) && dim < |inputs[i].dims|
    requires size == BlockBytes(inputs[i].dims, dim, inputs[i].dims[dim], bytes)
    ensures Placed(inputs, dim, bytes, placements + [Placement(size, offset)], offset + size, i + 1)
  {
    SameBelow(inputs[0].dims, inputs[i].dims, dim, inputs[i].dims[dim], bytes);
    hide BlockBytes;
    BlockBytesAdd(inputs[0].dims, dim, Extent(inputs, dim, i), inputs[i].dims[dim], bytes);
  }

  /** The block size of an input depends on what is below `dim`, where it is like the first one. */
  lemma SameBelow(dims: seq<nat>, mine: seq<nat>, dim: nat, count: nat, bytes: nat)
    requires |dims| == |mine| && dim < |dims| && forall d :: 0 <= d < dim ==> mine[d] == dims[d]
    ensures BlockBytes(mine, dim, count, bytes) == BlockBytes(dims, dim, count, bytes)
  {
    assert mine[..dim] == dims[..dim];
  }

  /** All inputs are placed. */
  ghost predicate PlacedUpTo(inputs: seq<Structure>, dim: nat, bytes: nat, placements: seq<Placement>, dims: seq<nat>,
                             n: nat)
  {
    && n == |inputs| && Compatible(inputs, dim) && dims == OutputDims(inputs, dim) && |placements| == n
    && forall i :: 0 <= i < n ==> placements[i] == PlacementOf(inputs, dim, bytes, i)
  }

  lemma PlacedIs(inputs: seq<Structure>, dim: nat, bytes: nat, placements: seq<Placement>, offset: nat,
                 dims: seq<nat>)
    requires Placed(inputs, dim, bytes, placements, offset, |inputs|)
    requires dims == SizesSoFar(inputs, dim, |inputs|)
    ensures PlacedUpTo(inputs, dim, bytes, placements, dims, |inputs|) && Compatible(inputs, dim) && |dims| > dim
  {
    hide Extent, BlockBytes;
  }

  lemma PlacedAll(inputs: seq<Structure>, dim: nat, bytes: nat, placements: seq<Placement>, dims: seq<nat>,
                  size: nat)
    requires PlacedUpTo(inputs, dim, bytes, placements, dims, |inputs|)
    requires |dims| > dim && size == BlockBytes(dims, dim, dims[dim], bytes)
    ensures LaidOut(inputs, dim, bytes, placements, size, BlockCount(inputs[0].dims, dim))
    ensures dims == OutputDims(inputs, dim)
  {
    SameBelow(inputs[0].dims, dims, dim, dims[dim], bytes);
    hide Product, Extent, BlockCount, BlockBytes;
  }

  class CatProcess {
    var dim: nat
    var placements: seq<Placement>
    var blockCount: nat
    var stride: nat
    var outputDims: seq<nat>

    constructor ()
    {
      dim, blockCount, stride := 0, 0, 0;
      placements, outputDims := [], [];
    }

    /** EVENT_STATE_SET: the dimension is given one-based. */
    method StateSet(dimension: nat) returns (ok: bool)
      modifies this
      ensures ok <==> 1 <= dimension <= 100
      ensures ok ==> dim == dimension - 1
    {
      if dimension == 0 || dimension > 100 {
        return false;
      }
      dim := dimension - 1;
      return true;
    }

    /** EVENT_INIT_CONNECT: validates the inputs and lays out their blocks. */
    method Connect(inputs: seq<Structure>, bytes: nat) returns (refusal: Refusal, ghost culprit: nat)
      requires inputs != []
      modifies this
      ensures dim == old(dim)
      ensures refusal == DimOutOfRange <==> dim >= |inputs[0].dims|
      ensures refusal == None <==> Compatible(inputs, dim)
      ensures refusal != None && refusal != DimOutOfRange ==> Refused(inputs, dim, culprit, refusal)
      ensures refusal == None ==> forall i, d :: 0 <= i < |inputs| ==>
                && inputs[i].kind == inputs[0].kind && inputs[i].format == inputs[0].format
                && |inputs[i].dims| == |inputs[0].dims|
                && (0 <= d < |inputs[i].dims| && d != dim ==> inputs[i].dims[d] == inputs[0].dims[d])
      ensures refusal == TypeMismatch ==>
                inputs[culprit].kind != inputs[0].kind || inputs[culprit].format != inputs[0].format
      ensures refusal == CountMismatch ==>
                && inputs[culprit].kind == inputs[0].kind && inputs[culprit].format == inputs[0].format
                && |inputs[culprit].dims| != |inputs[0].dims|
      ensures refusal == SizeMismatch ==>
                && inputs[culprit].kind == inputs[0].kind && inputs[culprit].format == inputs[0].format
                && |inputs[culprit].dims| == |inputs[0].dims|
                && inputs[culprit].dims[dim := inputs[0].dims[dim]] != inputs[0].dims
      ensures refusal == None ==> LaidOut(inputs, dim, bytes, placements, stride, blockCount)
      ensures refusal == None ==> outputDims == OutputDims(inputs, dim)
    {
      Outset(inputs, dim, bytes);
      hide *;
      var first := inputs[0].dims;
      culprit := 0;
      if dim >= |first| {
        refusal := DimOutOfRange;
        return;
      }
      blockCount := Multiply(first[dim + 1..]);
      refusal, culprit, placements, outputDims := Place(inputs, bytes);
      if refusal == None {
        stride := BytesUpTo(outputDims, dim, bytes);
        PlacedAll(inputs, dim, bytes, placements, outputDims, stride);
      }
    }

    /** The loop over the inputs: where the blocks of each go, and the sizes of the output. */
    method Place(inputs: seq<Structure>, bytes: nat)
      returns (refusal: Refusal, ghost culprit: nat, placed: seq<Placement>, dims: seq<nat>)
      requires inputs != [] && dim < |inputs[0].dims|
      ensures refusal != DimOutOfRange && (refusal == None <==> Compatible(inputs, dim))
      ensures refusal != None ==> Refused(inputs, dim, culprit, refusal)
      ensures refusal == None ==> PlacedUpTo(inputs, dim, bytes, placed, dims, |inputs|) && |dims| > dim
    {
      Outset(inputs, dim, bytes);
      hide *;
      dims, placed := inputs[0].dims, [];
      var offset: nat := 0;
      culprit := 0;
      var i := 0;
      while i < |inputs|
        invariant 0 <= i <= |inputs|
        invariant Placed(inputs, dim, bytes, placed, offset, i) && dims == SizesSoFar(inputs, dim, i)
      {
        var size: nat;
        refusal, dims, size := Turn(inputs, bytes, placed, offset, dims, i);
        if refusal != None {
          culprit := i;
          return;
        }
        placed := placed + [Placement(size, offset)];
        offset := offset + size;
        i := i + 1;
      }
      PlacedIs(inputs, dim, bytes, placed, offset, dims);
      refusal := None;
    }

    /** One turn of the loop: checks input `i`, adds its size along `dim` and computes its block size. */
    method Turn(inputs: seq<Structure>, bytes: nat, ghost placed: seq<Placement>, ghost offset: nat, sizes: seq<nat>,
                i: nat)
      returns (refusal: Refusal, dims: seq<nat>, size: nat)
      requires i < |inputs| && Placed(inputs, dim, bytes, placed, offset, i)
      requires dim < |inputs[0].dims| && sizes == SizesSoFar(inputs, dim, i)
      ensures refusal != DimOutOfRange
      ensures refusal != None ==> Refused(inputs, dim, i, refusal) && !Compatible(inputs, dim)
      ensures refusal == None ==>
                && Placed(inputs, dim, bytes, placed + [Placement(size, offset)], offset + size, i + 1)
                && dims == SizesSoFar(inputs, dim, i + 1)
    {
      PlacedMeans(inputs, dim, bytes, placed, offset, i);
      hide *;
      dims, size := sizes, 0;
      var idims := inputs[i].dims;
      if i > 0 && dim < |idims| {
        dims := dims[dim := dims[dim] + idims[dim]];
      }
      refusal := Admit(inputs[0], inputs[i], dims);
      if refusal != None {
        RefusedAt(inputs, dim, bytes, placed, offset, i);
        return;
      }
      SizesNext(inputs, dim, i);
      size := BytesUpTo(idims, dim, bytes);
      PlacedNext(inputs, dim, bytes, placed, offset, i, size);
    }

    /**
     * EVENT_RUN_SERVICE: copies every block of every input to its place. The blocks are sized in real elements;
     * inputs and output have twice as many bytes if they are complex.
     */
    method Run<T>(output: array<T>, contents: seq<seq<T>>)
      requires Packed(placements, stride) && |contents| == |placements|
      requires output.Length >= stride * blockCount
      requires forall i :: 0 <= i < |contents| ==> |contents[i]| >= placements[i].bytesPerBlock * blockCount
      modifies output
      ensures Ran(old(output[..]), contents, output[..], placements, stride, blockCount)
    {
      hide Copied, CopiedUpTo, Packed, Kept;
      ghost var start := output[..];
      NothingCopied(output[..], contents, placements, stride, blockCount);
      NothingChanged(start, stride * blockCount);
      var i := 0;
      while i < |placements|
        invariant 0 <= i <= |placements|
        invariant CopiedUpTo(output[..], contents, placements, stride, blockCount, i, 0)
        invariant Kept(start, output[..], stride * blockCount)
      {
        var b := 0;
        while b < blockCount
          invariant 0 <= b <= blockCount
          invariant CopiedUpTo(output[..], contents, placements, stride, blockCount, i, b)
          invariant Kept(start, output[..], stride * blockCount)
        {
          BlockFits(placements, stride, blockCount, i, b);
          ghost var before := output[..];
          Memcpy(output, placements[i].offset + b * stride, contents[i], b * placements[i].bytesPerBlock,
                 placements[i].bytesPerBlock);
          BlockCopied(before, output[..], contents, placements, stride, blockCount, i, b);
          BlockKeeps(start, before, output[..], stride * blockCount, placements[i].offset + b * stride,
                     placements[i].bytesPerBlock);
          b := b + 1;
        }
        InputCopied(output[..], contents, placements, stride, blockCount, i);
        i := i + 1;
      }
      AllCopied(output[..], contents, placements, stride, blockCount);
      AllRan(start, contents, output[..], placements, stride, blockCount);
    }

    /** The checks on one input; `dims` has the sizes of the first input except along `dim`. */
    method Admit(first: Structure, other: Structure, dims: seq<nat>) returns (refusal: Refusal)
      requires |dims| == |first.dims| && forall d :: 0 <= d < |dims| && d != dim ==> dims[d] == first.dims[d]
      ensures refusal == Reason(first, other, dim) && refusal != DimOutOfRange
    {
      if !SameType(first, other) {
        return TypeMismatch;
      }
      if |other.dims| != |dims| {
        return CountMismatch;
      }
      var agree := SizesAgree(other.dims, dims);
      return if agree then None else SizeMismatch;
    }

    /** All sizes but the one along `dim` are the same. */
    method SizesAgree(dims: seq<nat>, others: seq<nat>) returns (agree: bool)
      requires |dims| == |others|
      ensures agree <==> forall d :: 0 <= d < |dims| && d != dim ==> dims[d] == others[d]
    {
      var d := 0;
      while d < |dims|
        invariant 0 <= d <= |dims|
        invariant forall e :: 0 <= e < d && e != dim ==> dims[e] == others[e]
      {
        if d != dim && dims[d] != others[d] {
          return false;
        }
        d := d + 1;
      }
      return true;
    }
  }

  method Memcpy<T>(to: array<T>, at: nat, from: seq<T>, start: nat, count: nat)
    requires at + count <= to.Length && start + count <= |from|
    modifies to
    ensures forall k :: at <= k < at + count ==> to[k] == from[start + (k - at)]
    ensures forall k :: 0 <= k < to.Length && !(at <= k < at + count) ==> to[k] == old(to[k])
  {
    var n := 0;
    while n < count
      invariant 0 <= n <= count
      invariant forall k :: at <= k < at + n ==> to[k] == from[start + (k - at)]
      invariant forall k :: 0 <= k < to.Length && !(at <= k < at + n) ==> to[k] == old(to[k])
    {
      to[at + n] := from[start + n];
      n := n + 1;
    }
  }

  /** The blocks of the inputs before `i`, and of input `i` those before `b`, are where they belong. */
  ghost predicate CopiedUpTo<T>(output: seq<T>, contents: seq<seq<T>>, placements: seq<Placement>, stride: nat,
                                blockCount: nat, i: nat, b: nat)
  {
    && |contents| == |placements|
    && forall j: nat, block: nat, at: nat ::
         IsByte(placements, blockCount, j, block, at) && (j < i || (j == i && block < b)) ==>
           ByteCopied(output, contents, placements, stride, j, block, at)
  }

  /** From `end` on nothing has changed. */
  ghost predicate Kept<T>(before: seq<T>, after: seq<T>, end: nat) {
    |before| == |after| && forall n :: end <= n < |after| ==> after[n] == before[n]
  }

  lemma NothingChanged<T>(output: seq<T>, end: nat)
    ensures Kept(output, output, end)
  {
  }

  lemma BlockKeeps<T>(start: seq<T>, before: seq<T>, after: seq<T>, end: nat, at: nat, size: nat)
    requires Kept(start, before, end) && |before| == |after| && at + size <= end
    requires forall k :: 0 <= k < |after| && !(at <= k < at + size) ==> after[k] == before[k]
    ensures Kept(start, after, end)
  {
  }

  lemma AllRan<T>(before: seq<T>, contents: seq<seq<T>>, after: seq<T>, placements: seq<Placement>, stride: nat,
                  blockCount: nat)
    requires Copied(after, contents, placements, stride, blockCount)
    requires Kept(before, after, stride * blockCount) && stride * blockCount <= |before|
    ensures Ran(before, contents, after, placements, stride, blockCount)
  {
  }

  lemma NothingCopied<T>(output: seq<T>, contents: seq<seq<T>>, placements: seq<Placement>, stride: nat,
                         blockCount: nat)
    requires |contents| == |placements|
    ensures CopiedUpTo(output, contents, placements, stride, blockCount, 0, 0)
  {
  }

  lemma InputCopied<T>(output: seq<T>, contents: seq<seq<T>>, placements: seq<Placement>, stride: nat,
                       blockCount: nat, i: nat)
    requires CopiedUpTo(output, contents, placements, stride, blockCount, i, blockCount)
    ensures CopiedUpTo(output, contents, placements, stride, blockCount, i + 1, 0)
  {
  }

  lemma AllCopied<T>(output: seq<T>, contents: seq<seq<T>>, placements: seq<Placement>, stride: nat, blockCount: nat)
    requires CopiedUpTo(output, contents, placements, stride, blockCount, |placements|, 0)
    ensures Copied(output, contents, placements, stride, blockCount)
  {
  }

  /** A block lies inside the output, and inside its input. */
  lemma BlockFits(placements: seq<Placement>, stride: nat, blockCount: nat, i: nat, b: nat)
    requires Packed(placements, stride) && i < |placements| && b < blockCount
    ensures placements[i].offset + b * stride + placements[i].bytesPerBlock <= stride * blockCount
    ensures b * placements[i].bytesPerBlock + placements[i].bytesPerBlock <= placements[i].bytesPerBlock * blockCount
  {
    OffsetsGrow(placements, stride, i, |placements|);
    Monotone(stride, b + 1, blockCount);
    assert stride * (b + 1) == b * stride + stride;
    var size := placements[i].bytesPerBlock;
    Monotone(size, b + 1, blockCount);
    assert size * (b + 1) == b * size + size;
  }

  /** One more block is in place, and it has overwritten none of the others. */
  lemma BlockCopied<T>(before: seq<T>, after: seq<T>, contents: seq<seq<T>>, placements: seq<Placement>, stride: nat,
                       blockCount: nat, i: nat, b: nat)
    requires Packed(placements, stride) && |contents| == |placements| && i < |placements| && b < blockCount
    requires |before| == |after| >= stride * blockCount
    requires |contents[i]| >= placements[i].bytesPerBlock * blockCount
    requires CopiedUpTo(before, contents, placements, stride, blockCount, i, b)
    requires placements[i].offset + b * stride + placements[i].bytesPerBlock <= |after|
    requires b * placements[i].bytesPerBlock + placements[i].bytesPerBlock <= |contents[i]|
    requires var start, size := placements[i].offset + b * stride, placements[i].bytesPerBlock;
             && (forall k :: start <= k < start + size ==> after[k] == contents[i][b * size + (k - start)])
             && (forall k :: 0 <= k < |after| && !(start <= k < start + size) ==> after[k] == before[k])
    ensures CopiedUpTo(after, contents, placements, stride, blockCount, i, b + 1)
  {
    var start, size := placements[i].offset + b * stride, placements[i].bytesPerBlock;
    forall j: nat, block: nat, at: nat |
      IsByte(placements, blockCount, j, block, at) && (j < i || (j == i && block < b + 1))
      ensures ByteCopied(after, contents, placements, stride, j, block, at)
    {
      var p := Position(placements, stride, j, block, at);
      PositionInOutput(placements, stride, blockCount, j, block, at);
      if j == i && block == b {
        assert after[start + at] == contents[i][b * size + at];
      } else {
        assert ByteCopied(before, contents, placements, stride, j, block, at);
        NotInBlock(placements, stride, blockCount, i, b, j, block, at);
      }
    }
  }

  lemma NotInBlock(placements: seq<Placement>, stride: nat, blockCount: nat, i: nat, b: nat, j: nat, block: nat,
                   at: nat)
    requires Packed(placements, stride) && i < |placements| && b < blockCount && (j != i || block != b)
    requires IsByte(placements, blockCount, j, block, at)
    ensures var start := placements[i].offset + b * stride;
            !(start <= Position(placements, stride, j, block, at) < start + placements[i].bytesPerBlock)
  {
    var start, p := placements[i].offset + b * stride, Position(placements, stride, j, block, at);
    if start <= p < start + placements[i].bytesPerBlock {
      assert IsByte(placements, blockCount, i, b, p - start);
      WrittenAtMostOnce(placements, stride, blockCount, i, b, p - start, j, block, at);
      assert false;
    }
  }

  /** The size in bytes of the dimensions up to and including `dim`. */
  method BytesUpTo(dims: seq<nat>, dim: nat, bytes: nat) returns (size: nat)
    requires dim < |dims|
    ensures size == BlockBytes(dims, dim, dims[dim], bytes)
  {
    var numEls := Multiply(dims[..dim + 1]);
    ProductNext(dims, dim);
    size := numEls * bytes;
  }

  method Multiply(sizes: seq<nat>) returns (product: nat)
    ensures product == Product(sizes)
  {
    product := 1;
    var d := 0;
    assert sizes[..0] == [] && sizes[..|sizes|] == sizes;
    while d < |sizes|
      invariant 0 <= d <= |sizes|
      invariant product == Product(sizes[..d])
    {
      ProductNext(sizes, d);
      product := product * sizes[d];
      d := d + 1;
    }
  }
}
