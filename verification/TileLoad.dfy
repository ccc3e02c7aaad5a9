/** Loads into the fixed 64-stride UB layout: the gate/beta batches of one or two heads, and the KKT
    tile of a lane's rows.  A tail chunk is padded by the copy up to the next 32-byte boundary; the
    rest of each row is zeroed separately. */
module TileLoad {
  import opened VectorOps
  import opened Widths

  // Next multiple of the block size.
  function Align(n: int, perBlock: int): int
    requires perBlock > 0
  {
    (n + perBlock - 1) / perBlock * perBlock
  }

  predicate BlockSize(perBlock: int) { perBlock == 8 || perBlock == 16 }

  lemma AlignFits(n: int, perBlock: int)
    requires BlockSize(perBlock) && 1 <= n <= 64
    ensures n <= Align(n, perBlock) <= 64 && Align(n, perBlock) < n + perBlock
    ensures (64 - Align(n, perBlock)) / perBlock * perBlock == 64 - Align(n, perBlock)
  {}

  // The b-th block of a strided source.
  function Source(s: int, stride: int, b: int): int { s + b * stride }

  predicate InSource(src: seq<real>, s: int, stride: int, blocks: int, len: int) {
    forall b :: 0 <= b < blocks ==> 0 <= Source(s, stride, b) && Source(s, stride, b) + len <= |src|
  }

  /** DataCopyPad with a 64-element destination stride: block b's elements land at 64 * b, followed by
      the zero padding; the remaining gap is not touched. */
  method DataCopyPad(dst: array<real>, src: seq<real>, s: int, blocks: int, len: int, stride: int, rightPad: int, gap: int)
    requires 0 <= blocks && 0 < len && 0 <= rightPad && 0 <= gap && len + rightPad + gap == 64
    requires Window(dst, 0, 64 * blocks) && InSource(src, s, stride, blocks, len)
    modifies dst
    ensures forall x :: 0 <= x < 64 * blocks && x % 64 < len ==> dst[x] == src[Source(s, stride, x / 64) + x % 64]
    ensures forall x :: 0 <= x < 64 * blocks && len <= x % 64 < len + rightPad ==> dst[x] == 0.0
    ensures forall x :: 0 <= x < 64 * blocks && len + rightPad <= x % 64 ==> dst[x] == old(dst[x])
    ensures forall x :: 64 * blocks <= x < dst.Length ==> dst[x] == old(dst[x])
  {
    for k := 0 to 64 * blocks
      invariant forall x :: 0 <= x < k && x % 64 < len ==> dst[x] == src[Source(s, stride, x / 64) + x % 64]
      invariant forall x :: 0 <= x < k && len <= x % 64 < len + rightPad ==> dst[x] == 0.0
      invariant forall x :: 0 <= x < k && len + rightPad <= x % 64 ==> dst[x] == old(dst[x])
      invariant forall x :: k <= x < dst.Length ==> dst[x] == old(dst[x])
    {
      if k % 64 < len {
        var b := k / 64;
        assert 0 <= Source(s, stride, b) && Source(s, stride, b) + len <= |src|;
        dst[k] := src[Source(s, stride, b) + k % 64];
      } else if k % 64 < len + rightPad {
        dst[k] := 0.0;
      }
    }
  }

  /** What a gate or beta position must hold: the head's value inside the chunk, zero beyond it. */
  function GateCell(src: seq<real>, base: int, t: int, chunkLen: int, x: int): real
    requires 0 <= x && 0 <= chunkLen && InSource(src, base, t, x / 64 + 1, chunkLen)
  {
    if x % 64 < chunkLen then src[Source(base, t, x / 64) + x % 64] else 0.0
  }

  predicate BatchShape(src: seq<real>, base: int, t: int, chunkLen: int, heads: int) {
    1 <= chunkLen <= 64 && 1 <= heads <= 2 && chunkLen <= t && InSource(src, base, t, heads, chunkLen)
  }

  /** The head stride the copy really uses: the gap between heads goes through a 32-bit byte field. */
  function HeadStride(t: int, chunkLen: int, bytes: int): int
    requires bytes > 0
  {
    chunkLen + Uint32((t - chunkLen) * bytes) / bytes
  }

  predicate StrideFits(t: int, chunkLen: int, bytes: int) { (t - chunkLen) * bytes < 0x1_0000_0000 }

  /** Two heads' source stride survives its 32-bit byte field exactly below four gigabytes. */
  lemma SourceStrideFits(t: int, chunkLen: int, bytes: int)
    requires 1 <= chunkLen <= t && (bytes == 2 || bytes == 4)
    ensures chunkLen <= HeadStride(t, chunkLen, bytes) <= t
    ensures HeadStride(t, chunkLen, bytes) == t <==> StrideFits(t, chunkLen, bytes)
  {
    if StrideFits(t, chunkLen, bytes) {
      assert Uint32((t - chunkLen) * bytes) == (t - chunkLen) * bytes;
    } else {
      assert Uint32((t - chunkLen) * bytes) < (t - chunkLen) * bytes;
      assert bytes * (Uint32((t - chunkLen) * bytes) / bytes) <= Uint32((t - chunkLen) * bytes);
    }
  }

  // The shortest gate rows it breaks: the second head is read right behind the first.
  lemma SourceStrideTruncated()
    ensures HeadStride(0x4000_0000 + 64, 64, 4) == 64
  {
    assert Uint32(0x4000_0000 * 4) == 0;
  }

  lemma TruncatedInSource(src: seq<real>, base: int, t: int, chunkLen: int, heads: int, bytes: int)
    requires BatchShape(src, base, t, chunkLen, heads) && (bytes == 2 || bytes == 4)
    ensures InSource(src, base, HeadStride(t, chunkLen, bytes), heads, chunkLen)
  {
    SourceStrideFits(t, chunkLen, bytes);
    var stride := HeadStride(t, chunkLen, bytes);
    assert Source(base, t, 0) == base == Source(base, stride, 0);
    if heads == 2 {
      assert Source(base, t, 1) == base + t && Source(base, stride, 1) == base + stride;
    }
  }

  // The DMA half of a batch prefetch; `bytes` is the element size.
  method CopyBatch(dst: array<real>, src: seq<real>, base: int, t: int, chunkLen: int, heads: int, bytes: int, perBlock: int)
    requires BatchShape(src, base, t, chunkLen, heads) && BlockSize(perBlock) && bytes * perBlock == 32
    requires InSource(src, base, HeadStride(t, chunkLen, bytes), heads, chunkLen)
    requires Window(dst, 0, 128)
    modifies dst
    ensures forall x :: 0 <= x < 64 * heads && x % 64 < Align(chunkLen, perBlock) ==>
      dst[x] == GateCell(src, base, HeadStride(t, chunkLen, bytes), chunkLen, x)
    ensures forall x :: 64 * heads <= x < dst.Length ==> dst[x] == old(dst[x])
  {
    var srcStrideBytes := Uint32((t - chunkLen) * bytes);
    AlignFits(chunkLen, perBlock);
    var aligned := Align(chunkLen, perBlock);
    DataCopyPad(dst, src, base, heads, chunkLen, chunkLen + srcStrideBytes / bytes, aligned - chunkLen, 64 - aligned);
  }

  // ZeroTailGateAndBetaBatchSuffix for one of the two queues.
  method ZeroSuffix(dst: array<real>, chunkLen: int, heads: int, perBlock: int)
    requires 1 <= chunkLen <= 64 && 1 <= heads <= 2 && BlockSize(perBlock) && Window(dst, 0, 128)
    modifies dst
    ensures forall x :: 0 <= x < 64 * heads && x % 64 >= Align(chunkLen, perBlock) ==> dst[x] == 0.0
    ensures forall x :: 0 <= x < 64 * heads && x % 64 < Align(chunkLen, perBlock) ==> dst[x] == old(dst[x])
    ensures forall x :: 64 * heads <= x < dst.Length ==> dst[x] == old(dst[x])
  {
    var aligned := Align(chunkLen, perBlock);
    AlignFits(chunkLen, perBlock);
    for head := 0 to heads
      invariant forall x :: 0 <= x < 64 * head && x % 64 >= aligned ==> dst[x] == 0.0
      invariant forall x :: 0 <= x < 64 * head && x % 64 < aligned ==> dst[x] == old(dst[x])
      invariant forall x :: 64 * head <= x < dst.Length ==> dst[x] == old(dst[x])
    {
      assert forall x :: 64 * head <= x < 64 * (head + 1) ==> x % 64 == x - 64 * head;
      if aligned < ROW_ELEMS {
        Duplicate(dst, head * ROW_ELEMS + aligned, 0.0, ROW_ELEMS - aligned);
      }
    }
  }

  /** For every chunk length and one or two heads, the loaded batch holds each head's gates, at the stride
      the copy uses, and zeros in every remaining column. */
  method LoadBatch(dst: array<real>, src: seq<real>, base: int, t: int, chunkLen: int, heads: int, bytes: int, perBlock: int)
    requires BatchShape(src, base, t, chunkLen, heads) && BlockSize(perBlock) && bytes * perBlock == 32
    requires InSource(src, base, HeadStride(t, chunkLen, bytes), heads, chunkLen)
    requires Window(dst, 0, 128)
    modifies dst
    ensures forall x :: 0 <= x < 64 * heads ==>
      dst[x] == GateCell(src, base, HeadStride(t, chunkLen, bytes), chunkLen, x)
    ensures forall x :: 64 * heads <= x < dst.Length ==> dst[x] == old(dst[x])
  {
    CopyBatch(dst, src, base, t, chunkLen, heads, bytes, perBlock);
    AlignFits(chunkLen, perBlock);
    if chunkLen != ROW_ELEMS {
      ZeroSuffix(dst, chunkLen, heads, perBlock);
    }
  }

  // The first head is always read where it lies, the second where the stride fits.
  lemma RightHead(src: seq<real>, base: int, t: int, chunkLen: int, heads: int, bytes: int, x: int)
    requires BatchShape(src, base, t, chunkLen, heads) && (bytes == 2 || bytes == 4)
    requires 0 <= x < 64 * heads && (x < 64 || StrideFits(t, chunkLen, bytes))
    ensures InSource(src, base, HeadStride(t, chunkLen, bytes), x / 64 + 1, chunkLen)
    ensures GateCell(src, base, HeadStride(t, chunkLen, bytes), chunkLen, x) == GateCell(src, base, t, chunkLen, x)
  {
    SourceStrideFits(t, chunkLen, bytes);
    TruncatedInSource(src, base, t, chunkLen, heads, bytes);
    if x < 64 {
      assert Source(base, t, x / 64) == base == Source(base, HeadStride(t, chunkLen, bytes), x / 64);
    }
  }

  // The loaded batch is right for this input.
  ghost predicate LoadedRight(src: seq<real>, base: int, t: int, chunkLen: int, heads: int, bytes: int)
    requires BatchShape(src, base, t, chunkLen, heads) && (bytes == 2 || bytes == 4)
  {
    TruncatedInSource(src, base, t, chunkLen, heads, bytes);
    forall x :: 0 <= x < 64 * heads ==>
      GateCell(src, base, HeadStride(t, chunkLen, bytes), chunkLen, x) == GateCell(src, base, t, chunkLen, x)
  }

  lemma FittingStride(src: seq<real>, base: int, t: int, chunkLen: int, heads: int, bytes: int)
    requires BatchShape(src, base, t, chunkLen, heads) && (bytes == 2 || bytes == 4)
    requires heads == 1 || StrideFits(t, chunkLen, bytes)
    ensures LoadedRight(src, base, t, chunkLen, heads, bytes)
  {
    TruncatedInSource(src, base, t, chunkLen, heads, bytes);
    forall x | 0 <= x < 64 * heads
      ensures GateCell(src, base, HeadStride(t, chunkLen, bytes), chunkLen, x) == GateCell(src, base, t, chunkLen, x)
    {
      RightHead(src, base, t, chunkLen, heads, bytes, x);
    }
  }

  lemma TruncatedStride(base: int, t: int, chunkLen: int, bytes: int) returns (src: seq<real>)
    requires 0 <= base && 1 <= chunkLen <= 64 && chunkLen <= t && (bytes == 2 || bytes == 4)
    requires !StrideFits(t, chunkLen, bytes)
    ensures BatchShape(src, base, t, chunkLen, 2) && !LoadedRight(src, base, t, chunkLen, 2, bytes)
  {
    src := seq(base + t + chunkLen, i => i as real);
    assert Source(base, t, 0) == base && Source(base, t, 1) == base + t;
    SourceStrideFits(t, chunkLen, bytes);
    TruncatedInSource(src, base, t, chunkLen, 2, bytes);
    var stride := HeadStride(t, chunkLen, bytes);
    assert GateCell(src, base, t, chunkLen, 64) == (base + t) as real;
    assert GateCell(src, base, stride, chunkLen, 64) == (base + stride) as real;
  }

  /** The loaded batch is right for every input exactly with one head, or while the stride fits. */
  lemma LoadedRightIff(base: int, t: int, chunkLen: int, heads: int, bytes: int)
    requires 0 <= base && 1 <= chunkLen <= 64 && chunkLen <= t && 1 <= heads <= 2 && (bytes == 2 || bytes == 4)
    ensures (forall src: seq<real> | BatchShape(src, base, t, chunkLen, heads) ::
               LoadedRight(src, base, t, chunkLen, heads, bytes))
       <==> heads == 1 || StrideFits(t, chunkLen, bytes)
  {
    if heads == 1 || StrideFits(t, chunkLen, bytes) {
      forall src: seq<real> | BatchShape(src, base, t, chunkLen, heads)
        ensures LoadedRight(src, base, t, chunkLen, heads, bytes)
      {
        FittingStride(src, base, t, chunkLen, heads, bytes);
      }
    } else {
      var src := TruncatedStride(base, t, chunkLen, bytes);
    }
  }

  /** A lane's rows of the workspace tile: real columns intact, remaining columns zero, whatever the
      reused UB buffer held. */
  method BeginLoadKktSlot(kkt: array<real>, slot: seq<real>, chunkLen: int, rowStart: int, rowCount: int)
    requires 1 <= chunkLen <= 64 && 0 <= rowStart && 1 <= rowCount && rowStart + rowCount <= 64
    requires |slot| == KKT_ELEMS && Window(kkt, 0, KKT_ELEMS)
    modifies kkt
    ensures forall x :: 0 <= x < 64 * rowCount ==>
      kkt[x] == if x % 64 < chunkLen then slot[64 * rowStart + x] else 0.0
  {
    if chunkLen != ROW_ELEMS {
      Duplicate(kkt, 0, 0.0, rowCount * ROW_ELEMS);
    }
    AlignFits(chunkLen, 8);
    var aligned := Align(chunkLen, 8);
    // both the plain and the padded copy are blocks of `chunkLen` elements every 64
    assert InSource(slot, rowStart * ROW_ELEMS, 64, rowCount, chunkLen);
    DataCopyPad(kkt, slot, rowStart * ROW_ELEMS, rowCount, chunkLen, 64, aligned - chunkLen, 64 - aligned);
    forall x | 0 <= x < 64 * rowCount && x % 64 < chunkLen
      ensures kkt[x] == slot[64 * rowStart + x]
    {
      assert Source(rowStart * ROW_ELEMS, 64, x / 64) + x % 64 == 64 * rowStart + x;
    }
  }
}
