/** Storing a finished batch: what MTE3 writes to the output for the three kinds of delayed record, by
    one strided descriptor where the destination stride fits its 16-bit field, by plain copies
    otherwise. */
module CopyOut {
  import opened VectorOps
  import opened Widths

  const ELEMS_PER_BLOCK := 8
  const MAX_STRIDE := 65535

  /** The held-back record: up to two heads, each with one tile (of `active` elements) or two full
      ones. */
  datatype Record = Record(isPair: bool, isChunkPair: bool, first: int, second: int, active: int)

  // Output address of row 0, column 0 of a (head, token) position.
  function RowAddr(head: int, token: int, t: int): int { (head * t + token) * ROW_ELEMS }

  function SingleOutput(head: int, start: int, rowStart: int, rowCount: int, t: int): Record {
    Record(false, false, RowAddr(head, start + rowStart, t), 0, rowCount * ROW_ELEMS)
  }

  function PairOutput(firstHead: int, start: int, active: int, t: int): Record {
    Record(true, false, RowAddr(firstHead, start, t), RowAddr(firstHead + 1, start, t), active)
  }

  function ChunkPairOutput(firstHead: int, start: int, heads: int, t: int): Record {
    Record(heads == 2, true, RowAddr(firstHead, start, t),
           if heads == 2 then RowAddr(firstHead + 1, start, t) else 0, 2 * KKT_ELEMS)
  }

  /** How a lane queues a record: the arguments of the source's three QueueDelayed functions. */
  datatype Queued =
    | QueuedSingle(head: int, start: int, rowStart: int, rowCount: int)
    | QueuedPair(head: int, start: int, active: int)
    | QueuedChunkPair(head: int, start: int, heads: int)

  function RecordOf(q: Queued, t: int): Record {
    match q
    case QueuedSingle(head, start, rowStart, rowCount) => SingleOutput(head, start, rowStart, rowCount, t)
    case QueuedPair(head, start, active) => PairOutput(head, start, active, t)
    case QueuedChunkPair(head, start, heads) => ChunkPairOutput(head, start, heads, t)
  }

  // Elements stored per head.
  function Span(r: Record): int { if r.isChunkPair then 2 * KKT_ELEMS else r.active }

  // Where the second head starts in the VECOUT buffer.
  function SecondTile(r: Record): int { if r.isChunkPair then 2 * KKT_ELEMS else KKT_ELEMS }

  /** The record's cells lie in the output, its two heads t rows apart. */
  predicate Fits(r: Record, t: int, size: int) {
    && 0 <= r.first && Storable(r)
    && r.first + Span(r) <= size
    && (r.isPair ==> r.second == r.first + t * ROW_ELEMS && Span(r) <= t * ROW_ELEMS
                     && r.second + Span(r) <= size)
  }

  predicate InFirst(r: Record, x: int) { r.first <= x < r.first + Span(r) }
  predicate InSecond(r: Record, x: int) { r.isPair && r.second <= x < r.second + Span(r) }

  predicate Storable(r: Record) { 0 <= r.active && (!r.isChunkPair ==> r.active <= KKT_ELEMS) }

  /** The output cell x after storing the record: a per-head copy, nothing else. */
  function Stored(r: Record, buffer: seq<real>, x: int, before: real): real
    requires |buffer| == 4 * KKT_ELEMS && Storable(r)
  {
    if InFirst(r, x) then buffer[x - r.first]
    else if InSecond(r, x) then buffer[SecondTile(r) + (x - r.second)]
    else before
  }

  // A plain contiguous copy.
  method DataCopy(out: array<real>, d: int, buffer: seq<real>, s: int, count: int)
    requires 0 <= count && 0 <= d && d + count <= out.Length && 0 <= s && s + count <= |buffer|
    modifies out
    ensures forall x :: d <= x < d + count ==> out[x] == buffer[s + (x - d)]
    ensures forall x :: 0 <= x < out.Length && !(d <= x < d + count) ==> out[x] == old(out[x])
  {
    for y := d to d + count
      invariant forall x :: d <= x < y ==> out[x] == buffer[s + (x - d)]
      invariant forall x :: 0 <= x < out.Length && !(d <= x < y) ==> out[x] == old(out[x])
    {
      out[y] := buffer[s + (y - d)];
    }
  }

  // A descriptor of two blocks, contiguous in the buffer; lengths and strides are 16-bit counts of
  // 32-byte blocks, the stride being the gap after the first destination block.
  method DataCopyTwoBlocks(out: array<real>, d: int, buffer: seq<real>, blockLen: int, dstStride: int)
    requires 0 <= blockLen <= MAX_STRIDE && 0 <= dstStride <= MAX_STRIDE && 0 <= d
    requires d + (2 * blockLen + dstStride) * ELEMS_PER_BLOCK <= out.Length
    requires 2 * blockLen * ELEMS_PER_BLOCK <= |buffer|
    modifies out
    ensures
      var n := blockLen * ELEMS_PER_BLOCK;
      var e := d + n + dstStride * ELEMS_PER_BLOCK;
      && (forall x :: d <= x < d + n ==> out[x] == buffer[x - d])
      && (forall x :: e <= x < e + n ==> out[x] == buffer[n + (x - e)])
      && forall x :: 0 <= x < out.Length && !(d <= x < d + n) && !(e <= x < e + n) ==> out[x] == old(out[x])
  {
    var n := blockLen * ELEMS_PER_BLOCK;
    DataCopy(out, d, buffer, 0, n);
    DataCopy(out, d + n + dstStride * ELEMS_PER_BLOCK, buffer, n, n);
  }

  // Destination gap between the two heads, in blocks.
  function DstStride(r: Record, t: int): int {
    t * (ROW_ELEMS / ELEMS_PER_BLOCK) - SecondTile(r) / ELEMS_PER_BLOCK
  }

  // The condition under which the source emits one strided descriptor for both heads.
  predicate OneDescriptor(r: Record, t: int) {
    r.isPair && (r.isChunkPair || r.active == KKT_ELEMS) && 0 <= DstStride(r, t) <= MAX_STRIDE
  }

  method LaunchChunkPair(out: array<real>, buffer: seq<real>, r: Record, t: int)
    requires r.isChunkPair && Fits(r, t, out.Length) && |buffer| == 4 * KKT_ELEMS
    modifies out
    ensures forall x :: 0 <= x < out.Length ==> out[x] == Stored(r, buffer, x, old(out[x]))
  {
    if !r.isPair {
      DataCopy(out, r.first, buffer, 0, 2 * KKT_ELEMS);
    } else {
      var dstStrideBlocks := t * (ROW_ELEMS / ELEMS_PER_BLOCK) - 2 * (KKT_ELEMS / ELEMS_PER_BLOCK);
      if 0 <= dstStrideBlocks <= MAX_STRIDE {
        DataCopyTwoBlocks(out, r.first, buffer, Uint16(2 * (KKT_ELEMS / ELEMS_PER_BLOCK)), Uint16(dstStrideBlocks));
      } else {
        DataCopy(out, r.first, buffer, 0, 2 * KKT_ELEMS);
        DataCopy(out, r.second, buffer, 2 * KKT_ELEMS, 2 * KKT_ELEMS);
      }
    }
  }

  method LaunchPair(out: array<real>, buffer: seq<real>, r: Record, t: int)
    requires r.isPair && !r.isChunkPair && Fits(r, t, out.Length) && |buffer| == 4 * KKT_ELEMS
    modifies out
    ensures forall x :: 0 <= x < out.Length ==> out[x] == Stored(r, buffer, x, old(out[x]))
  {
    var dstStrideBlocks := t * (ROW_ELEMS / ELEMS_PER_BLOCK) - KKT_ELEMS / ELEMS_PER_BLOCK;
    if r.active == KKT_ELEMS && 0 <= dstStrideBlocks <= MAX_STRIDE {
      DataCopyTwoBlocks(out, r.first, buffer, Uint16(KKT_ELEMS / ELEMS_PER_BLOCK), Uint16(dstStrideBlocks));
    } else {
      DataCopy(out, r.first, buffer, 0, r.active);
      DataCopy(out, r.second, buffer, KKT_ELEMS, r.active);
    }
  }

  /** Every kind of record, on every path, stores exactly the per-head tiles. */
  method LaunchReadyOutput(out: array<real>, buffer: seq<real>, r: Record, t: int)
    requires Fits(r, t, out.Length) && |buffer| == 4 * KKT_ELEMS
    modifies out
    ensures forall x :: 0 <= x < out.Length ==> out[x] == Stored(r, buffer, x, old(out[x]))
  {
    if r.isChunkPair {
      LaunchChunkPair(out, buffer, r, t);
    } else if r.isPair {
      LaunchPair(out, buffer, r, t);
    } else {
      DataCopy(out, r.first, buffer, 0, r.active);
    }
  }

  /** The strided descriptor is used exactly up to these sequence lengths; there the 16-bit fields hold
      the stride unchanged, one row further they would not. */
  lemma StrideFits(r: Record, t: int)
    requires r.isPair && Span(r) <= t * ROW_ELEMS && (r.isChunkPair || r.active == KKT_ELEMS)
    ensures OneDescriptor(r, t) <==> t <= (if r.isChunkPair then 8319 else 8255)
    ensures OneDescriptor(r, t) <==> Uint16(DstStride(r, t)) == DstStride(r, t)
  {
    assert Uint16(DstStride(r, t)) <= MAX_STRIDE;
  }

  // ---------------------------------------------------------------- records as output tiles

  lemma HeadsApart(head: int, token: int, t: int)
    ensures RowAddr(head + 1, token, t) == RowAddr(head, token, t) + t * ROW_ELEMS
  {
    assert (head + 1) * t == head * t + t;
  }

  lemma InsideOutput(head: int, token: int, rows: int, t: int, heads: int)
    requires 0 <= head < heads && 0 <= token && 0 <= rows && token + rows <= t
    ensures 0 <= RowAddr(head, token, t) && RowAddr(head, token, t) + rows * ROW_ELEMS <= heads * t * ROW_ELEMS
  {
    assert head * t >= 0;
    assert (heads - head - 1) * t >= 0;
    assert (heads - head - 1) * t == heads * t - head * t - t;
  }

  /** Every record the lanes queue fits the output of `heads` heads by t rows. */
  lemma QueuedFit(head: int, start: int, rowStart: int, rowCount: int, t: int, heads: int)
    requires 0 <= head < heads && 0 <= start && 0 <= rowStart && 0 <= rowCount <= 64
    requires start + rowStart + rowCount <= t
    ensures Fits(SingleOutput(head, start, rowStart, rowCount, t), t, heads * t * ROW_ELEMS)
    ensures head + 1 < heads && rowStart == 0 ==>
      Fits(PairOutput(head, start, rowCount * ROW_ELEMS, t), t, heads * t * ROW_ELEMS)
    ensures start + 128 <= t ==> Fits(ChunkPairOutput(head, start, 1, t), t, heads * t * ROW_ELEMS)
    ensures head + 1 < heads && start + 128 <= t ==>
      Fits(ChunkPairOutput(head, start, 2, t), t, heads * t * ROW_ELEMS)
  {
    HeadsApart(head, start, t);
    InsideOutput(head, start + rowStart, rowCount, t, heads);
    if start + 128 <= t { InsideOutput(head, start, 128, t, heads); }
    if head + 1 < heads {
      if rowStart == 0 { InsideOutput(head + 1, start, rowCount, t, heads); }
      if start + 128 <= t { InsideOutput(head + 1, start, 128, t, heads); }
    }
  }

  // Contents of a chunk-pair buffer: [h0/c0][h0/c1][h1/c0][h1/c1].
  function Tile(buffer: seq<real>, i: int): seq<real>
    requires |buffer| == 4 * KKT_ELEMS && 0 <= i < 4
  {
    buffer[i * KKT_ELEMS..(i + 1) * KKT_ELEMS]
  }

  predicate InTile(tile: int, x: int) { tile <= x < tile + KKT_ELEMS }

  /** A chunk-pair record stores, tile by tile, what four (or two) single full-chunk records would. */
  lemma ChunkPairIsTiles(head: int, start: int, heads: int, t: int, buffer: seq<real>, x: int, before: real)
    requires 1 <= heads <= 2 && |buffer| == 4 * KKT_ELEMS && 128 <= t
    ensures
      Stored(ChunkPairOutput(head, start, heads, t), buffer, x, before)
      == (var h0c0, h0c1 := RowAddr(head, start, t), RowAddr(head, start + 64, t);
          var h1c0, h1c1 := RowAddr(head + 1, start, t), RowAddr(head + 1, start + 64, t);
          if InTile(h0c0, x) then Tile(buffer, 0)[x - h0c0]
          else if InTile(h0c1, x) then Tile(buffer, 1)[x - h0c1]
          else if heads == 2 && InTile(h1c0, x) then Tile(buffer, 2)[x - h1c0]
          else if heads == 2 && InTile(h1c1, x) then Tile(buffer, 3)[x - h1c1]
          else before)
  {}

  /** A pair record stores what two single records of its two heads would. */
  lemma PairIsSingles(head: int, start: int, rows: int, t: int, buffer: seq<real>, x: int, before: real)
    requires 0 <= rows <= 64 && rows <= t && |buffer| == 4 * KKT_ELEMS
    ensures
      Stored(PairOutput(head, start, rows * ROW_ELEMS, t), buffer, x, before)
      == Stored(SingleOutput(head + 1, start, 0, rows, t), buffer[KKT_ELEMS..] + buffer[..KKT_ELEMS], x,
                Stored(SingleOutput(head, start, 0, rows, t), buffer, x, before))
  {
    HeadsApart(head, start, t);
  }
}
