/** The three kinds of output batch, built by the array pipeline: a single head, two heads, and the
    two-chunk supertile of the fused step.  Each is a copy the end-to-end theorem accepts. */
module OutputBatches {
  import opened Semantics
  import opened LaneOps
  import opened HeadTiles
  import opened EndToEnd
  import CopyOut

  /** The tile can be produced from the slot that holds its task's Gram tile. */
  ghost predicate From(x: Inputs, tile: HeadTile, slot: seq<real>) {
    && TileFits(x, tile) && tile.rowStart % 8 == 0
    && HoldsGram(slot, x, tile.start, tile.chunkLen, KvOf(x, tile.head))
  }

  method SingleBatch(x: Inputs, slot: seq<real>, tile: HeadTile,
                     kkt: array<real>, g: array<real>, beta: array<real>, negG: array<real>, scratch: array<real>,
                     mask: array<bool>, output: array<real>) returns (s: Store)
    requires From(x, tile, slot) && GatesLaw(x) && Buffers(kkt, g, beta, negG, scratch, mask, output)
    modifies kkt, g, beta, negG, scratch, mask, output
    ensures GoodStore(x, s) && s.tiles == [tile] && s.buffer == output[..]
  {
    SingleTile(x, slot, tile.head, tile.start, tile.chunkLen, tile.rowStart, tile.rowCount,
               kkt, g, beta, negG, scratch, mask, output, 0);
    s := Store(CopyOut.QueuedSingle(tile.head, tile.start, tile.rowStart, tile.rowCount), [tile], output[..]);
    IsFilled(x, tile, output, 0);
  }

  lemma IsFilled(x: Inputs, tile: HeadTile, output: array<real>, i: int)
    requires TileFits(x, tile) && output.Length == 16384 && 0 <= i < 4
    requires forall z :: 4096 * i <= z < 4096 * i + 64 * tile.rowCount ==>
      output[z] == TileCell(x, tile.head, tile.start, tile.chunkLen, tile.rowStart, tile.rowCount, z - 4096 * i)
    ensures Filled(x, tile, output[..], i)
  {
    forall y | 0 <= y < 64 * tile.rowCount
      ensures output[..][4096 * i + y]
           == TileCell(x, tile.head, tile.start, tile.chunkLen, tile.rowStart, tile.rowCount, y)
    {
      assert output[..][4096 * i + y] == output[4096 * i + y];
    }
  }

  // Two heads of one KV group.
  ghost predicate SameGroup(x: Inputs, tile: HeadTile) {
    && TileFits(x, tile) && TileFits(x, tile.(head := tile.head + 1)) && tile.rowStart == 0
    && KvOf(x, tile.head) == KvOf(x, tile.head + 1)
  }

  /** Two heads of one task; the second one's tile is right while its gates arrive. */
  method PairBatch(x: Inputs, slot: seq<real>, tile: HeadTile,
                   kkt: array<real>, g: array<real>, beta: array<real>, negG: array<real>, scratch: array<real>,
                   mask: array<bool>, output: array<real>) returns (s: Store)
    requires From(x, tile, slot) && SameGroup(x, tile) && GatesLaw(x)
    requires Buffers(kkt, g, beta, negG, scratch, mask, output)
    modifies kkt, g, beta, negG, scratch, mask, output
    ensures s.tiles == [tile, tile.(head := tile.head + 1)] && s.buffer == output[..]
    ensures Filled(x, tile, s.buffer, 0)
    ensures Arrives(x, tile.chunkLen, 1) ==> GoodStore(x, s)
  {
    PairInto(x, slot, tile, kkt, g, beta, negG, scratch, mask, output, 0, 1);
    s := Store(CopyOut.QueuedPair(tile.head, tile.start, tile.rowCount * 64),
               [tile, tile.(head := tile.head + 1)], output[..]);
  }

  /** The light lane's supertile: one head on two adjacent full chunks, through one KKT buffer. */
  method ChunkPairBatch(x: Inputs, slot0: seq<real>, slot1: seq<real>, c0: HeadTile, c1: HeadTile,
                        kkt: array<real>, g: array<real>, beta: array<real>, negG: array<real>, scratch: array<real>,
                        mask: array<bool>, output: array<real>) returns (s: Store)
    requires From(x, c0, slot0) && From(x, c1, slot1) && ChunkPair(c0, c1) && GatesLaw(x)
    requires Buffers(kkt, g, beta, negG, scratch, mask, output)
    modifies kkt, g, beta, negG, scratch, mask, output
    ensures GoodStore(x, s) && s.tiles == [c0, c1] && s.buffer == output[..]
  {
    SingleTile(x, slot0, c0.head, c0.start, 64, 0, 64, kkt, g, beta, negG, scratch, mask, output, 0);
    SingleTile(x, slot1, c1.head, c1.start, 64, 0, 64, kkt, g, beta, negG, scratch, mask, output, 4096);
    s := Store(CopyOut.QueuedChunkPair(c0.head, c0.start, 1), [c0, c1], output[..]);
    IsFilled(x, c0, output, 0);
    IsFilled(x, c1, output, 1);
  }

  /** The heavy lane's supertile: two heads on two adjacent full chunks, the second head again under its
      stride. */
  method HeavyChunkPairBatch(x: Inputs, slot0: seq<real>, slot1: seq<real>, c0: HeadTile, c1: HeadTile,
                             kkt: array<real>, g: array<real>, beta: array<real>, negG: array<real>,
                             scratch: array<real>, mask: array<bool>, output: array<real>) returns (s: Store)
    requires From(x, c0, slot0) && From(x, c1, slot1) && ChunkPair(c0, c1) && GatesLaw(x)
    requires SameGroup(x, c0) && SameGroup(x, c1) && Buffers(kkt, g, beta, negG, scratch, mask, output)
    modifies kkt, g, beta, negG, scratch, mask, output
    ensures s.tiles == [c0, c1, c0.(head := c0.head + 1), c1.(head := c1.head + 1)] && s.buffer == output[..]
    ensures Filled(x, c0, s.buffer, 0) && Filled(x, c1, s.buffer, 1)
    ensures Arrives(x, 64, 1) ==> GoodStore(x, s)
  {
    var d0, d1 := c0.(head := c0.head + 1), c1.(head := c1.head + 1);
    PairInto(x, slot0, c0, kkt, g, beta, negG, scratch, mask, output, 0, 2);
    ghost var before := output[..];
    PairInto(x, slot1, c1, kkt, g, beta, negG, scratch, mask, output, 1, 3);
    KeptFilled(x, c0, before, output, 0);
    if Arrives(x, 64, 1) { KeptFilled(x, d0, before, output, 2); }
    s := Store(CopyOut.QueuedChunkPair(c0.head, c0.start, 2), [c0, c1, d0, d1], output[..]);
  }

  // Two heads into two tiles of the buffer.
  method PairInto(x: Inputs, slot: seq<real>, tile: HeadTile,
                  kkt: array<real>, g: array<real>, beta: array<real>, negG: array<real>,
                  scratch: array<real>, mask: array<bool>, output: array<real>, i0: int, i1: int)
    requires From(x, tile, slot) && SameGroup(x, tile) && GatesLaw(x)
    requires 0 <= i0 < 4 && 0 <= i1 < 4 && i0 != i1 && Buffers(kkt, g, beta, negG, scratch, mask, output)
    modifies kkt, g, beta, negG, scratch, mask, output
    ensures Filled(x, tile, output[..], i0)
    ensures Arrives(x, tile.chunkLen, 1) ==> Filled(x, tile.(head := tile.head + 1), output[..], i1)
    ensures forall z :: 0 <= z < 16384 ==>
      output[z] == old(output[z]) || 4096 * i0 <= z < 4096 * i0 + 4096 || 4096 * i1 <= z < 4096 * i1 + 4096
  {
    PairTile(x, slot, tile.head, tile.start, tile.chunkLen, tile.rowCount, kkt, g, beta, negG, scratch, mask, output,
             4096 * i0, 4096 * i1);
    IsFilled(x, tile, output, i0);
    if Arrives(x, tile.chunkLen, 1) { IsFilled(x, tile.(head := tile.head + 1), output, i1); }
  }

  lemma KeptFilled(x: Inputs, tile: HeadTile, before: seq<real>, output: array<real>, i: int)
    requires TileFits(x, tile) && |before| == output.Length == 16384 && 0 <= i < 4 && Filled(x, tile, before, i)
    requires tile.rowCount <= 64
    requires forall z :: 4096 * i <= z < 4096 * (i + 1) ==> output[z] == before[z]
    ensures Filled(x, tile, output[..], i)
  {
    forall y | 0 <= y < 64 * tile.rowCount
      ensures output[..][4096 * i + y]
           == TileCell(x, tile.head, tile.start, tile.chunkLen, tile.rowStart, tile.rowCount, y)
    {
      assert output[4096 * i + y] == before[4096 * i + y];
    }
  }
}
