/** The output memory after a launch: the copies of all lanes of all groups, in whatever order the MTE3
    pipes perform them, leave the formula in every row of a valid chunk and touch nothing else. */
module EndToEnd {
  import opened Schedule
  import opened LaneOps
  import opened Semantics
  import opened Golden
  import opened Coverage
  import opened HeadTiles
  import VectorLane
  import CopyOut

  /** One performed copy: its record, the tiles it carries and the buffer contents it reads. */
  datatype Store = Store(queued: CopyOut.Queued, tiles: seq<HeadTile>, buffer: seq<real>)

  // ---------------------------------------------------------------- tiles in memory

  ghost predicate TileFits(x: Inputs, tile: HeadTile) {
    && Batch(x, tile.head, 1, tile.start, tile.chunkLen)
    && 0 <= tile.rowStart && 1 <= tile.rowCount && tile.rowStart + tile.rowCount <= tile.chunkLen
  }

  predicate Covers(tile: HeadTile, head: int, row: int) {
    tile.head == head && tile.start + tile.rowStart <= row < tile.start + tile.rowStart + tile.rowCount
  }

  /** The formula value of a position of the tile. */
  ghost function ValueAt(x: Inputs, tile: HeadTile, row: int, j: int): real
    requires TileFits(x, tile) && Covers(tile, tile.head, row) && 0 <= j
  {
    Formula(x, tile.head, tile.start, tile.start + tile.chunkLen, row - tile.start, j)
  }

  function TileAddr(tile: HeadTile, t: int): int { CopyOut.RowAddr(tile.head, tile.start + tile.rowStart, t) }

  predicate InTile(tile: HeadTile, t: int, a: int) {
    TileAddr(tile, t) <= a < TileAddr(tile, t) + 64 * tile.rowCount
  }

  function Addr(head: int, row: int, j: int, t: int): int { CopyOut.RowAddr(head, row, t) + j }

  // The tile's memory range is its rows.
  lemma InTileRows(x: Inputs, tile: HeadTile, head: int, row: int, j: int)
    requires TileFits(x, tile) && 0 <= head && 0 <= row < x.t && 0 <= j < 64
    ensures InTile(tile, x.t, Addr(head, row, j, x.t)) <==> Covers(tile, head, row)
    ensures Covers(tile, head, row) ==>
      Addr(head, row, j, x.t) - TileAddr(tile, x.t) == 64 * (row - tile.start - tile.rowStart) + j
  {
    if tile.head < head {
      MulMono(tile.head + 1, head, x.t);
      assert (tile.head + 1) * x.t == tile.head * x.t + x.t;
    } else if head < tile.head {
      MulMono(head + 1, tile.head, x.t);
      assert (head + 1) * x.t == head * x.t + x.t;
    }
  }

  // Tile i of the buffer holds its formula values.
  ghost predicate Filled(x: Inputs, tile: HeadTile, buffer: seq<real>, i: int)
    requires |buffer| == 16384 && 0 <= i < 4 && TileFits(x, tile)
  {
    forall y :: 0 <= y < 64 * tile.rowCount ==>
      buffer[4096 * i + y] == TileCell(x, tile.head, tile.start, tile.chunkLen, tile.rowStart, tile.rowCount, y)
  }

  ghost predicate GoodStore(x: Inputs, s: Store) {
    && |s.buffer| == 16384 && |s.tiles| <= 4 && Made(s.queued, s.tiles)
    && forall i :: 0 <= i < |s.tiles| ==> TileFits(x, s.tiles[i]) && Filled(x, s.tiles[i], s.buffer, i)
  }

  // A copy stores, for each of its tiles, that tile's part of the buffer, and nothing else.
  ghost predicate StoresTiles(tiles: seq<HeadTile>, t: int, buffer: seq<real>, a: int, before: real, v: real)
    requires |buffer| == 16384 && |tiles| <= 4
  {
    && (forall i :: 0 <= i < |tiles| && InTile(tiles[i], t, a) && 0 <= a - TileAddr(tiles[i], t) < 4096 ==>
          v == buffer[4096 * i + (a - TileAddr(tiles[i], t))])
    && ((forall i :: 0 <= i < |tiles| ==> !InTile(tiles[i], t, a)) ==> v == before)
  }

  lemma SingleStores(x: Inputs, s: Store, a: int, before: real)
    requires GoodStore(x, s) && |s.tiles| == 1
    ensures StoresTiles(s.tiles, x.t, s.buffer, a, before, CopyOut.Stored(CopyOut.RecordOf(s.queued, x.t), s.buffer, a, before))
  {
    assert TileFits(x, s.tiles[0]);
  }

  lemma PairStores(x: Inputs, s: Store, a: int, before: real)
    requires GoodStore(x, s) && |s.tiles| == 2
    ensures StoresTiles(s.tiles, x.t, s.buffer, a, before, CopyOut.Stored(CopyOut.RecordOf(s.queued, x.t), s.buffer, a, before))
  {
    var p, q := s.tiles[0], s.tiles[1];
    assert TileFits(x, p) && TileFits(x, q);
    CopyOut.HeadsApart(p.head, p.start, x.t);
    assert CopyOut.RowAddr(p.head, p.start + 64, x.t) == CopyOut.RowAddr(p.head, p.start, x.t) + 4096;
    assert HeadPair(p, q) ==> TileAddr(q, x.t) == TileAddr(p, x.t) + 64 * x.t;
    assert ChunkPair(p, q) ==> TileAddr(q, x.t) == TileAddr(p, x.t) + 4096;
  }

  lemma QuadStores(x: Inputs, s: Store, a: int, before: real)
    requires GoodStore(x, s) && |s.tiles| == 4
    ensures StoresTiles(s.tiles, x.t, s.buffer, a, before, CopyOut.Stored(CopyOut.RecordOf(s.queued, x.t), s.buffer, a, before))
  {
    var p := s.tiles[0];
    assert TileFits(x, p) && TileFits(x, s.tiles[1]) && TileFits(x, s.tiles[2]) && TileFits(x, s.tiles[3]);
    CopyOut.HeadsApart(p.head, p.start, x.t);
    CopyOut.HeadsApart(p.head, p.start + 64, x.t);
    assert TileAddr(s.tiles[1], x.t) == TileAddr(p, x.t) + 4096;
    assert TileAddr(s.tiles[2], x.t) == TileAddr(p, x.t) + 64 * x.t;
    assert TileAddr(s.tiles[3], x.t) == TileAddr(p, x.t) + 64 * x.t + 4096;
  }

  lemma StoreEffect(x: Inputs, s: Store, a: int, before: real)
    requires GoodStore(x, s)
    ensures CopyOut.Storable(CopyOut.RecordOf(s.queued, x.t))
    ensures StoresTiles(s.tiles, x.t, s.buffer, a, before, CopyOut.Stored(CopyOut.RecordOf(s.queued, x.t), s.buffer, a, before))
  {
    assert TileFits(x, s.tiles[0]);
    if |s.tiles| == 1 { SingleStores(x, s, a, before); }
    else if |s.tiles| == 2 { PairStores(x, s, a, before); }
    else { QuadStores(x, s, a, before); }
  }

  // The output cell after one copy.
  ghost function CellAfter(x: Inputs, s: Store, a: int, before: real): (v: real)
    requires GoodStore(x, s)
    ensures StoresTiles(s.tiles, x.t, s.buffer, a, before, v)
  {
    StoreEffect(x, s, a, before);
    CopyOut.Stored(CopyOut.RecordOf(s.queued, x.t), s.buffer, a, before)
  }

  lemma TileValue(x: Inputs, s: Store, i: int, head: int, row: int, j: int)
    requires GoodStore(x, s) && 0 <= i < |s.tiles| && Covers(s.tiles[i], head, row)
    requires 0 <= row < x.t && 0 <= j < 64
    ensures
      var d := Addr(head, row, j, x.t) - TileAddr(s.tiles[i], x.t);
      0 <= d < 4096 && s.buffer[4096 * i + d] == ValueAt(x, s.tiles[i], row, j)
  {
    var tile := s.tiles[i];
    assert TileFits(x, tile) && Filled(x, tile, s.buffer, i);
    InTileRows(x, tile, head, row, j);
    var y := 64 * (row - tile.start - tile.rowStart) + j;
    assert y / 64 == row - tile.start - tile.rowStart && y % 64 == j;
    assert s.buffer[4096 * i + y]
        == TileCell(x, tile.head, tile.start, tile.chunkLen, tile.rowStart, tile.rowCount, y);
  }

  /** One copy puts the formula value at every position one of its tiles covers and leaves every other
      position alone. */
  lemma StoredCell(x: Inputs, s: Store, head: int, row: int, j: int, before: real)
    requires GoodStore(x, s) && 0 <= head && 0 <= row < x.t && 0 <= j < 64
    ensures
      var v := CellAfter(x, s, Addr(head, row, j, x.t), before);
      && (forall i :: 0 <= i < |s.tiles| && Covers(s.tiles[i], head, row) ==>
            TileFits(x, s.tiles[i]) && v == ValueAt(x, s.tiles[i], row, j))
      && ((forall i :: 0 <= i < |s.tiles| ==> !Covers(s.tiles[i], head, row)) ==> v == before)
  {
    var a := Addr(head, row, j, x.t);
    forall i | 0 <= i < |s.tiles|
      ensures TileFits(x, s.tiles[i]) && (InTile(s.tiles[i], x.t, a) <==> Covers(s.tiles[i], head, row))
      ensures Covers(s.tiles[i], head, row) ==> CellAfter(x, s, a, before) == ValueAt(x, s.tiles[i], row, j)
    {
      InTileRows(x, s.tiles[i], head, row, j);
      if Covers(s.tiles[i], head, row) { TileValue(x, s, i, head, row, j); }
    }
  }

  // ---------------------------------------------------------------- all copies of a launch

  ghost predicate GoodLog(x: Inputs, log: seq<Store>) {
    forall i :: 0 <= i < |log| ==> GoodStore(x, log[i])
  }

  // The output cell after a sequence of copies.
  ghost function Final(x: Inputs, log: seq<Store>, a: int, before: real): real
    requires GoodLog(x, log)
  {
    if log == [] then before
    else CellAfter(x, log[|log| - 1], a, Final(x, log[..|log| - 1], a, before))
  }

  predicate StoreCovers(s: Store, head: int, row: int) {
    exists k :: 0 <= k < |s.tiles| && Covers(s.tiles[k], head, row)
  }

  // Some copy of the log covers the position.
  predicate Covered(log: seq<Store>, head: int, row: int) {
    log != [] && (Covered(log[..|log| - 1], head, row) || StoreCovers(log[|log| - 1], head, row))
  }

  // The tiles of a copy that cover a position have this value there.
  ghost predicate StoreAgrees(x: Inputs, s: Store, head: int, row: int, j: int, v: real)
    requires 0 <= j
  {
    forall k :: 0 <= k < |s.tiles| && Covers(s.tiles[k], head, row) ==>
      TileFits(x, s.tiles[k]) && ValueAt(x, s.tiles[k], row, j) == v
  }

  lemma AgreedStore(x: Inputs, s: Store, head: int, row: int, j: int, before: real, v: real)
    requires GoodStore(x, s) && 0 <= head && 0 <= row < x.t && 0 <= j < 64 && StoreAgrees(x, s, head, row, j, v)
    ensures CellAfter(x, s, Addr(head, row, j, x.t), before) == if StoreCovers(s, head, row) then v else before
  {
    StoredCell(x, s, head, row, j, before);
  }

  /** Copies whose covering tiles agree leave that value, in any order; uncovered cells keep theirs. */
  lemma {:induction false} FinalCell(x: Inputs, log: seq<Store>, head: int, row: int, j: int, before: real, v: real)
    requires GoodLog(x, log) && 0 <= head && 0 <= row < x.t && 0 <= j < 64
    requires forall i :: 0 <= i < |log| ==> StoreAgrees(x, log[i], head, row, j, v)
    ensures Final(x, log, Addr(head, row, j, x.t), before) == if Covered(log, head, row) then v else before
  {
    if log != [] {
      var front := log[..|log| - 1];
      FinalCell(x, front, head, row, j, before, v);
      AgreedStore(x, log[|log| - 1], head, row, j, Final(x, front, Addr(head, row, j, x.t), before), v);
    }
  }

  predicate InLog(log: seq<Store>, tile: HeadTile) {
    exists i :: 0 <= i < |log| && tile in log[i].tiles
  }

  lemma {:induction false} CoveredByTile(log: seq<Store>, tile: HeadTile, head: int, row: int)
    requires InLog(log, tile) && Covers(tile, head, row)
    ensures Covered(log, head, row)
  {
    var i :| 0 <= i < |log| && tile in log[i].tiles;
    if i == |log| - 1 {
      var k :| 0 <= k < |log[i].tiles| && log[i].tiles[k] == tile;
    } else {
      assert log[..|log| - 1][i] == log[i];
      CoveredByTile(log[..|log| - 1], tile, head, row);
    }
  }

  lemma {:induction false} TileOfCovered(log: seq<Store>, head: int, row: int) returns (tile: HeadTile)
    requires Covered(log, head, row)
    ensures InLog(log, tile) && Covers(tile, head, row)
  {
    var front, last := log[..|log| - 1], log[|log| - 1];
    if Covered(front, head, row) {
      tile := TileOfCovered(front, head, row);
      var i :| 0 <= i < |front| && tile in front[i].tiles;
      assert log[i] == front[i];
    } else {
      var k :| 0 <= k < |last.tiles| && Covers(last.tiles[k], head, row);
      tile := last.tiles[k];
      assert tile in log[|log| - 1].tiles;
    }
  }

  // ---------------------------------------------------------------- the launch

  /** A tile some lane multiplies in some round. */
  ghost predicate KernelTile(tiling: Tiling, offsets: seq<int>, tile: HeadTile)
    requires Launch(tiling, offsets)
  {
    exists group, lane :: 0 <= group < tiling.blockDim && 0 <= lane <= 1 && LaneHasTile(tiling, offsets, group, lane, tile)
  }

  /** All copies of a launch: each carries finished tiles, and together they carry exactly the tiles the
      lanes multiply. */
  ghost predicate CompleteLog(x: Inputs, tiling: Tiling, offsets: seq<int>, log: seq<Store>)
    requires Launch(tiling, offsets)
  {
    GoodLog(x, log) && forall tile :: InLog(log, tile) <==> KernelTile(tiling, offsets, tile)
  }

  lemma {:induction false} MultiplyTiles(w: Work, round: int, n: int, tile: HeadTile)
    ensures tile in TilesOf(Multiplies(w, round, n))
       <==> tile == TileOf(w, tile.head, round) && w.firstHead <= tile.head < w.firstHead + n
    decreases n
  {
    if n > 0 { MultiplyTiles(w, round, n - 1, tile); }
  }

  // The round multiplies the tile.
  predicate RoundHasTile(w: Work, round: int, tile: HeadTile) {
    w.HasWork() && tile == TileOf(w, tile.head, round) && w.firstHead <= tile.head < w.firstHead + w.totalHeads
  }

  lemma RoundTile(w: Work, round: int, reuse: bool, tile: HeadTile)
    ensures tile in TilesOf(RoundOps(w, round, reuse)) <==> RoundHasTile(w, round, tile)
  {
    if w.HasWork() {
      var sync := [WaitReady(round % 2), LoadOf(w, round)] + Posts(round, reuse);
      NoTiles(sync);
      TilesOfConcat(sync, Multiplies(w, round, w.totalHeads));
      MultiplyTiles(w, round, w.totalHeads, tile);
    } else {
      NoTiles([WaitReady(round % 2)] + Posts(round, reuse));
    }
  }

  lemma TraceTile(a: seq<Op>, b: seq<Op>, w: Work, round: int, reuse: bool, tile: HeadTile)
    requires b == a + RoundOps(w, round, reuse)
    ensures tile in TilesOf(b) <==> tile in TilesOf(a) || RoundHasTile(w, round, tile)
  {
    TilesOfConcat(a, RoundOps(w, round, reuse));
    RoundTile(w, round, reuse, tile);
  }

  // One of the first n rounds multiplies the tile.
  predicate HasTile(works: seq<Work>, n: int, tile: HeadTile)
    requires 0 <= n <= |works|
  {
    0 <= tile.round < n && RoundHasTile(works[tile.round], tile.round, tile)
  }

  lemma HasTileStep(works: seq<Work>, n: int, tile: HeadTile)
    requires 0 < n <= |works|
    ensures HasTile(works, n, tile) <==> HasTile(works, n - 1, tile) || RoundHasTile(works[n - 1], n - 1, tile)
  {}

  lemma TraceTileStep(works: seq<Work>, n: int, tile: HeadTile)
    requires 0 < n <= |works|
    ensures tile in TilesOf(WorksTrace(works, n))
       <==> tile in TilesOf(WorksTrace(works, n - 1)) || RoundHasTile(works[n - 1], n - 1, tile)
  {
    TraceTile(WorksTrace(works, n - 1), WorksTrace(works, n), works[n - 1], n - 1, n + 1 < |works|, tile);
  }

  // The tiles of a trace are those of its rounds.
  lemma {:induction false} TraceTiles(works: seq<Work>, n: int, tile: HeadTile)
    requires 0 <= n <= |works|
    ensures tile in TilesOf(WorksTrace(works, n)) <==> HasTile(works, n, tile)
    decreases n
  {
    if n == 0 {
      assert tile !in TilesOf(WorksTrace(works, 0));
    } else {
      TraceTiles(works, n - 1, tile);
      TraceTileStep(works, n, tile);
      HasTileStep(works, n, tile);
      assert tile in TilesOf(WorksTrace(works, n)) <==> HasTile(works, n, tile);
    }
  }

  // The tile belongs to one of the lane's scheduled rounds.
  predicate LaneHasTile(tiling: Tiling, offsets: seq<int>, group: int, lane: int, tile: HeadTile)
    requires Launch(tiling, offsets) && 0 <= group < tiling.blockDim && 0 <= lane
  {
    0 <= tile.round < TaskCount(tiling, offsets, group)
    && RoundHasTile(RoundWork(tiling, offsets, group, lane, tile.round), tile.round, tile)
  }

  /** The tiles of a lane's run are those of its scheduled rounds. */
  lemma LaneTiles(tiling: Tiling, offsets: seq<int>, group: int, lane: int, tile: HeadTile)
    requires Launch(tiling, offsets) && 0 <= group < tiling.blockDim && 0 <= lane
    ensures tile in TilesOf(LaneTrace(tiling, offsets, group, lane)) <==> LaneHasTile(tiling, offsets, group, lane, tile)
  {
    var works := LaneWorks(tiling, offsets, group, lane);
    TraceTiles(works, |works|, tile);
  }

  // A lane's tile covering a position is its chunk.
  lemma LaneTileAt(tiling: Tiling, offsets: seq<int>, group: int, lane: int, tile: HeadTile, head: int, row: int)
    requires Launch(tiling, offsets) && 0 <= group < tiling.blockDim && 0 <= lane <= 1 && head >= 0
    requires LaneHasTile(tiling, offsets, group, lane, tile) && Covers(tile, head, row)
    ensures
      var chunk := Task(tiling, offsets, group, tile.round) / tiling.hg;
      && InChunk(offsets, chunk, row) && ValidChunk(offsets[chunk], offsets[chunk + 1], tiling.t)
      && tile.start == offsets[chunk] && tile.chunkLen == offsets[chunk + 1] - offsets[chunk]
  {
    WritesInChunk(tiling, offsets, group, lane, tile.round, head, row);
  }

  // A kernel tile covering a position: its round writes it, and the tile is its chunk.
  lemma KernelTileAt(tiling: Tiling, offsets: seq<int>, tile: HeadTile, head: int, row: int) returns (chunk: int)
    requires Launch(tiling, offsets) && KernelTile(tiling, offsets, tile) && Covers(tile, head, row) && head >= 0
    ensures InChunk(offsets, chunk, row) && ValidChunk(offsets[chunk], offsets[chunk + 1], tiling.t)
    ensures tile.start == offsets[chunk] && tile.chunkLen == offsets[chunk + 1] - offsets[chunk]
  {
    var group, lane :| 0 <= group < tiling.blockDim && 0 <= lane <= 1 && LaneHasTile(tiling, offsets, group, lane, tile);
    LaneTileAt(tiling, offsets, group, lane, tile, head, row);
    chunk := Task(tiling, offsets, group, tile.round) / tiling.hg;
  }

  lemma KernelTileIn(tiling: Tiling, offsets: seq<int>, tile: HeadTile, head: int, row: int, chunk: int)
    requires Launch(tiling, offsets) && KernelTile(tiling, offsets, tile) && Covers(tile, head, row) && head >= 0
    requires NonDecreasing(offsets) && InChunk(offsets, chunk, row)
    ensures ValidChunk(offsets[chunk], offsets[chunk + 1], tiling.t)
    ensures tile.start == offsets[chunk] && tile.chunkLen == offsets[chunk + 1] - offsets[chunk]
  {
    var c := KernelTileAt(tiling, offsets, tile, head, row);
    ChunkUnique(offsets, c, chunk, row);
  }

  // The owner's tile of a position of a valid chunk.
  lemma OwnerTile(tiling: Tiling, offsets: seq<int>, head: int, row: int, chunk: int) returns (tile: HeadTile)
    requires Launch(tiling, offsets) && InChunk(offsets, chunk, row) && 0 <= head < tiling.hg * tiling.numRepeat
    requires ValidChunk(offsets[chunk], offsets[chunk + 1], tiling.t)
    ensures KernelTile(tiling, offsets, tile) && Covers(tile, head, row)
  {
    OwnerWrites(tiling, offsets, head, row, chunk);
    var (group, round) := Owner(tiling, offsets, chunk, head);
    var lane := LaneFor(tiling.numRepeat, head, row - offsets[chunk]);
    tile := TileOf(RoundWork(tiling, offsets, group, lane, round), head, round);
    assert LaneHasTile(tiling, offsets, group, lane, tile);
  }

  // A kernel tile carries, at a position it covers, the value of the position's chunk.
  lemma KernelTileValue(x: Inputs, tiling: Tiling, offsets: seq<int>, tile: HeadTile, head: int, row: int, j: int, chunk: int)
    requires Launch(tiling, offsets) && Matches(x, tiling) && NonDecreasing(offsets)
    requires TileFits(x, tile) && KernelTile(tiling, offsets, tile) && Covers(tile, head, row)
    requires InChunk(offsets, chunk, row) && 0 <= head < Heads(x) && 0 <= j < 64
    ensures ValidChunk(offsets[chunk], offsets[chunk + 1], tiling.t)
    ensures ValueAt(x, tile, row, j)
         == Formula(x, head, offsets[chunk], offsets[chunk + 1], row - offsets[chunk], j)
  {
    KernelTileIn(tiling, offsets, tile, head, row, chunk);
    ValueOfChunk(x, tile, row, j, offsets[chunk], offsets[chunk + 1]);
  }

  lemma ValueOfChunk(x: Inputs, tile: HeadTile, row: int, j: int, start: int, end: int)
    requires TileFits(x, tile) && Covers(tile, tile.head, row) && 0 <= j
    requires tile.start == start && tile.chunkLen == end - start
    ensures ValueAt(x, tile, row, j) == Formula(x, tile.head, start, end, row - start, j)
  {
    assert tile.start + tile.chunkLen == end;
  }

  lemma KernelStoreAgrees(x: Inputs, tiling: Tiling, offsets: seq<int>, s: Store, head: int, row: int, j: int, chunk: int)
    requires Launch(tiling, offsets) && Matches(x, tiling) && NonDecreasing(offsets)
    requires GoodStore(x, s) && forall k :: 0 <= k < |s.tiles| ==> KernelTile(tiling, offsets, s.tiles[k])
    requires InChunk(offsets, chunk, row) && ValidChunk(offsets[chunk], offsets[chunk + 1], tiling.t)
    requires 0 <= head < Heads(x) && 0 <= j < 64
    ensures StoreAgrees(x, s, head, row, j,
                        Formula(x, head, offsets[chunk], offsets[chunk + 1], row - offsets[chunk], j))
  {
    var v := Formula(x, head, offsets[chunk], offsets[chunk + 1], row - offsets[chunk], j);
    forall k | 0 <= k < |s.tiles| && Covers(s.tiles[k], head, row)
      ensures TileFits(x, s.tiles[k]) && ValueAt(x, s.tiles[k], row, j) == v
    {
      KernelTileValue(x, tiling, offsets, s.tiles[k], head, row, j, chunk);
    }
  }

  lemma LogAgrees(x: Inputs, tiling: Tiling, offsets: seq<int>, log: seq<Store>, head: int, row: int, j: int, chunk: int)
    requires Launch(tiling, offsets) && Matches(x, tiling) && NonDecreasing(offsets)
    requires CompleteLog(x, tiling, offsets, log) && InChunk(offsets, chunk, row)
    requires ValidChunk(offsets[chunk], offsets[chunk + 1], tiling.t) && 0 <= head < Heads(x) && 0 <= j < 64
    ensures forall i :: 0 <= i < |log| ==>
      StoreAgrees(x, log[i], head, row, j,
                  Formula(x, head, offsets[chunk], offsets[chunk + 1], row - offsets[chunk], j))
  {
    forall i | 0 <= i < |log|
      ensures StoreAgrees(x, log[i], head, row, j,
                          Formula(x, head, offsets[chunk], offsets[chunk + 1], row - offsets[chunk], j))
    {
      forall k | 0 <= k < |log[i].tiles|
        ensures KernelTile(tiling, offsets, log[i].tiles[k])
      {
        assert InLog(log, log[i].tiles[k]);
      }
      KernelStoreAgrees(x, tiling, offsets, log[i], head, row, j, chunk);
    }
  }

  /** The output of a launch: with nondecreasing offsets, every position of a valid chunk holds the
      formula, whatever the order of the copies, and every other position keeps its contents. */
  lemma KernelOutput(x: Inputs, tiling: Tiling, offsets: seq<int>, log: seq<Store>, head: int, row: int, j: int,
                     before: real, chunk: int)
    requires Launch(tiling, offsets) && Matches(x, tiling) && NonDecreasing(offsets)
    requires CompleteLog(x, tiling, offsets, log) && InChunk(offsets, chunk, row)
    requires 0 <= head < Heads(x) && 0 <= row < x.t && 0 <= j < 64
    ensures Final(x, log, Addr(head, row, j, x.t), before)
         == if ValidChunk(offsets[chunk], offsets[chunk + 1], tiling.t)
            then Formula(x, head, offsets[chunk], offsets[chunk + 1], row - offsets[chunk], j)
            else before
  {
    if ValidChunk(offsets[chunk], offsets[chunk + 1], tiling.t) {
      LogAgrees(x, tiling, offsets, log, head, row, j, chunk);
      FinalCell(x, log, head, row, j, before,
                Formula(x, head, offsets[chunk], offsets[chunk + 1], row - offsets[chunk], j));
      var tile := OwnerTile(tiling, offsets, head, row, chunk);
      CoveredByTile(log, tile, head, row);
    } else {
      forall c | InChunk(offsets, c, row)
        ensures !ValidChunk(offsets[c], offsets[c + 1], tiling.t)
      {
        ChunkUnique(offsets, c, chunk, row);
      }
      Untouched(x, tiling, offsets, log, head, row, j, before);
    }
  }

  /** Rows of no valid chunk keep their contents, even when the offsets are not monotone. */
  lemma Untouched(x: Inputs, tiling: Tiling, offsets: seq<int>, log: seq<Store>, head: int, row: int, j: int, before: real)
    requires Launch(tiling, offsets) && Matches(x, tiling) && CompleteLog(x, tiling, offsets, log)
    requires forall c :: InChunk(offsets, c, row) ==> !ValidChunk(offsets[c], offsets[c + 1], tiling.t)
    requires 0 <= head < Heads(x) && 0 <= row < x.t && 0 <= j < 64
    ensures Final(x, log, Addr(head, row, j, x.t), before) == before
  {
    forall i, k | 0 <= i < |log| && 0 <= k < |log[i].tiles|
      ensures !Covers(log[i].tiles[k], head, row)
    {
      assert InLog(log, log[i].tiles[k]);
      if Covers(log[i].tiles[k], head, row) {
        var c := KernelTileAt(tiling, offsets, log[i].tiles[k], head, row);
      }
    }
    FinalCell(x, log, head, row, j, before, before);
    if Covered(log, head, row) {
      var tile := TileOfCovered(log, head, row);
      var c := KernelTileAt(tiling, offsets, tile, head, row);
    }
  }

  // ---------------------------------------------------------------- any order of the copies

  lemma InLogOf(log: seq<Store>, tile: HeadTile)
    ensures InLog(log, tile) <==> exists s :: s in multiset(log) && tile in s.tiles
  {
    if i :| 0 <= i < |log| && tile in log[i].tiles { assert log[i] in multiset(log); }
    if s :| s in multiset(log) && tile in s.tiles {
      var i :| 0 <= i < |log| && log[i] == s;
    }
  }

  /** Performing the copies of a complete log in another order is still a complete log. */
  lemma Reordered(x: Inputs, tiling: Tiling, offsets: seq<int>, log: seq<Store>, order: seq<Store>)
    requires Launch(tiling, offsets) && CompleteLog(x, tiling, offsets, log) && multiset(order) == multiset(log)
    ensures CompleteLog(x, tiling, offsets, order)
  {
    forall i | 0 <= i < |order|
      ensures GoodStore(x, order[i])
    {
      assert order[i] in multiset(log);
      var k :| 0 <= k < |log| && log[k] == order[i];
    }
    forall tile
      ensures InLog(order, tile) <==> KernelTile(tiling, offsets, tile)
    {
      InLogOf(log, tile);
      InLogOf(order, tile);
    }
  }

  // ---------------------------------------------------------------- from the lanes to the copies

  lemma AccountedTile(bs: seq<VectorLane.Out>, ops: seq<Op>, tile: HeadTile)
    requires VectorLane.Accounted(bs, ops)
    ensures tile in VectorLane.AllTiles(bs) <==> tile in TilesOf(ops)
  {
    var a, b := multiset(VectorLane.AllTiles(bs)), multiset(TilesOf(ops));
    assert a[tile] == b[tile];
    assert tile in a <==> tile in VectorLane.AllTiles(bs);
    assert tile in b <==> tile in TilesOf(ops);
  }

  // A lane that ran its schedule handed over exactly its rounds' tiles.
  lemma HandedTile(tiling: Tiling, offsets: seq<int>, group: int, lane: int, bs: seq<VectorLane.Out>, tile: HeadTile)
    requires Launch(tiling, offsets) && 0 <= group < tiling.blockDim && 0 <= lane <= 1
    requires VectorLane.Accounted(bs, LaneTrace(tiling, offsets, group, lane))
    ensures tile in VectorLane.AllTiles(bs) <==> LaneHasTile(tiling, offsets, group, lane, tile)
  {
    AccountedTile(bs, LaneTrace(tiling, offsets, group, lane), tile);
    LaneTiles(tiling, offsets, group, lane, tile);
  }

  // How often a tile is multiplied.
  ghost function Times(ops: seq<Op>, tile: HeadTile): nat {
    multiset(TilesOf(ops))[tile]
  }

  lemma TimesConcat(a: seq<Op>, b: seq<Op>, tile: HeadTile)
    ensures Times(a + b, tile) == Times(a, tile) + Times(b, tile)
    ensures Times(a, tile) > 0 <==> tile in TilesOf(a)
  {
    TilesOfConcat(a, b);
    assert tile in multiset(TilesOf(a)) <==> tile in TilesOf(a);
  }

  lemma TimesOne(x: HeadTile, tile: HeadTile)
    ensures Times([Multiply(x)], tile) == if tile == x then 1 else 0
  {
    assert [Multiply(x)][..0] == [];
    assert TilesOf([Multiply(x)]) == [x];
  }

  lemma TimesNone(ops: seq<Op>, tile: HeadTile)
    requires forall i :: 0 <= i < |ops| ==> !ops[i].Multiply?
    ensures Times(ops, tile) == 0
  {
    NoTiles(ops);
  }

  lemma NextMultiplyOnce(w: Work, round: int, n: int, tile: HeadTile)
    requires n > 0 && Times(Multiplies(w, round, n - 1), tile) <= 1
    ensures Times(Multiplies(w, round, n), tile) <= 1
  {
    MultiplyTiles(w, round, n - 1, tile);
    TimesConcat(Multiplies(w, round, n - 1), [Multiply(TileOf(w, w.firstHead + n - 1, round))], tile);
    TimesOne(TileOf(w, w.firstHead + n - 1, round), tile);
  }

  lemma {:induction false} MultiplyOnce(w: Work, round: int, n: int, tile: HeadTile)
    ensures Times(Multiplies(w, round, n), tile) <= 1
    decreases n
  {
    if n <= 0 {
      TimesNone([], tile);
      assert Times(Multiplies(w, round, n), tile) <= 1;
    } else {
      MultiplyOnce(w, round, n - 1, tile);
      NextMultiplyOnce(w, round, n, tile);
      assert Times(Multiplies(w, round, n), tile) <= 1;
    }
  }

  lemma WorkOnce(w: Work, round: int, reuse: bool, tile: HeadTile)
    requires w.HasWork()
    ensures Times(RoundOps(w, round, reuse), tile) <= 1
  {
    var sync := [WaitReady(round % 2), LoadOf(w, round)] + Posts(round, reuse);
    TimesNone(sync, tile);
    TimesConcat(sync, Multiplies(w, round, w.totalHeads), tile);
    MultiplyOnce(w, round, w.totalHeads, tile);
    assert RoundOps(w, round, reuse) == sync + Multiplies(w, round, w.totalHeads);
  }

  function One(b: bool): nat { if b then 1 else 0 }

  lemma RoundTimes(w: Work, round: int, reuse: bool, tile: HeadTile)
    ensures Times(RoundOps(w, round, reuse), tile) == One(RoundHasTile(w, round, tile))
  {
    TimesConcat(RoundOps(w, round, reuse), [], tile);
    RoundTile(w, round, reuse, tile);
    if w.HasWork() {
      WorkOnce(w, round, reuse, tile);
    } else {
      TimesNone([WaitReady(round % 2)] + Posts(round, reuse), tile);
    }
  }

  lemma TimesAppend(a: seq<Op>, b: seq<Op>, w: Work, round: int, reuse: bool, tile: HeadTile)
    requires b == a + RoundOps(w, round, reuse)
    ensures Times(b, tile) == Times(a, tile) + One(RoundHasTile(w, round, tile))
  {
    TimesConcat(a, RoundOps(w, round, reuse), tile);
    RoundTimes(w, round, reuse, tile);
  }

  lemma TimesStep(works: seq<Work>, n: int, tile: HeadTile)
    requires 0 < n <= |works|
    ensures Times(WorksTrace(works, n), tile)
         == Times(WorksTrace(works, n - 1), tile) + One(RoundHasTile(works[n - 1], n - 1, tile))
  {
    TimesAppend(WorksTrace(works, n - 1), WorksTrace(works, n), works[n - 1], n - 1, n + 1 < |works|, tile);
  }

  lemma HasTileOnce(works: seq<Work>, n: int, tile: HeadTile)
    requires 0 < n <= |works|
    ensures One(HasTile(works, n, tile))
         == One(HasTile(works, n - 1, tile)) + One(RoundHasTile(works[n - 1], n - 1, tile))
  {}

  lemma {:induction false} TraceTimes(works: seq<Work>, n: int, tile: HeadTile)
    requires 0 <= n <= |works|
    ensures Times(WorksTrace(works, n), tile) == One(HasTile(works, n, tile))
    decreases n
  {
    if n == 0 {
      TimesNone([], tile);
      assert WorksTrace(works, n) == [];
    } else {
      TraceTimes(works, n - 1, tile);
      TimesStep(works, n, tile);
      HasTileOnce(works, n, tile);
      assert Times(WorksTrace(works, n), tile) == One(HasTile(works, n, tile));
    }
  }

  /** A lane produces each of its tiles exactly once. */
  lemma LaneTilesOnce(tiling: Tiling, offsets: seq<int>, group: int, lane: int, tile: HeadTile)
    requires Launch(tiling, offsets) && 0 <= group < tiling.blockDim && 0 <= lane
    ensures Times(LaneTrace(tiling, offsets, group, lane), tile) == One(LaneHasTile(tiling, offsets, group, lane, tile))
  {
    var works := LaneWorks(tiling, offsets, group, lane);
    TraceTimes(works, |works|, tile);
  }
}
