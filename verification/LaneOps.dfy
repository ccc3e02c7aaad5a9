/** What a vector lane does in one round, as the sequence of operations other pipes and cores can see,
    and the tiles it produces. */
module LaneOps {
  import opened Schedule
  import CopyOut

  /** One head's rows of one task: the tile written to the output. */
  datatype HeadTile = HeadTile(head: int, start: int, chunkLen: int, rowStart: int, rowCount: int, round: int)

  datatype Op =
    | WaitReady(slot: int)
    | LoadTile(slot: int, chunkLen: int, rowStart: int, rowCount: int)
    | PostFree(slot: int)
    | Multiply(tile: HeadTile)

  // A (chunk, KV head) task as one lane sees it.
  datatype Work = Work(valid: bool, start: int, chunkLen: int, rowStart: int, rowCount: int,
                       firstHead: int, totalHeads: int)
  {
    predicate HasWork() { valid && rowCount > 0 && totalHeads > 0 }
  }

  predicate ValidChunk(start: int, end: int, t: int) {
    start >= 0 && end <= t && end - start > 0 && end - start <= 64
  }

  // Heads of a KV group that a lane owns, as offsets [first, end).
  function FirstRepeat(numRepeat: int, lane: int): int
    requires numRepeat >= 1 && 0 <= lane
  {
    if numRepeat >= 2 then lane * numRepeat / 2 else 0
  }

  function RepeatEnd(numRepeat: int, lane: int): int
    requires numRepeat >= 1 && 0 <= lane
  {
    if numRepeat >= 2 then (lane + 1) * numRepeat / 2 else 1
  }

  function Min(a: int, b: int): int { if a < b then a else b }

  function RowStart(numRepeat: int, lane: int): int { if numRepeat >= 2 then 0 else lane * 32 }

  function RowCount(numRepeat: int, lane: int, chunkLen: int): int {
    if numRepeat >= 2 then chunkLen
    else if Min(32, chunkLen - lane * 32) < 0 then 0
    else Min(32, chunkLen - lane * 32)
  }

  function WorkOn(start: int, end: int, t: int, numRepeat: int, kvHead: int, lane: int): Work
    requires numRepeat >= 1 && 0 <= lane
  {
    if !ValidChunk(start, end, t) then Work(false, start, end - start, 0, 0, 0, 0)
    else
      Work(true, start, end - start, RowStart(numRepeat, lane), RowCount(numRepeat, lane, end - start),
           kvHead * numRepeat + FirstRepeat(numRepeat, lane),
           RepeatEnd(numRepeat, lane) - FirstRepeat(numRepeat, lane))
  }

  /** The launch: tiling plus chunk offsets. */
  predicate Launch(tiling: Tiling, offsets: seq<int>) {
    && tiling.numRepeat >= 1 && tiling.totalTaskCount >= 1
    && Schedulable(tiling.totalTaskCount, tiling.hg, tiling.blockDim, ModeOf(tiling))
    && |offsets| == tiling.totalTaskCount / tiling.hg + 1
  }

  function TaskWork(tiling: Tiling, offsets: seq<int>, task: int, lane: int): Work
    requires Launch(tiling, offsets) && 0 <= task < tiling.totalTaskCount && 0 <= lane
  {
    TaskParts(task, tiling.totalTaskCount, tiling.hg);
    var chunk := task / tiling.hg;
    WorkOn(offsets[chunk], offsets[chunk + 1], tiling.t, tiling.numRepeat, task % tiling.hg, lane)
  }

  function TileOf(w: Work, head: int, round: int): HeadTile {
    HeadTile(head, w.start, w.chunkLen, w.rowStart, w.rowCount, round)
  }

  // The first n heads of the task, multiplied in order.
  function Multiplies(w: Work, round: int, n: int): seq<Op>
    decreases n
  {
    if n <= 0 then [] else Multiplies(w, round, n - 1) + [Multiply(TileOf(w, w.firstHead + n - 1, round))]
  }

  function Posts(round: int, reuse: bool): seq<Op> { if reuse then [PostFree(round % 2)] else [] }

  function LoadOf(w: Work, round: int): Op { LoadTile(round % 2, w.chunkLen, w.rowStart, w.rowCount) }

  /** One round of one lane. */
  function RoundOps(w: Work, round: int, reuse: bool): seq<Op> {
    if w.HasWork() then
      [WaitReady(round % 2), LoadOf(w, round)] + Posts(round, reuse) + Multiplies(w, round, w.totalHeads)
    else [WaitReady(round % 2)] + Posts(round, reuse)
  }

  lemma {:induction false} MultipliesInOrder(w: Work, round: int, n: int)
    requires n >= 0
    ensures |Multiplies(w, round, n)| == n
    ensures forall i :: 0 <= i < n ==>
      Multiplies(w, round, n)[i] == Multiply(HeadTile(w.firstHead + i, w.start, w.chunkLen, w.rowStart, w.rowCount, round))
    decreases n
  {
    if n > 0 { MultipliesInOrder(w, round, n - 1); }
  }

  /** The order of a working round: wait for the slot, copy its tile, give the slot back as soon as it is
      copied if a round still needs it, then multiply the heads one after the other. */
  lemma RoundInOrder(w: Work, round: int, reuse: bool)
    requires w.HasWork()
    ensures
      var ops, first := RoundOps(w, round, reuse), if reuse then 3 else 2;
      && |ops| == first + w.totalHeads
      && ops[0] == WaitReady(round % 2) && ops[1] == LoadTile(round % 2, w.chunkLen, w.rowStart, w.rowCount)
      && (reuse ==> ops[2] == PostFree(round % 2))
      && forall i :: first <= i < |ops| ==>
           ops[i] == Multiply(HeadTile(w.firstHead + i - first, w.start, w.chunkLen, w.rowStart, w.rowCount, round))
  {
    MultipliesInOrder(w, round, w.totalHeads);
    assert RoundOps(w, round, reuse)
        == [WaitReady(round % 2), LoadOf(w, round)] + Posts(round, reuse) + Multiplies(w, round, w.totalHeads);
  }

  function TaskCount(tiling: Tiling, offsets: seq<int>, group: int): nat
    requires Launch(tiling, offsets) && 0 <= group < tiling.blockDim
  {
    CountNatural(group, tiling.totalTaskCount, tiling.hg, tiling.blockDim, ModeOf(tiling));
    ScheduledTaskCount(group, tiling.totalTaskCount, tiling.hg, tiling.blockDim, ModeOf(tiling))
  }

  function Task(tiling: Tiling, offsets: seq<int>, group: int, round: int): int
    requires Launch(tiling, offsets) && 0 <= group < tiling.blockDim
    requires 0 <= round < TaskCount(tiling, offsets, group)
    ensures 0 <= Task(tiling, offsets, group, round) < tiling.totalTaskCount
  {
    ScheduledTaskOwned(group, round, tiling.totalTaskCount, tiling.hg, tiling.blockDim, ModeOf(tiling));
    ScheduledTaskId(group, round, tiling.totalTaskCount, tiling.hg, tiling.blockDim, ModeOf(tiling))
  }

  function RoundWork(tiling: Tiling, offsets: seq<int>, group: int, lane: int, round: int): Work
    requires Launch(tiling, offsets) && 0 <= group < tiling.blockDim && 0 <= lane
    requires 0 <= round < TaskCount(tiling, offsets, group)
  {
    TaskWork(tiling, offsets, Task(tiling, offsets, group, round), lane)
  }

  /** The first n of a sequence of rounds; a slot is reused when two more rounds follow. */
  function WorksTrace(works: seq<Work>, n: int): seq<Op>
    requires 0 <= n <= |works|
    decreases n
  {
    if n == 0 then [] else WorksTrace(works, n - 1) + RoundOps(works[n - 1], n - 1, n + 1 < |works|)
  }

  // A lane's rounds, round r on the task the cube core computes by division.
  function LaneWorks(tiling: Tiling, offsets: seq<int>, group: int, lane: int): (works: seq<Work>)
    requires Launch(tiling, offsets) && 0 <= group < tiling.blockDim && 0 <= lane
    ensures |works| == TaskCount(tiling, offsets, group)
    ensures forall r :: 0 <= r < |works| ==> works[r] == RoundWork(tiling, offsets, group, lane, r)
  {
    seq(TaskCount(tiling, offsets, group),
        r requires 0 <= r < TaskCount(tiling, offsets, group) => RoundWork(tiling, offsets, group, lane, r))
  }

  // A lane's rounds on the cyclic schedule, whatever schedule the launch would select.
  function CyclicWorks(tiling: Tiling, offsets: seq<int>, group: int, lane: int): (works: seq<Work>)
    requires Launch(tiling, offsets) && 0 <= group < tiling.blockDim && 0 <= lane
  {
    var count := ScheduledTaskCount(group, tiling.totalTaskCount, tiling.hg, tiling.blockDim, Cyclic);
    CountNatural(group, tiling.totalTaskCount, tiling.hg, tiling.blockDim, Cyclic);
    seq(count, r requires 0 <= r < count =>
      CyclicInside(tiling, offsets, group, r);
      TaskWork(tiling, offsets, group + r * tiling.blockDim, lane))
  }

  lemma CyclicInside(tiling: Tiling, offsets: seq<int>, group: int, r: int)
    requires Launch(tiling, offsets) && 0 <= group < tiling.blockDim
    requires 0 <= r < ScheduledTaskCount(group, tiling.totalTaskCount, tiling.hg, tiling.blockDim, Cyclic)
    ensures 0 <= group + r * tiling.blockDim < tiling.totalTaskCount
  {
    CyclicTask(group, r, tiling.totalTaskCount, tiling.blockDim);
    assert r * tiling.blockDim >= 0;
  }

  /** The cyclic walk: while its task id is below the total, it is the id of the next round, and its
      reuse test in task ids is the round test. */
  lemma CyclicWalk(tiling: Tiling, offsets: seq<int>, group: int, lane: int, works: seq<Work>, n: int)
    requires Launch(tiling, offsets) && 0 <= group < tiling.blockDim && 0 <= n && 0 <= lane
    requires works == CyclicWorks(tiling, offsets, group, lane)
    ensures 0 <= group + n * tiling.blockDim
    ensures n < |works| <==> group + n * tiling.blockDim < tiling.totalTaskCount
    ensures n < |works| ==> works[n] == TaskWork(tiling, offsets, group + n * tiling.blockDim, lane)
    ensures n + 2 < |works| <==> group + n * tiling.blockDim + 2 * tiling.blockDim < tiling.totalTaskCount
    ensures group + (n + 1) * tiling.blockDim == group + n * tiling.blockDim + tiling.blockDim
  {
    CyclicIds(group, n, |works|, tiling.totalTaskCount, tiling.hg, tiling.blockDim);
    if n < |works| { CyclicInside(tiling, offsets, group, n); }
  }

  lemma CyclicIds(group: int, n: int, count: int, total: int, hg: int, blockDim: int)
    requires Schedulable(total, hg, blockDim, Cyclic) && 0 <= group < blockDim && 0 <= n
    requires count == ScheduledTaskCount(group, total, hg, blockDim, Cyclic)
    ensures 0 <= group + n * blockDim
    ensures n < count <==> group + n * blockDim < total
    ensures n + 2 < count <==> group + n * blockDim + 2 * blockDim < total
    ensures group + (n + 1) * blockDim == group + n * blockDim + blockDim
  {
    CyclicTask(group, n, total, blockDim);
    CyclicReuse(group, n, total, hg, blockDim);
    assert n * blockDim >= 0;
    assert (n + 1) * blockDim == n * blockDim + blockDim;
  }

  lemma CyclicIsLane(tiling: Tiling, offsets: seq<int>, group: int, lane: int)
    requires Launch(tiling, offsets) && ModeOf(tiling) == Cyclic && 0 <= group < tiling.blockDim && 0 <= lane
    ensures CyclicWorks(tiling, offsets, group, lane) == LaneWorks(tiling, offsets, group, lane)
  {
    var a, b := CyclicWorks(tiling, offsets, group, lane), LaneWorks(tiling, offsets, group, lane);
    forall r | 0 <= r < |a|
      ensures a[r] == b[r]
    {
      CyclicInside(tiling, offsets, group, r);
    }
  }

  /** A lane's whole run. */
  function LaneTrace(tiling: Tiling, offsets: seq<int>, group: int, lane: int): seq<Op>
    requires Launch(tiling, offsets) && 0 <= group < tiling.blockDim && 0 <= lane
  {
    var works := LaneWorks(tiling, offsets, group, lane);
    WorksTrace(works, |works|)
  }

  // ---------------------------------------------------------------- tiles and output batches

  function TilesOf(ops: seq<Op>): seq<HeadTile> {
    if ops == [] then []
    else TilesOf(ops[..|ops| - 1]) + (if ops[|ops| - 1].Multiply? then [ops[|ops| - 1].tile] else [])
  }

  lemma {:induction false} TilesOfConcat(a: seq<Op>, b: seq<Op>)
    ensures TilesOf(a + b) == TilesOf(a) + TilesOf(b)
  {
    if b == [] {
      assert a + b == a;
    } else {
      var c := b[..|b| - 1];
      assert (a + b)[..|a + b| - 1] == a + c;
      TilesOfConcat(a, c);
    }
  }

  lemma {:induction false} NoTiles(ops: seq<Op>)
    requires forall i :: 0 <= i < |ops| ==> !ops[i].Multiply?
    ensures TilesOf(ops) == []
  {
    if ops != [] { NoTiles(ops[..|ops| - 1]); }
  }

  function MultipliesOf(tiles: seq<HeadTile>): seq<Op> {
    seq(|tiles|, i requires 0 <= i < |tiles| => Multiply(tiles[i]))
  }

  lemma {:induction false} TilesBack(tiles: seq<HeadTile>)
    ensures TilesOf(MultipliesOf(tiles)) == tiles
  {
    if tiles != [] {
      var front := tiles[..|tiles| - 1];
      assert MultipliesOf(tiles)[..|tiles| - 1] == MultipliesOf(front);
      TilesBack(front);
    }
  }

  predicate FullTile(x: HeadTile) { x.chunkLen == 64 && x.rowStart == 0 && x.rowCount == 64 }

  // Two tiles of one task, next to each other in the buffer.
  predicate HeadPair(x: HeadTile, y: HeadTile) {
    x.rowStart == 0 && y == x.(head := x.head + 1)
  }

  // Two full tiles of one head on adjacent chunks and consecutive rounds.
  predicate ChunkPair(x: HeadTile, y: HeadTile) {
    FullTile(x) && y == x.(start := x.start + 64, round := x.round + 1)
  }

  /** A batch's copy record fits the tiles its buffer holds, in buffer order. */
  predicate Made(q: CopyOut.Queued, tiles: seq<HeadTile>) {
    || (|tiles| == 1
        && q == CopyOut.QueuedSingle(tiles[0].head, tiles[0].start, tiles[0].rowStart, tiles[0].rowCount))
    || (|tiles| == 2 && HeadPair(tiles[0], tiles[1])
        && q == CopyOut.QueuedPair(tiles[0].head, tiles[0].start, tiles[0].rowCount * 64))
    || (|tiles| == 2 && ChunkPair(tiles[0], tiles[1])
        && q == CopyOut.QueuedChunkPair(tiles[0].head, tiles[0].start, 1))
    || (|tiles| == 4 && ChunkPair(tiles[0], tiles[1]) && HeadPair(tiles[0], tiles[2]) && HeadPair(tiles[1], tiles[3])
        && q == CopyOut.QueuedChunkPair(tiles[0].head, tiles[0].start, 2))
  }
}
