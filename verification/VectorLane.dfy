/** The vector stage of one lane: the schedule walkers, the task pipeline, the gate/beta prefetch queues
    and the output ring, as methods that append to the lane's operation trace. */
module VectorLane {
  import opened Schedule
  import opened LaneOps
  import opened OutputRing
  import CopyOut

  // One prefetched batch: the gates (or betas) of up to two consecutive heads of a chunk.
  datatype GateBatch = GateBatch(firstHead: int, start: int, chunkLen: int, heads: int)

  /** A two-buffer VECIN queue: loads enqueued and not yet taken, and buffers taken and not yet freed. */
  datatype GateQueue = GateQueue(enqueued: seq<GateBatch>, taken: nat) {
    predicate HasBuffer() { |enqueued| + taken < 2 }

    // AllocTensor, copy, EnQue.
    function EnQue(batch: GateBatch): GateQueue
      requires HasBuffer()
    {
      this.(enqueued := enqueued + [batch])
    }

    function DeQue(): GateQueue
      requires enqueued != []
    {
      GateQueue(enqueued[1..], taken + 1)
    }

    function FreeTensor(): GateQueue
      requires taken > 0
    {
      this.(taken := taken - 1)
    }
  }

  type Tiles = seq<HeadTile>
  type Out = Batch<CopyOut.Queued, Tiles>

  function AllTiles(bs: seq<Out>): seq<HeadTile> {
    if bs == [] then [] else AllTiles(bs[..|bs| - 1]) + bs[|bs| - 1].data
  }

  lemma {:induction false} AllTilesConcat(a: seq<Out>, b: seq<Out>)
    ensures AllTiles(a + b) == AllTiles(a) + AllTiles(b)
  {
    if b == [] {
      assert a + b == a;
    } else {
      var c := b[..|b| - 1];
      assert (a + b)[..|a + b| - 1] == a + c;
      AllTilesConcat(a, c);
    }
  }

  ghost predicate AllMade(bs: seq<Out>) {
    forall i :: 0 <= i < |bs| ==> Made(bs[i].record, bs[i].data)
  }

  /** The output batches hold exactly the tiles the trace multiplies, under fitting copy records. */
  ghost predicate Accounted(bs: seq<Out>, ops: seq<Op>) {
    (forall x :: multiset(AllTiles(bs))[x] == multiset(TilesOf(ops))[x]) && AllMade(bs)
  }

  lemma AccountConcat(bs: seq<Out>, ops: seq<Op>, bs': seq<Out>, ops': seq<Op>)
    requires Accounted(bs, ops) && Accounted(bs', ops')
    ensures Accounted(bs + bs', ops + ops')
  {
    AllTilesConcat(bs, bs');
    TilesOfConcat(ops, ops');
  }

  lemma AccountSync(ops: seq<Op>)
    requires forall i :: 0 <= i < |ops| ==> !ops[i].Multiply?
    ensures Accounted([], ops)
  {
    NoTiles(ops);
  }

  // The b-th batch of a task: two heads while there are two.
  function BatchHeads(w: Work, b: int): int { Min(2, w.totalHeads - 2 * b) }

  function BatchAt(w: Work, b: int): GateBatch {
    GateBatch(w.firstHead + 2 * b, w.start, w.chunkLen, BatchHeads(w, b))
  }

  function BatchCount(w: Work): int { (w.totalHeads + 1) / 2 }

  // Heads done after b batches.
  function HeadsDone(w: Work, b: int): int { Min(2 * b, w.totalHeads) }

  // The tiles a batch produces from the batch it dequeued.
  function BatchTiles(gates: GateBatch, w: Work, round: int): seq<HeadTile> {
    seq(if gates.heads == 2 then 2 else 1,
        i => HeadTile(gates.firstHead + i, gates.start, gates.chunkLen, w.rowStart, w.rowCount, round))
  }

  // The record QueueDelayed{Single,Pair}Output builds from its arguments.
  function BatchRecord(gates: GateBatch, w: Work): CopyOut.Queued {
    if gates.heads == 2 then CopyOut.QueuedPair(gates.firstHead, w.start, w.rowCount * 64)
    else CopyOut.QueuedSingle(gates.firstHead, w.start, w.rowStart, w.rowCount)
  }

  predicate WorkShape(w: Work) {
    w.HasWork() && 1 <= w.chunkLen <= 64 && (w.totalHeads >= 2 ==> w.rowStart == 0)
  }

  lemma WorkShaped(start: int, end: int, t: int, numRepeat: int, kvHead: int, lane: int)
    requires numRepeat >= 1 && 0 <= lane <= 1 && WorkOn(start, end, t, numRepeat, kvHead, lane).HasWork()
    ensures WorkShape(WorkOn(start, end, t, numRepeat, kvHead, lane))
  {}

  // The batch handed to the output ring.
  function BatchOut(w: Work, b: int, round: int): Out {
    Batch(BatchRecord(BatchAt(w, b), w), BatchTiles(BatchAt(w, b), w, round))
  }

  lemma BatchMade(w: Work, b: int, round: int)
    requires WorkShape(w) && 0 <= b < BatchCount(w)
    ensures Made(BatchOut(w, b, round).record, BatchOut(w, b, round).data)
  {}

  /** A batch multiplies the next heads of the task. */
  lemma BatchHeadsNext(w: Work, b: int, round: int)
    requires WorkShape(w) && 0 <= b < BatchCount(w)
    ensures Multiplies(w, round, HeadsDone(w, b)) + MultipliesOf(BatchTiles(BatchAt(w, b), w, round))
         == Multiplies(w, round, HeadsDone(w, b + 1))
  {
    var tiles := BatchTiles(BatchAt(w, b), w, round);
    var n := HeadsDone(w, b);
    assert n == 2 * b;
    assert tiles[0] == TileOf(w, w.firstHead + n, round);
    assert Multiplies(w, round, n + 1) == Multiplies(w, round, n) + [Multiply(tiles[0])];
    if BatchHeads(w, b) == 2 {
      assert tiles[1] == TileOf(w, w.firstHead + n + 1, round);
      assert Multiplies(w, round, n + 2) == Multiplies(w, round, n + 1) + [Multiply(tiles[1])];
      assert MultipliesOf(tiles) == [Multiply(tiles[0]), Multiply(tiles[1])];
    } else {
      assert MultipliesOf(tiles) == [Multiply(tiles[0])];
    }
  }

  // The output batches of the task's first n batches, in order.
  function TaskBatches(w: Work, round: int, n: int): seq<Out>
    decreases n
  {
    if n <= 0 then [] else TaskBatches(w, round, n - 1) + [BatchOut(w, n - 1, round)]
  }

  /** A task's output batches: heads two by two, the last one alone when their number is odd; a pair is one
      record of both heads' rows, a single head keeps its first row. */
  lemma {:induction false} TaskBatchAt(w: Work, round: int, n: int, b: int)
    requires w.totalHeads >= 1 && 0 <= b < n <= (w.totalHeads + 1) / 2
    ensures |TaskBatches(w, round, n)| == n
    ensures
      var head, batch := w.firstHead + 2 * b, TaskBatches(w, round, n)[b];
      var tile := HeadTile(head, w.start, w.chunkLen, w.rowStart, w.rowCount, round);
      if 2 * b + 1 < w.totalHeads
      then batch.data == [tile, tile.(head := head + 1)] && batch.record == CopyOut.QueuedPair(head, w.start, 64 * w.rowCount)
      else batch.data == [tile] && batch.record == CopyOut.QueuedSingle(head, w.start, w.rowStart, w.rowCount)
    decreases n
  {
    TaskBatchCount(w, round, n - 1);
    if b < n - 1 { TaskBatchAt(w, round, n - 1, b); }
  }

  lemma {:induction false} TaskBatchCount(w: Work, round: int, n: int)
    requires n >= 0
    ensures |TaskBatches(w, round, n)| == n
    decreases n
  {
    if n > 0 { TaskBatchCount(w, round, n - 1); }
  }

  lemma {:induction false} TaskMade(w: Work, round: int, n: int)
    requires WorkShape(w) && 0 <= n <= BatchCount(w)
    ensures AllMade(TaskBatches(w, round, n))
    decreases n
  {
    if n > 0 {
      TaskMade(w, round, n - 1);
      BatchMade(w, n - 1, round);
    }
  }

  lemma TilesAppend(bs: seq<Out>, b: Out, ops: seq<Op>)
    requires AllTiles(bs) == TilesOf(ops)
    ensures AllTiles(bs + [b]) == TilesOf(ops + MultipliesOf(b.data))
  {
    assert (bs + [b])[..|bs + [b]| - 1] == bs;
    TilesOfConcat(ops, MultipliesOf(b.data));
    TilesBack(b.data);
  }

  // The batches hold the heads the task multiplies, in order.
  lemma {:induction false} TaskTiles(w: Work, round: int, n: int)
    requires WorkShape(w) && 0 <= n <= BatchCount(w)
    ensures AllTiles(TaskBatches(w, round, n)) == TilesOf(Multiplies(w, round, HeadsDone(w, n)))
    decreases n
  {
    if n > 0 {
      TaskTiles(w, round, n - 1);
      BatchHeadsNext(w, n - 1, round);
      TilesAppend(TaskBatches(w, round, n - 1), BatchOut(w, n - 1, round),
                  Multiplies(w, round, HeadsDone(w, n - 1)));
    }
  }

  lemma AccountBatches(w: Work, round: int)
    requires WorkShape(w)
    ensures Accounted(TaskBatches(w, round, BatchCount(w)), Multiplies(w, round, w.totalHeads))
  {
    TaskMade(w, round, BatchCount(w));
    TaskTiles(w, round, BatchCount(w));
    assert HeadsDone(w, BatchCount(w)) == w.totalHeads;
  }

  // What one ordinary task hands to the output ring.
  function RoundBatches(w: Work, round: int): seq<Out> {
    if w.HasWork() then TaskBatches(w, round, BatchCount(w)) else []
  }

  /** One ordinary task hands over exactly the tiles it multiplies. */
  lemma AccountTask(w: Work, round: int, reuse: bool)
    requires w.HasWork() ==> WorkShape(w)
    ensures Accounted(RoundBatches(w, round), RoundOps(w, round, reuse))
  {
    if w.HasWork() {
      var sync := [WaitReady(round % 2), LoadOf(w, round)] + Posts(round, reuse);
      AccountSync(sync);
      AccountBatches(w, round);
      AccountConcat([], sync, TaskBatches(w, round, BatchCount(w)), Multiplies(w, round, w.totalHeads));
      assert [] + RoundBatches(w, round) == RoundBatches(w, round);
    } else {
      AccountSync([WaitReady(round % 2)] + Posts(round, reuse));
    }
  }

  // ---------------------------------------------------------------- two adjacent full chunks

  predicate CanFuseAdjacentFullChunks(offsets: seq<int>, firstChunk: int, t: int)
    requires 0 <= firstChunk && firstChunk + 2 < |offsets|
  {
    && offsets[firstChunk] >= 0 && offsets[firstChunk + 2] <= t
    && offsets[firstChunk + 1] - offsets[firstChunk] == 64
    && offsets[firstChunk + 2] - offsets[firstChunk + 1] == 64
  }

  // The two tasks as the fused step sees them.
  function FullWork(start: int, firstHead: int, heads: int): Work {
    Work(true, start, 64, 0, 64, firstHead, heads)
  }

  // The supertile [h0/c0][h0/c1] or [h0/c0][h0/c1][h1/c0][h1/c1], from the batches dequeued for each
  // chunk.
  function FusedTiles(g0: GateBatch, g1: GateBatch, heads: int, round: int): seq<HeadTile> {
    var h0c0 := HeadTile(g0.firstHead, g0.start, g0.chunkLen, 0, 64, round);
    var h0c1 := HeadTile(g1.firstHead, g1.start, g1.chunkLen, 0, 64, round + 1);
    if heads == 2 then [h0c0, h0c1, h0c0.(head := g0.firstHead + 1), h0c1.(head := g1.firstHead + 1)]
    else [h0c0, h0c1]
  }

  function FusedOut(firstHead: int, start0: int, start1: int, heads: int, round: int): Out {
    Batch(CopyOut.QueuedChunkPair(firstHead, start0, heads),
          FusedTiles(GateBatch(firstHead, start0, 64, heads), GateBatch(firstHead, start1, 64, heads), heads, round))
  }

  lemma FusedMade(firstHead: int, start: int, heads: int, round: int)
    requires 1 <= heads <= 2
    ensures Made(FusedOut(firstHead, start, start + 64, heads, round).record,
                 FusedOut(firstHead, start, start + 64, heads, round).data)
  {}

  // One chunk's part of the fused step.
  function HalfOps(w: Work, round: int, reuse: bool): seq<Op> {
    [WaitReady(round % 2), LoadOf(w, round)] + Posts(round, reuse) + MultipliesOf(BatchTiles(BatchAt(w, 0), w, round))
  }

  lemma RoundIsHalf(w: Work, round: int, reuse: bool)
    requires w.HasWork() && w.totalHeads <= 2
    ensures RoundOps(w, round, reuse) == HalfOps(w, round, reuse)
  {
    var tiles := BatchTiles(BatchAt(w, 0), w, round);
    assert tiles[0] == TileOf(w, w.firstHead, round);
    assert Multiplies(w, round, 1) == Multiplies(w, round, 0) + [Multiply(tiles[0])];
    if w.totalHeads == 2 {
      assert tiles[1] == TileOf(w, w.firstHead + 1, round);
      assert Multiplies(w, round, 2) == Multiplies(w, round, 1) + [Multiply(tiles[1])];
      assert MultipliesOf(tiles) == [Multiply(tiles[0]), Multiply(tiles[1])];
    } else {
      assert MultipliesOf(tiles) == [Multiply(tiles[0])];
    }
  }

  // The tiles an ordinary round multiplies, for one or two heads.
  lemma RoundTiles(w: Work, round: int, reuse: bool)
    requires WorkShape(w) && w.totalHeads <= 2
    ensures TilesOf(RoundOps(w, round, reuse)) == BatchTiles(BatchAt(w, 0), w, round)
  {
    var sync := [WaitReady(round % 2), LoadOf(w, round)] + Posts(round, reuse);
    var tiles := BatchTiles(BatchAt(w, 0), w, round);
    RoundIsHalf(w, round, reuse);
    NoTiles(sync);
    TilesBack(tiles);
    TilesOfConcat(sync, MultipliesOf(tiles));
  }

  // The tiles of the two ordinary tasks, in their order.
  function PlainTiles(firstHead: int, start: int, heads: int, round: int): seq<HeadTile> {
    var w0, w1 := FullWork(start, firstHead, heads), FullWork(start + 64, firstHead, heads);
    BatchTiles(BatchAt(w0, 0), w0, round) + BatchTiles(BatchAt(w1, 0), w1, round + 1)
  }

  lemma SwapMiddle<T>(a: T, b: T, c: T, d: T)
    ensures multiset([a, b, c, d]) == multiset([a, c, b, d])
  {}

  /** The supertile holds exactly the tiles the two ordinary tasks multiply. */
  lemma FusedTilesMatch(firstHead: int, start: int, heads: int, round: int)
    requires 1 <= heads <= 2
    ensures multiset(FusedOut(firstHead, start, start + 64, heads, round).data)
         == multiset(PlainTiles(firstHead, start, heads, round))
  {
    var fused, plain := FusedOut(firstHead, start, start + 64, heads, round).data, PlainTiles(firstHead, start, heads, round);
    if heads == 1 {
      assert fused == plain;
    } else {
      assert plain == [fused[0], fused[2], fused[1], fused[3]];
      assert fused == [fused[0], fused[1], fused[2], fused[3]];
      SwapMiddle(fused[0], fused[1], fused[2], fused[3]);
    }
  }

  lemma PlainOps(firstHead: int, start: int, heads: int, round: int, reuse0: bool, reuse1: bool)
    requires 1 <= heads <= 2
    ensures
      var w0, w1 := FullWork(start, firstHead, heads), FullWork(start + 64, firstHead, heads);
      TilesOf(RoundOps(w0, round, reuse0) + RoundOps(w1, round + 1, reuse1))
      == PlainTiles(firstHead, start, heads, round)
  {
    var w0, w1 := FullWork(start, firstHead, heads), FullWork(start + 64, firstHead, heads);
    RoundTiles(w0, round, reuse0);
    RoundTiles(w1, round + 1, reuse1);
    TilesOfConcat(RoundOps(w0, round, reuse0), RoundOps(w1, round + 1, reuse1));
  }

  lemma AccountSame(b: Out, ops: seq<Op>)
    requires Made(b.record, b.data) && multiset(b.data) == multiset(TilesOf(ops))
    ensures Accounted([b], ops)
  {
    assert [b][..0] == [];
    assert AllTiles([b]) == AllTiles([]) + b.data;
  }

  lemma FusedAccount(firstHead: int, start: int, heads: int, round: int, count: int)
    requires 1 <= heads <= 2
    ensures Accounted([FusedOut(firstHead, start, start + 64, heads, round)],
                      TwoWorks(start, firstHead, heads, round, count))
  {
    FusedMade(firstHead, start, heads, round);
    PlainOps(firstHead, start, heads, round, round + 2 < count, round + 3 < count);
    FusedTilesMatch(firstHead, start, heads, round);
    AccountSame(FusedOut(firstHead, start, start + 64, heads, round), TwoWorks(start, firstHead, heads, round, count));
  }

  // With numRepeat 3 a full chunk's task is one head for lane 0 and two for lane 1.
  lemma FullTask(tiling: Tiling, offsets: seq<int>, chunk: int, kvHead: int, lane: int)
    requires Launch(tiling, offsets) && tiling.numRepeat == 3 && 0 <= lane <= 1
    requires 0 <= chunk && chunk + 1 < |offsets| && 0 <= kvHead < tiling.hg
    requires offsets[chunk] >= 0 && offsets[chunk + 1] <= tiling.t && offsets[chunk + 1] - offsets[chunk] == 64
    ensures 0 <= chunk * tiling.hg + kvHead < tiling.totalTaskCount
    ensures TaskWork(tiling, offsets, chunk * tiling.hg + kvHead, lane)
         == FullWork(offsets[chunk], kvHead * 3 + lane, if lane == 1 then 2 else 1)
  {
    ChunkOfTask(chunk, kvHead, tiling.hg, tiling.totalTaskCount / tiling.hg);
    ChunksPositive(tiling.totalTaskCount, tiling.hg);
    assert tiling.totalTaskCount / tiling.hg * tiling.hg == tiling.totalTaskCount;
  }

  predicate TwoFullChunks(tiling: Tiling, offsets: seq<int>, firstChunk: int, kvHead: int) {
    && Launch(tiling, offsets) && tiling.numRepeat == 3 && 0 <= kvHead < tiling.hg
    && 0 <= firstChunk && firstChunk + 2 < |offsets| && CanFuseAdjacentFullChunks(offsets, firstChunk, tiling.t)
  }

  function TwoWorks(start: int, firstHead: int, heads: int, round: int, count: int): seq<Op> {
    RoundOps(FullWork(start, firstHead, heads), round, round + 2 < count)
    + RoundOps(FullWork(start + 64, firstHead, heads), round + 1, round + 3 < count)
  }

  /** The fused step's heads, chunks and rows are those of the two ordinary tasks. */
  lemma FusedWorks(tiling: Tiling, offsets: seq<int>, firstChunk: int, kvHead: int, lane: int, w0: Work, w1: Work)
    requires TwoFullChunks(tiling, offsets, firstChunk, kvHead) && 0 <= lane <= 1
    requires OfTask(tiling, offsets, lane, firstChunk, kvHead, w0) && OfTask(tiling, offsets, lane, firstChunk + 1, kvHead, w1)
    ensures
      var start, firstHead, heads := offsets[firstChunk], kvHead * 3 + lane, if lane == 1 then 2 else 1;
      offsets[firstChunk + 1] == start + 64
      && w0 == FullWork(start, firstHead, heads) && w1 == FullWork(start + 64, firstHead, heads)
  {
    FullTask(tiling, offsets, firstChunk, kvHead, lane);
    FullTask(tiling, offsets, firstChunk + 1, kvHead, lane);
  }

  // w is the lane's work on the task of a chunk and KV head.
  predicate OfTask(tiling: Tiling, offsets: seq<int>, lane: int, chunk: int, kvHead: int, w: Work) {
    && Launch(tiling, offsets) && 0 <= lane && 0 <= kvHead < tiling.hg && 0 <= chunk && chunk + 1 < |offsets|
    && 0 <= chunk * tiling.hg + kvHead < tiling.totalTaskCount
    && w == TaskWork(tiling, offsets, chunk * tiling.hg + kvHead, lane)
  }

  // w is the lane's work on the task of a chunk and KV head: the chunk's tokens and the head's share.
  lemma OfTaskIs(tiling: Tiling, offsets: seq<int>, lane: int, chunk: int, kvHead: int, w: Work)
    requires OfTask(tiling, offsets, lane, chunk, kvHead, w)
    ensures tiling.numRepeat >= 1
    ensures w == WorkOn(offsets[chunk], offsets[chunk + 1], tiling.t, tiling.numRepeat, kvHead, lane)
  {
    TaskParts(chunk * tiling.hg + kvHead, tiling.totalTaskCount, tiling.hg);
    DivUnique(chunk, tiling.hg, kvHead);
  }

  /** The rounds of two full chunks, one right behind the other, of one KV head. */
  predicate Adjacent(w0: Work, w1: Work) {
    w0.valid && w1.valid && w0.chunkLen == 64 && w1.chunkLen == 64 && w1.start == w0.start + 64 && w1.firstHead == w0.firstHead
  }

  // The source's test on the offsets finds exactly them.
  lemma AdjacentChunks(tiling: Tiling, offsets: seq<int>, lane: int, chunk: int, kvHead: int, w0: Work, w1: Work)
    requires OfTask(tiling, offsets, lane, chunk, kvHead, w0) && OfTask(tiling, offsets, lane, chunk + 1, kvHead, w1)
    ensures Adjacent(w0, w1) <==> CanFuseAdjacentFullChunks(offsets, chunk, tiling.t)
  {
    OfTaskIs(tiling, offsets, lane, chunk, kvHead, w0);
    OfTaskIs(tiling, offsets, lane, chunk + 1, kvHead, w1);
  }

  lemma OtherHead(tiling: Tiling, offsets: seq<int>, lane: int, chunk0: int, kv0: int, chunk1: int, kv1: int, w0: Work, w1: Work)
    requires OfTask(tiling, offsets, lane, chunk0, kv0, w0) && OfTask(tiling, offsets, lane, chunk1, kv1, w1) && kv0 != kv1
    requires tiling.numRepeat == 3
    ensures !Adjacent(w0, w1)
  {
    OfTaskIs(tiling, offsets, lane, chunk0, kv0, w0);
    OfTaskIs(tiling, offsets, lane, chunk1, kv1, w1);
  }

  /** What a lane hands to its output ring from round n on: with three heads a KV group, two adjacent full
      chunks as one supertile; every other round batch by batch. */
  function LaneBatches(works: seq<Work>, fusing: bool, n: nat): seq<Out>
    decreases |works| - n
  {
    if n >= |works| then []
    else if fusing && n + 1 < |works| && Adjacent(works[n], works[n + 1]) then
      [FusedOut(works[n].firstHead, works[n].start, works[n].start + 64, works[n].totalHeads, n)]
      + LaneBatches(works, fusing, n + 2)
    else RoundBatches(works[n], n) + LaneBatches(works, fusing, n + 1)
  }

  // Rounds n and n + 1 would be fused.
  predicate FusesAt(works: seq<Work>, fusing: bool, n: int) {
    fusing && 0 <= n && n + 1 < |works| && Adjacent(works[n], works[n + 1])
  }

  // A step of the walk begins at round n.
  predicate Begins(works: seq<Work>, fusing: bool, n: int)
    decreases n
  {
    n == 0 || (n > 0 && Begins(works, fusing, n - 1) && !FusesAt(works, fusing, n - 1))
    || (n > 1 && Begins(works, fusing, n - 2) && FusesAt(works, fusing, n - 2))
  }

  // What the steps before round n hand over.
  function BatchesBefore(works: seq<Work>, fusing: bool, n: int): seq<Out>
    requires n <= |works|
    decreases n
  {
    if n <= 0 then []
    else if n > 1 && Begins(works, fusing, n - 2) && FusesAt(works, fusing, n - 2) then
      BatchesBefore(works, fusing, n - 2)
      + [FusedOut(works[n - 2].firstHead, works[n - 2].start, works[n - 2].start + 64, works[n - 2].totalHeads, n - 2)]
    else BatchesBefore(works, fusing, n - 1) + RoundBatches(works[n - 1], n - 1)
  }

  // Before and after a step there is the whole walk.
  lemma {:induction false} BeforeAndAfter(works: seq<Work>, fusing: bool, n: int)
    requires 0 <= n <= |works| && Begins(works, fusing, n)
    ensures BatchesBefore(works, fusing, n) + LaneBatches(works, fusing, n) == LaneBatches(works, fusing, 0)
    decreases n
  {
    if n == 0 {
    } else if n > 1 && Begins(works, fusing, n - 2) && FusesAt(works, fusing, n - 2) {
      BeforeAndAfter(works, fusing, n - 2);
      HandOver(BatchesBefore(works, fusing, n - 2),
               [FusedOut(works[n - 2].firstHead, works[n - 2].start, works[n - 2].start + 64, works[n - 2].totalHeads, n - 2)],
               LaneBatches(works, fusing, n), LaneBatches(works, fusing, 0));
    } else {
      BeforeAndAfter(works, fusing, n - 1);
      HandOver(BatchesBefore(works, fusing, n - 1), RoundBatches(works[n - 1], n - 1),
               LaneBatches(works, fusing, n), LaneBatches(works, fusing, 0));
    }
  }

  // Handing over the next part of what is left.
  lemma HandOver(handed: seq<Out>, part: seq<Out>, rest: seq<Out>, all: seq<Out>)
    requires handed + (part + rest) == all
    ensures (handed + part) + rest == all
  {}

  // No step begins in the middle of a fused one.
  lemma {:induction false} StepsApart(works: seq<Work>, n: int)
    requires n > 0 && Begins(works, true, n)
    ensures !(Begins(works, true, n - 1) && FusesAt(works, true, n - 1))
    decreases n
  {
    if n > 1 && Begins(works, true, n - 1) && Begins(works, true, n - 2) && FusesAt(works, true, n - 2) {
      StepsApart(works, n - 1);
    }
  }

  /** The first n rounds are done, and a step begins: their operations are performed and their batches are
      handed over. */
  ghost predicate RoundsDone(works: seq<Work>, fusing: bool, n: int, trace: seq<Op>, handed: seq<Out>) {
    && 0 <= n <= |works| && Begins(works, fusing, n) && trace == WorksTrace(works, n)
    && handed == BatchesBefore(works, fusing, n)
  }

  lemma OneRoundDone(works: seq<Work>, fusing: bool, n: int, trace: seq<Op>, handed: seq<Out>, trace': seq<Op>, handed': seq<Out>)
    requires RoundsDone(works, fusing, n, trace, handed) && n < |works|
    requires !fusing || n + 1 == |works| || !Adjacent(works[n], works[n + 1])
    requires trace' == trace + RoundOps(works[n], n, n + 2 < |works|)
    requires handed' == handed + RoundBatches(works[n], n)
    ensures RoundsDone(works, fusing, n + 1, trace', handed')
  {
    if n > 0 && fusing { StepsApart(works, n); }
  }

  lemma TwoRoundsDone(works: seq<Work>, n: int, trace: seq<Op>, handed: seq<Out>, trace': seq<Op>, handed': seq<Out>)
    requires RoundsDone(works, true, n, trace, handed) && n + 1 < |works| && Adjacent(works[n], works[n + 1])
    requires trace' == trace + (RoundOps(works[n], n, n + 2 < |works|) + RoundOps(works[n + 1], n + 1, n + 3 < |works|))
    requires handed' == handed + [FusedOut(works[n].firstHead, works[n].start, works[n].start + 64, works[n].totalHeads, n)]
    ensures RoundsDone(works, true, n + 2, trace', handed')
  {
    NextTwoRounds(works, n);
  }

  // Works of one lane: ordinary ones have a batch's shape, full chunks a supertile's.
  ghost predicate Shapely(works: seq<Work>, fusing: bool, heads: int) {
    && 1 <= heads
    && (fusing ==> heads <= 2)
    && forall n :: 0 <= n < |works| ==> ShapelyWork(works[n], fusing, heads)
  }

  predicate ShapelyWork(w: Work, fusing: bool, heads: int) {
    && (w.HasWork() ==> WorkShape(w))
    && (fusing && w.valid && w.chunkLen == 64 ==> w == FullWork(w.start, w.firstHead, heads))
  }

  lemma StepAccounted(bs: seq<Out>, ops: seq<Op>, w: Work, round: int, reuse: bool, more: seq<Out>, longer: seq<Op>)
    requires Accounted(bs, ops) && (w.HasWork() ==> WorkShape(w))
    requires more == bs + RoundBatches(w, round) && longer == ops + RoundOps(w, round, reuse)
    ensures Accounted(more, longer)
  {
    AccountTask(w, round, reuse);
    AccountConcat(bs, ops, RoundBatches(w, round), RoundOps(w, round, reuse));
  }

  lemma FusedAccounted(bs: seq<Out>, ops: seq<Op>, start: int, firstHead: int, heads: int, round: int, count: int,
                       more: seq<Out>, longer: seq<Op>)
    requires Accounted(bs, ops) && 1 <= heads <= 2
    requires more == bs + [FusedOut(firstHead, start, start + 64, heads, round)]
    requires longer == ops + TwoWorks(start, firstHead, heads, round, count)
    ensures Accounted(more, longer)
  {
    FusedAccount(firstHead, start, heads, round, count);
    AccountConcat(bs, ops, [FusedOut(firstHead, start, start + 64, heads, round)],
                  TwoWorks(start, firstHead, heads, round, count));
  }

  lemma TwoFull(w0: Work, w1: Work, heads: int, round: int, count: int)
    requires w0 == FullWork(w0.start, w0.firstHead, heads) && w1 == FullWork(w0.start + 64, w0.firstHead, heads)
    ensures RoundOps(w0, round, round + 2 < count) + RoundOps(w1, round + 1, round + 3 < count)
         == TwoWorks(w0.start, w0.firstHead, heads, round, count)
  {}

  lemma PairTrace(works: seq<Work>, heads: int, m: int, n: int)
    requires 0 <= m && n == m + 2 && m + 1 < |works|
    requires works[m] == FullWork(works[m].start, works[m].firstHead, heads)
    requires works[m + 1] == FullWork(works[m].start + 64, works[m].firstHead, heads)
    ensures WorksTrace(works, n) == WorksTrace(works, m) + TwoWorks(works[m].start, works[m].firstHead, heads, m, |works|)
  {
    NextTwoRounds(works, m);
    TwoFull(works[m], works[m + 1], heads, m, |works|);
  }

  lemma PairFull(works: seq<Work>, fusing: bool, heads: int, m: int)
    requires FusesAt(works, fusing, m) && 0 <= m && m + 1 < |works|
    requires ShapelyWork(works[m], fusing, heads) && ShapelyWork(works[m + 1], fusing, heads)
    ensures works[m] == FullWork(works[m].start, works[m].firstHead, heads)
    ensures works[m + 1] == FullWork(works[m].start + 64, works[m].firstHead, heads)
  {}

  lemma PairBatches(works: seq<Work>, fusing: bool, heads: int, m: int, n: int)
    requires 0 <= m && n == m + 2 && m + 1 < |works| && Begins(works, fusing, m) && FusesAt(works, fusing, m)
    requires works[m].totalHeads == heads
    ensures BatchesBefore(works, fusing, n)
         == BatchesBefore(works, fusing, m) + [FusedOut(works[m].firstHead, works[m].start, works[m].start + 64, heads, m)]
  {}

  // One more fused pair, one more ordinary round.
  lemma PairAccounted(works: seq<Work>, fusing: bool, heads: int, m: int, n: int)
    requires 0 <= m && n == m + 2 && m + 1 < |works| && 1 <= heads <= 2
    requires Begins(works, fusing, m) && FusesAt(works, fusing, m)
    requires ShapelyWork(works[m], fusing, heads) && ShapelyWork(works[m + 1], fusing, heads)
    requires Accounted(BatchesBefore(works, fusing, m), WorksTrace(works, m))
    ensures Accounted(BatchesBefore(works, fusing, n), WorksTrace(works, n))
  {
    PairFull(works, fusing, heads, m);
    PairTrace(works, heads, m, n);
    PairBatches(works, fusing, heads, m, n);
    var w, before, trace := works[m], BatchesBefore(works, fusing, m), WorksTrace(works, m);
    FusedAccounted(before, trace, w.start, w.firstHead, heads, m, |works|, BatchesBefore(works, fusing, n), WorksTrace(works, n));
  }

  lemma RoundAccounted(works: seq<Work>, fusing: bool, heads: int, m: int, n: int)
    requires 0 <= m < |works| && n == m + 1 && ShapelyWork(works[m], fusing, heads)
    requires !(m > 0 && Begins(works, fusing, m - 1) && FusesAt(works, fusing, m - 1))
    requires Accounted(BatchesBefore(works, fusing, m), WorksTrace(works, m))
    ensures Accounted(BatchesBefore(works, fusing, n), WorksTrace(works, n))
  {
    StepAccounted(BatchesBefore(works, fusing, m), WorksTrace(works, m), works[m], m, m + 2 < |works|,
                  BatchesBefore(works, fusing, n), WorksTrace(works, n));
  }

  lemma ShapelyAt(works: seq<Work>, fusing: bool, heads: int, m: int)
    requires Shapely(works, fusing, heads) && 0 <= m < |works|
    ensures ShapelyWork(works[m], fusing, heads)
  {}

  // Fused or not, the walk hands over exactly the tiles it multiplies.
  lemma {:induction false} WalkAccounted(works: seq<Work>, fusing: bool, heads: int, n: int)
    requires Shapely(works, fusing, heads) && 0 <= n <= |works| && Begins(works, fusing, n)
    ensures Accounted(BatchesBefore(works, fusing, n), WorksTrace(works, n))
    decreases n
  {
    if n == 0 {
      AccountSync([]);
      assert Accounted(BatchesBefore(works, fusing, n), WorksTrace(works, n));
    } else if n > 1 && Begins(works, fusing, n - 2) && FusesAt(works, fusing, n - 2) {
      ShapelyAt(works, fusing, heads, n - 2);
      ShapelyAt(works, fusing, heads, n - 1);
      WalkAccounted(works, fusing, heads, n - 2);
      PairAccounted(works, fusing, heads, n - 2, n);
      assert Accounted(BatchesBefore(works, fusing, n), WorksTrace(works, n));
    } else {
      ShapelyAt(works, fusing, heads, n - 1);
      WalkAccounted(works, fusing, heads, n - 1);
      RoundAccounted(works, fusing, heads, n - 1, n);
      assert Accounted(BatchesBefore(works, fusing, n), WorksTrace(works, n));
    }
  }

  // Every step ends inside the walk.
  lemma {:induction false} LastStep(works: seq<Work>, fusing: bool, n: int)
    requires 0 <= n <= |works|
    ensures Begins(works, fusing, n) || (n > 0 && Begins(works, fusing, n - 1) && FusesAt(works, fusing, n - 1))
    decreases n
  {
    if n > 0 { LastStep(works, fusing, n - 1); }
  }

  // A whole walk accounts for its tiles.
  lemma WholeAccounted(works: seq<Work>, fusing: bool, heads: int)
    requires Shapely(works, fusing, heads)
    ensures Accounted(LaneBatches(works, fusing, 0), WorksTrace(works, |works|))
  {
    LastStep(works, fusing, |works|);
    WalkAccounted(works, fusing, heads, |works|);
    BeforeAndAfter(works, fusing, |works|);
    assert BatchesBefore(works, fusing, |works|) + [] == BatchesBefore(works, fusing, |works|);
  }

  lemma LaneShapely(tiling: Tiling, offsets: seq<int>, group: int, lane: int)
    requires Launch(tiling, offsets) && 0 <= group < tiling.blockDim && 0 <= lane <= 1
    ensures Shapely(LaneWorks(tiling, offsets, group, lane), tiling.numRepeat == 3,
                    RepeatEnd(tiling.numRepeat, lane) - FirstRepeat(tiling.numRepeat, lane))
  {
    var works := LaneWorks(tiling, offsets, group, lane);
    var heads := RepeatEnd(tiling.numRepeat, lane) - FirstRepeat(tiling.numRepeat, lane);
    SomeHeads(tiling.numRepeat, lane);
    forall n | 0 <= n < |works|
      ensures ShapelyWork(works[n], tiling.numRepeat == 3, heads)
    {
      LaneWorkShapely(tiling, offsets, Task(tiling, offsets, group, n), lane, works[n]);
    }
  }

  lemma SomeHeads(numRepeat: int, lane: int)
    requires numRepeat >= 1 && 0 <= lane <= 1
    ensures RepeatEnd(numRepeat, lane) - FirstRepeat(numRepeat, lane) >= 1
  {}

  lemma LaneWorkShapely(tiling: Tiling, offsets: seq<int>, task: int, lane: int, w: Work)
    requires Launch(tiling, offsets) && 0 <= task < tiling.totalTaskCount && 0 <= lane <= 1
    requires w == TaskWork(tiling, offsets, task, lane)
    ensures ShapelyWork(w, tiling.numRepeat == 3,
                        RepeatEnd(tiling.numRepeat, lane) - FirstRepeat(tiling.numRepeat, lane))
  {
    TaskParts(task, tiling.totalTaskCount, tiling.hg);
    var chunk := task / tiling.hg;
    if w.HasWork() {
      WorkShaped(offsets[chunk], offsets[chunk + 1], tiling.t, tiling.numRepeat, task % tiling.hg, lane);
    }
  }

  // ---------------------------------------------------------------- walking the schedule

  lemma NextTwoRounds(works: seq<Work>, n: int)
    requires 0 <= n && n + 1 < |works|
    ensures WorksTrace(works, n + 2)
         == WorksTrace(works, n)
            + (RoundOps(works[n], n, n + 2 < |works|) + RoundOps(works[n + 1], n + 1, n + 3 < |works|))
  {
    Associate(WorksTrace(works, n), RoundOps(works[n], n, n + 2 < |works|), RoundOps(works[n + 1], n + 1, n + 3 < |works|));
    assert WorksTrace(works, n + 1) == WorksTrace(works, n) + RoundOps(works[n], n, n + 2 < |works|);
  }

  lemma Associate<T>(a: seq<T>, b: seq<T>, c: seq<T>)
    ensures a + b + c == a + (b + c)
  {}

  // The chunk range of a group in group-aligned mode.
  function KvHeadOf(tiling: Tiling, offsets: seq<int>, group: int): int
    requires Launch(tiling, offsets) && ModeOf(tiling) == GroupAligned
  {
    CoresDivide(tiling.hg, tiling.blockDim);
    group / (tiling.blockDim / tiling.hg)
  }

  function FirstChunk(tiling: Tiling, offsets: seq<int>, group: int): int
    requires Launch(tiling, offsets) && ModeOf(tiling) == GroupAligned
  {
    CoresDivide(tiling.hg, tiling.blockDim);
    var cores := tiling.blockDim / tiling.hg;
    ChunkStart(group - group / cores * cores, cores, tiling.totalTaskCount / tiling.hg)
  }

  /** The group-aligned walker: chunk by chunk through its range, inside one KV head. */
  lemma AlignedWalk(tiling: Tiling, offsets: seq<int>, group: int, n: int)
    requires Launch(tiling, offsets) && ModeOf(tiling) == GroupAligned && 0 <= group < tiling.blockDim
    requires 0 <= n < TaskCount(tiling, offsets, group)
    ensures Task(tiling, offsets, group, n)
         == (FirstChunk(tiling, offsets, group) + n) * tiling.hg + KvHeadOf(tiling, offsets, group)
    ensures 0 <= KvHeadOf(tiling, offsets, group) < tiling.hg
    ensures 0 <= FirstChunk(tiling, offsets, group) + n < tiling.totalTaskCount / tiling.hg
  {
    ScheduledTaskOwned(group, n, tiling.totalTaskCount, tiling.hg, tiling.blockDim, GroupAligned);
    AlignedRange(tiling, offsets, group, n);
  }

  lemma AlignedRange(tiling: Tiling, offsets: seq<int>, group: int, n: int)
    requires Launch(tiling, offsets) && ModeOf(tiling) == GroupAligned && 0 <= group < tiling.blockDim
    requires 0 <= n < TaskCount(tiling, offsets, group)
    ensures 0 <= KvHeadOf(tiling, offsets, group) < tiling.hg
    ensures 0 <= FirstChunk(tiling, offsets, group) + n < tiling.totalTaskCount / tiling.hg
  {
    var hg, total := tiling.hg, tiling.totalTaskCount;
    CoresDivide(hg, tiling.blockDim);
    var cores, chunks := tiling.blockDim / hg, total / hg;
    DivBounds(group, cores);
    DivGe(group, cores, 0);
    DivGe(group, cores, hg);
    var core := group - group / cores * cores;
    assert (group / cores + 1) * cores == group / cores * cores + cores;
    DivGe(total, hg, 0);
    ChunkStartEnds(cores, chunks);
    ChunkStartMono(0, core, cores, chunks);
    ChunkStartNext(core, cores, chunks);
    ChunkStartMono(core + 1, cores, cores, chunks);
  }

  lemma AlignedWork(tiling: Tiling, offsets: seq<int>, group: int, lane: int, works: seq<Work>, n: int)
    requires Launch(tiling, offsets) && ModeOf(tiling) == GroupAligned && 0 <= group < tiling.blockDim && 0 <= lane
    requires works == LaneWorks(tiling, offsets, group, lane) && 0 <= n < |works|
    ensures OfTask(tiling, offsets, lane, FirstChunk(tiling, offsets, group) + n, KvHeadOf(tiling, offsets, group), works[n])
  {
    AlignedWalk(tiling, offsets, group, n);
    assert works[n] == RoundWork(tiling, offsets, group, lane, n);
  }

  // One KV head's consecutive chunks.
  ghost predicate ChunkRun(tiling: Tiling, offsets: seq<int>, lane: int, first: int, kvHead: int, works: seq<Work>) {
    forall n :: 0 <= n < |works| ==> OfTask(tiling, offsets, lane, first + n, kvHead, works[n])
  }

  lemma AlignedRun(tiling: Tiling, offsets: seq<int>, group: int, lane: int, works: seq<Work>)
    requires Launch(tiling, offsets) && ModeOf(tiling) == GroupAligned && 0 <= group < tiling.blockDim && 0 <= lane
    requires works == LaneWorks(tiling, offsets, group, lane)
    ensures ChunkRun(tiling, offsets, lane, FirstChunk(tiling, offsets, group), KvHeadOf(tiling, offsets, group), works)
  {
    forall n | 0 <= n < |works|
      ensures OfTask(tiling, offsets, lane, FirstChunk(tiling, offsets, group) + n, KvHeadOf(tiling, offsets, group), works[n])
    {
      AlignedWork(tiling, offsets, group, lane, works, n);
    }
  }

  function StreamBegin(tiling: Tiling, offsets: seq<int>, group: int): int
    requires Launch(tiling, offsets)
  {
    Begin(tiling.totalTaskCount, tiling.blockDim, group)
  }

  /** The chunk-local walker: the wrapped (head, chunk) pair of the next position of the stream is the
      task the cube core finds by division. */
  lemma StreamWalk(tiling: Tiling, offsets: seq<int>, group: int, n: int)
    requires Launch(tiling, offsets) && ModeOf(tiling) == ChunkLocal && 0 <= group < tiling.blockDim
    requires 0 <= n < TaskCount(tiling, offsets, group)
    ensures
      var chunks := tiling.totalTaskCount / tiling.hg;
      var ordinal := StreamBegin(tiling, offsets, group) + n;
      && chunks >= 1 && 0 <= ordinal / chunks < tiling.hg && 0 <= ordinal % chunks < chunks
      && Task(tiling, offsets, group, n) == ordinal % chunks * tiling.hg + ordinal / chunks
  {
    var total, hg := tiling.totalTaskCount, tiling.hg;
    BeginEnds(total, tiling.blockDim);
    BeginMono(total, tiling.blockDim, 0, group);
    BeginMono(total, tiling.blockDim, group + 1, tiling.blockDim);
    ChunksPositive(total, hg);
    var chunks, ordinal := total / hg, StreamBegin(tiling, offsets, group) + n;
    assert chunks * hg == total;
    StreamParts(ordinal, chunks, hg);
    assert ordinal - ordinal / chunks * chunks == ordinal % chunks;
  }

  lemma StreamWork(tiling: Tiling, offsets: seq<int>, group: int, lane: int, works: seq<Work>, n: int, chunk: int, kvHead: int)
    requires Launch(tiling, offsets) && ModeOf(tiling) == ChunkLocal && 0 <= group < tiling.blockDim && 0 <= lane
    requires works == LaneWorks(tiling, offsets, group, lane) && 0 <= n < |works|
    requires tiling.totalTaskCount / tiling.hg >= 1
    requires chunk == (StreamBegin(tiling, offsets, group) + n) % (tiling.totalTaskCount / tiling.hg)
    requires kvHead == (StreamBegin(tiling, offsets, group) + n) / (tiling.totalTaskCount / tiling.hg)
    ensures OfTask(tiling, offsets, lane, chunk, kvHead, works[n])
  {
    StreamWalk(tiling, offsets, group, n);
    assert works[n] == RoundWork(tiling, offsets, group, lane, n);
  }

  // A position of the head-major stream.
  datatype Position = Position(head: int, chunk: int)

  // Some steps further inside a head, or at chunk 0 of the next one.
  function Advanced(head: int, chunk: int, steps: int, chunks: int): Position {
    if chunk + steps >= chunks then Position(head + 1, chunk + steps - chunks) else Position(head, chunk + steps)
  }

  // The positions of a contiguous range of the stream.
  function StreamPath(begin: int, chunks: int, count: int): (path: seq<Position>)
    requires begin >= 0 && chunks >= 1 && count >= 0
    ensures |path| == count
  {
    seq(count, n requires 0 <= n => Position((begin + n) / chunks, (begin + n) % chunks))
  }

  predicate Stepwise(path: seq<Position>, chunks: int) {
    && (forall n :: 0 <= n < |path| ==> 0 <= path[n].chunk < chunks)
    && (forall n :: 0 <= n < |path| - 1 ==> Steps(path, n, chunks))
  }

  predicate Steps(path: seq<Position>, n: int, chunks: int)
    requires 0 <= n < |path| - 1
  {
    path[n + 1] == Advanced(path[n].head, path[n].chunk, 1, chunks)
  }

  /** The incremental wrap follows quotient and remainder of the stream position. */
  lemma PathIsStepwise(begin: int, chunks: int, count: int)
    requires begin >= 0 && chunks >= 1 && count >= 0
    ensures Stepwise(StreamPath(begin, chunks, count), chunks)
  {
    forall n | 0 <= n < count - 1
      ensures Steps(StreamPath(begin, chunks, count), n, chunks)
    {
      StreamStep(begin + n, chunks);
      assert begin + n + 1 == begin + (n + 1);
    }
  }

  lemma PathStarts(begin: int, chunks: int, count: int)
    requires begin >= 0 && chunks >= 1 && count >= 0
    ensures count > 0 ==> StreamPath(begin, chunks, count)[0] == Position(begin / chunks, begin - begin / chunks * chunks)
  {
    assert begin - begin / chunks * chunks == begin % chunks;
  }

  lemma PathAt(path: seq<Position>, chunks: int, n: int)
    requires Stepwise(path, chunks) && 0 <= n < |path|
    ensures 0 <= path[n].chunk < chunks
    ensures n + 1 < |path| ==> path[n + 1] == Advanced(path[n].head, path[n].chunk, 1, chunks)
  {
    assert n + 1 < |path| ==> Steps(path, n, chunks);
  }

  // The rounds are the tasks of the path.
  ghost predicate StreamRun(tiling: Tiling, offsets: seq<int>, lane: int, path: seq<Position>, chunks: int, works: seq<Work>) {
    && |path| == |works| && Stepwise(path, chunks)
    && forall n :: 0 <= n < |works| ==> OfTask(tiling, offsets, lane, path[n].chunk, path[n].head, works[n])
  }

  lemma RunAt(tiling: Tiling, offsets: seq<int>, lane: int, path: seq<Position>, chunks: int, works: seq<Work>, n: int)
    requires StreamRun(tiling, offsets, lane, path, chunks, works) && 0 <= n < |works|
    ensures OfTask(tiling, offsets, lane, path[n].chunk, path[n].head, works[n])
  {}

  lemma StreamedRun(tiling: Tiling, offsets: seq<int>, group: int, lane: int, works: seq<Work>)
    requires Launch(tiling, offsets) && ModeOf(tiling) == ChunkLocal && 0 <= group < tiling.blockDim && 0 <= lane
    requires works == LaneWorks(tiling, offsets, group, lane)
    ensures StreamBegin(tiling, offsets, group) >= 0 && tiling.totalTaskCount / tiling.hg >= 1
    ensures StreamRun(tiling, offsets, lane,
                      StreamPath(StreamBegin(tiling, offsets, group), tiling.totalTaskCount / tiling.hg, |works|),
                      tiling.totalTaskCount / tiling.hg, works)
  {
    ChunksPositive(tiling.totalTaskCount, tiling.hg);
    BeginEnds(tiling.totalTaskCount, tiling.blockDim);
    BeginMono(tiling.totalTaskCount, tiling.blockDim, 0, group);
    var begin, chunks := StreamBegin(tiling, offsets, group), tiling.totalTaskCount / tiling.hg;
    var path := StreamPath(begin, chunks, |works|);
    PathIsStepwise(begin, chunks, |works|);
    forall n | 0 <= n < |works|
      ensures OfTask(tiling, offsets, lane, path[n].chunk, path[n].head, works[n])
    {
      StreamWork(tiling, offsets, group, lane, works, n, (begin + n) % chunks, (begin + n) / chunks);
    }
  }

  class VectorStage {
    const tiling: Tiling
    const offsets: seq<int>
    const groupId: int
    const aivLane: int
    var gQueue: GateQueue
    var betaQueue: GateQueue
    var trace: seq<Op>
    var acquired: bool                // an output slot and buffer are held by the running batch
    var handed: seq<Out>              // batches given to the output ring, in order

    ghost predicate Configured() {
      Launch(tiling, offsets) && 0 <= groupId < tiling.blockDim && 0 <= aivLane <= 1
    }

    // Between batches, with these loads in flight.
    ghost predicate Holding(enqueued: seq<GateBatch>)
      reads this
    {
      !acquired && gQueue == betaQueue == GateQueue(enqueued, 0)
    }

    /** Between tasks: no load in flight. */
    ghost predicate Valid()
      reads this
    {
      Holding([])
    }

    constructor (tiling: Tiling, offsets: seq<int>, groupId: int, aivLane: int)
      requires Launch(tiling, offsets) && 0 <= groupId < tiling.blockDim && 0 <= aivLane <= 1
      ensures Configured() && Valid() && trace == [] && handed == []
      ensures this.tiling == tiling && this.offsets == offsets
      ensures this.groupId == groupId && this.aivLane == aivLane
    {
      this.tiling := tiling;
      this.offsets := offsets;
      this.groupId := groupId;
      this.aivLane := aivLane;
      gQueue := GateQueue([], 0);
      betaQueue := GateQueue([], 0);
      trace := [];
      acquired := false;
      handed := [];
    }

    // ---------------------------------------------------------------- gate queues

    method PrefetchGateAndBetaBatch(batch: GateBatch)
      requires gQueue.HasBuffer() && betaQueue.HasBuffer()
      modifies this`gQueue, this`betaQueue
      ensures gQueue == old(gQueue).EnQue(batch) && betaQueue == old(betaQueue).EnQue(batch)
      ensures |gQueue.enqueued| + gQueue.taken <= 2 && |betaQueue.enqueued| + betaQueue.taken <= 2
    {
      gQueue, betaQueue := gQueue.EnQue(batch), betaQueue.EnQue(batch);
    }

    method DeQueGates() returns (gates: GateBatch, betas: GateBatch)
      requires gQueue.enqueued != [] && betaQueue.enqueued != []
      modifies this`gQueue, this`betaQueue
      ensures gates == old(gQueue).enqueued[0] && betas == old(betaQueue).enqueued[0]
      ensures gQueue == old(gQueue).DeQue() && betaQueue == old(betaQueue).DeQue()
    {
      gates, betas := gQueue.enqueued[0], betaQueue.enqueued[0];
      gQueue, betaQueue := gQueue.DeQue(), betaQueue.DeQue();
    }

    method FreeGates()
      requires gQueue.taken > 0 && betaQueue.taken > 0
      modifies this`gQueue, this`betaQueue
      ensures gQueue == old(gQueue).FreeTensor() && betaQueue == old(betaQueue).FreeTensor()
    {
      gQueue, betaQueue := gQueue.FreeTensor(), betaQueue.FreeTensor();
    }

    // ---------------------------------------------------------------- one task

    // CompleteKktLoadAndReleaseSlot
    method ReleaseSlot(round: int, reuse: bool)
      modifies this`trace
      ensures trace == old(trace) + Posts(round, reuse)
    {
      if reuse {
        trace := trace + [PostFree(round % 2)];
      }
    }

    // CrossCoreWaitFlag, then BeginLoadKktSlot when there is work.
    method WaitAndLoad(w: Work, round: int)
      modifies this`trace
      ensures trace == old(trace) + [WaitReady(round % 2)] + (if w.HasWork() then [LoadOf(w, round)] else [])
    {
      trace := trace + [WaitReady(round % 2)];
      if w.HasWork() {
        trace := trace + [LoadOf(w, round)];
      }
    }

    // AcquireOutputSlot and AllocTensor; the factor stage then launches the previous batch.
    method AcquireOutput()
      requires !acquired
      modifies this`acquired
      ensures acquired
    {
      acquired := true;
    }

    // Multiply a batch's factors with the resident tile and hold the batch back.
    method Finalize(gates: GateBatch, w: Work, round: int)
      requires acquired
      modifies this`trace, this`handed, this`acquired
      ensures trace == old(trace) + MultipliesOf(BatchTiles(gates, w, round))
      ensures handed == old(handed) + [Batch(BatchRecord(gates, w), BatchTiles(gates, w, round))]
      ensures !acquired
    {
      var tiles := BatchTiles(gates, w, round);
      trace := trace + MultipliesOf(tiles);
      handed := handed + [Batch(BatchRecord(gates, w), tiles)];
      acquired := false;
    }

    // The loads in flight before batch b.
    ghost function InFlight(w: Work, b: int): seq<GateBatch> {
      if b < BatchCount(w) then [BatchAt(w, b)] else []
    }

    method PrefetchNext(w: Work, b: int)
      requires gQueue == betaQueue == GateQueue([], 1)
      modifies this`gQueue, this`betaQueue
      ensures gQueue == betaQueue == GateQueue(InFlight(w, b), 1)
    {
      if b < BatchCount(w) {
        PrefetchGateAndBetaBatch(BatchAt(w, b));
      }
    }

    // Batch 0: the factor is built while the KKT copy is in flight, the slot is released, then the
    // next load is issued.
    method FirstBatch(w: Work, round: int, reuse: bool)
      requires Holding([BatchAt(w, 0)])
      modifies this
      ensures Holding(InFlight(w, 1))
      ensures trace == old(trace) + Posts(round, reuse) + MultipliesOf(BatchTiles(BatchAt(w, 0), w, round))
      ensures handed == old(handed) + [BatchOut(w, 0, round)]
    {
      var gates, betas := DeQueGates();
      AcquireOutput();
      ReleaseSlot(round, reuse);
      PrefetchNext(w, 1);
      Finalize(gates, w, round);
      FreeGates();
    }

    // Later batches: the next load first.
    method NextBatch(w: Work, b: int, round: int)
      requires Holding([BatchAt(w, b)])
      modifies this
      ensures Holding(InFlight(w, b + 1))
      ensures trace == old(trace) + MultipliesOf(BatchTiles(BatchAt(w, b), w, round))
      ensures handed == old(handed) + [BatchOut(w, b, round)]
    {
      var gates, betas := DeQueGates();
      PrefetchNext(w, b + 1);
      AcquireOutput();
      Finalize(gates, w, round);
      FreeGates();
    }

    /** All heads of the task, two at a time; every DeQue yields the batch being processed and at most
        two gate buffers are ever out. */
    method ProcessHeadRange(w: Work, round: int, reuse: bool)
      requires WorkShape(w) && Holding([BatchAt(w, 0)])
      modifies this
      ensures Holding([])
      ensures trace == old(trace) + Posts(round, reuse) + Multiplies(w, round, w.totalHeads)
      ensures handed == old(handed) + TaskBatches(w, round, BatchCount(w))
    {
      ghost var ops := trace + Posts(round, reuse);
      ghost var batches := handed;
      FirstBatch(w, round, reuse);
      BatchHeadsNext(w, 0, round);
      assert Multiplies(w, round, HeadsDone(w, 0)) == [] && TaskBatches(w, round, 0) == [];
      var b := 1;
      while b < BatchCount(w)
        invariant 1 <= b <= BatchCount(w) && Holding(InFlight(w, b))
        invariant trace == ops + Multiplies(w, round, HeadsDone(w, b))
        invariant handed == batches + TaskBatches(w, round, b)
      {
        BatchHeadsNext(w, b, round);
        NextBatch(w, b, round);
        b := b + 1;
      }
      assert HeadsDone(w, b) == w.totalHeads;
    }

    /** One task: exactly the round's operations, whatever the chunk and the lane's share of it. */
    method ProcessPipelineTask(task: int, round: int, reuse: bool)
      requires Launch(tiling, offsets) && 0 <= aivLane <= 1 && Valid() && 0 <= task < tiling.totalTaskCount
      modifies this
      ensures Valid()
      ensures trace == old(trace) + RoundOps(TaskWork(tiling, offsets, task, aivLane), round, reuse)
      ensures handed == old(handed) + RoundBatches(TaskWork(tiling, offsets, task, aivLane), round)
    {
      var w := ReadTask(task);
      RunTask(w, round, reuse);
    }

    method RunTask(w: Work, round: int, reuse: bool)
      requires Holding([]) && (w.HasWork() ==> WorkShape(w))
      modifies this
      ensures Holding([])
      ensures trace == old(trace) + RoundOps(w, round, reuse)
      ensures handed == old(handed) + RoundBatches(w, round)
    {
      if w.HasWork() {
        PrefetchGateAndBetaBatch(BatchAt(w, 0));
      }
      WaitAndLoad(w, round);
      if !w.HasWork() {
        ReleaseSlot(round, reuse);
        return;
      }
      ProcessHeadRange(w, round, reuse);
    }

    // The task's chunk and this lane's share of it.
    method ReadTask(task: int) returns (w: Work)
      requires Launch(tiling, offsets) && 0 <= aivLane <= 1 && 0 <= task < tiling.totalTaskCount
      ensures w == TaskWork(tiling, offsets, task, aivLane)
      ensures w.HasWork() ==> WorkShape(w)
    {
      TaskParts(task, tiling.totalTaskCount, tiling.hg);
      var chunk := task / tiling.hg;
      w := WorkOn(offsets[chunk], offsets[chunk + 1], tiling.t, tiling.numRepeat, task % tiling.hg, aivLane);
      if w.HasWork() {
        WorkShaped(offsets[chunk], offsets[chunk + 1], tiling.t, tiling.numRepeat, task % tiling.hg, aivLane);
      }
    }

    // ---------------------------------------------------------------- the fused step

    // One chunk of the fused step, up to and including its multiplies.
    method FusedHalf(w: Work, round: int, reuse: bool) returns (gates: GateBatch)
      requires gQueue == betaQueue == GateQueue([], 0) && acquired && w.HasWork() && w.totalHeads <= 2
      modifies this`gQueue, this`betaQueue, this`trace
      ensures gQueue == betaQueue == GateQueue([], 0)
      ensures gates == BatchAt(w, 0)
      ensures trace == old(trace) + RoundOps(w, round, reuse)
    {
      RoundIsHalf(w, round, reuse);
      PrefetchGateAndBetaBatch(BatchAt(w, 0));
      WaitAndLoad(w, round);
      var betas;
      gates, betas := DeQueGates();
      ReleaseSlot(round, reuse);
      trace := trace + MultipliesOf(BatchTiles(gates, w, round));
      FreeGates();
    }

    method RunFused(w0: Work, w1: Work, round: int, count: int)
      requires Holding([]) && w0.HasWork() && w1.HasWork() && w0.totalHeads <= 2 && w1.totalHeads <= 2
      modifies this
      ensures Holding([])
      ensures trace == old(trace)
        + (RoundOps(w0, round, round + 2 < count) + RoundOps(w1, round + 1, round + 3 < count))
      ensures handed == old(handed)
        + [Batch(CopyOut.QueuedChunkPair(w0.firstHead, w0.start, w0.totalHeads),
                 FusedTiles(BatchAt(w0, 0), BatchAt(w1, 0), w0.totalHeads, round))]
    {
      AcquireOutput();
      Associate(trace, RoundOps(w0, round, round + 2 < count), RoundOps(w1, round + 1, round + 3 < count));
      var g0 := FusedHalf(w0, round, round + 2 < count);
      var g1 := FusedHalf(w1, round + 1, round + 1 + 2 < count);
      handed := handed + [Batch(CopyOut.QueuedChunkPair(w0.firstHead, w0.start, w0.totalHeads),
                                FusedTiles(g0, g1, w0.totalHeads, round))];
      acquired := false;
    }

    method FuseFullChunks(start0: int, start1: int, firstHead: int, heads: int, round: int, count: int)
      requires Valid() && 1 <= heads <= 2 && start1 == start0 + 64
      modifies this
      ensures Valid()
      ensures trace == old(trace) + TwoWorks(start0, firstHead, heads, round, count)
      ensures handed == old(handed) + [FusedOut(firstHead, start0, start0 + 64, heads, round)]
    {
      RunFused(FullWork(start0, firstHead, heads), FullWork(start1, firstHead, heads), round, count);
    }

    /** Two adjacent full chunks in one step refine the two ordinary tasks: the same waits, loads, slot
        releases, reuse decisions and multiplies in the same order, and the same tiles. */
    method ProcessAdjacentFullChunk(firstChunk: int, kvHead: int, round: int, count: int, ghost w0: Work, ghost w1: Work)
      requires Valid() && 0 <= aivLane <= 1 && 0 <= firstChunk && firstChunk + 1 < |offsets|
      requires offsets[firstChunk + 1] == offsets[firstChunk] + 64
      requires w0 == FullWork(offsets[firstChunk], kvHead * 3 + aivLane, if aivLane == 1 then 2 else 1)
      requires w1 == FullWork(offsets[firstChunk + 1], kvHead * 3 + aivLane, if aivLane == 1 then 2 else 1)
      modifies this
      ensures Valid()
      ensures trace == old(trace)
        + (RoundOps(w0, round, round + 2 < count) + RoundOps(w1, round + 1, round + 3 < count))
      ensures handed == old(handed) + [FusedOut(w0.firstHead, w0.start, w0.start + 64, w0.totalHeads, round)]
    {
      FuseFullChunks(offsets[firstChunk], offsets[firstChunk + 1], kvHead * 3 + aivLane, if aivLane == 1 then 2 else 1,
                     round, count);
    }

    // ---------------------------------------------------------------- the walkers

    /** The first n rounds of the given work are done, every tile is handed to the ring, and in the batches
        the whole walk hands over. */
    ghost predicate Walked(works: seq<Work>, n: int)
      reads this
    {
      Valid() && RoundsDone(works, tiling.numRepeat == 3, n, trace, handed)
    }

    // The rounds the schedule gives this lane.
    ghost function Works(): seq<Work>
      requires Configured()
    {
      LaneWorks(tiling, offsets, groupId, aivLane)
    }

    // One ordinary round.
    method Round(task: int, round: int, reuse: bool, ghost works: seq<Work>)
      requires Launch(tiling, offsets) && 0 <= aivLane <= 1 && 0 <= task < tiling.totalTaskCount
      requires Walked(works, round) && round < |works|
      requires works[round] == TaskWork(tiling, offsets, task, aivLane) && reuse == (round + 2 < |works|)
      requires tiling.numRepeat != 3 || round + 1 == |works| || !Adjacent(works[round], works[round + 1])
      modifies this
      ensures Walked(works, round + 1)
    {
      ghost var before, batches := trace, handed;
      ProcessPipelineTask(task, round, reuse);
      OneRoundDone(works, tiling.numRepeat == 3, round, before, batches, trace, handed);
    }

    // Two fused rounds.
    method FusedRounds(chunk: int, kvHead: int, round: int, count: int, ghost works: seq<Work>)
      requires 0 <= aivLane <= 1 && Walked(works, round) && count == |works| && round + 1 < count
      requires TwoFullChunks(tiling, offsets, chunk, kvHead)
      requires OfTask(tiling, offsets, aivLane, chunk, kvHead, works[round])
      requires OfTask(tiling, offsets, aivLane, chunk + 1, kvHead, works[round + 1])
      modifies this
      ensures Walked(works, round + 2)
    {
      AdjacentChunks(tiling, offsets, aivLane, chunk, kvHead, works[round], works[round + 1]);
      FusedWorks(tiling, offsets, chunk, kvHead, aivLane, works[round], works[round + 1]);
      ghost var before, batches := trace, handed;
      ProcessAdjacentFullChunk(chunk, kvHead, round, count, works[round], works[round + 1]);
      TwoRoundsDone(works, round, before, batches, trace, handed);
    }

    method ProcessCyclic()
      requires Configured() && Walked(Works(), 0) && ModeOf(tiling) == Cyclic
      modifies this
      ensures Walked(Works(), |Works()|)
    {
      CyclicIsLane(tiling, offsets, groupId, aivLane);
      WalkCyclic(CyclicWorks(tiling, offsets, groupId, aivLane));
    }

    method WalkCyclic(ghost works: seq<Work>)
      requires Configured() && works == CyclicWorks(tiling, offsets, groupId, aivLane) && Walked(works, 0)
      requires tiling.numRepeat != 3
      modifies this
      ensures Walked(works, |works|)
    {
      var localRound := 0;
      var taskId := groupId;
      CyclicWalk(tiling, offsets, groupId, aivLane, works, 0);
      while taskId < tiling.totalTaskCount
        invariant 0 <= localRound && taskId == groupId + localRound * tiling.blockDim && Walked(works, localRound)
        invariant taskId < tiling.totalTaskCount <==> localRound < |works|
        decreases tiling.totalTaskCount - taskId
      {
        var willReuseSlot := taskId + 2 * tiling.blockDim < tiling.totalTaskCount;
        CyclicWalk(tiling, offsets, groupId, aivLane, works, localRound);
        CyclicWalk(tiling, offsets, groupId, aivLane, works, localRound + 1);
        Round(taskId, localRound, willReuseSlot, works);
        taskId := taskId + tiling.blockDim;
        localRound := localRound + 1;
      }
    }

    method ProcessGroupAligned()
      requires Configured() && Walked(Works(), 0) && ModeOf(tiling) == GroupAligned && tiling.numRepeat != 3
      modifies this
      ensures Walked(Works(), |Works()|)
    {
      ghost var works := Works();
      var localTaskCount := TaskCount(tiling, offsets, groupId);
      var localRound := 0;
      while localRound < localTaskCount
        invariant 0 <= localRound <= localTaskCount && Walked(works, localRound)
      {
        var taskId := Task(tiling, offsets, groupId, localRound);
        assert works[localRound] == RoundWork(tiling, offsets, groupId, aivLane, localRound);
        Round(taskId, localRound, localRound + 2 < localTaskCount, works);
        localRound := localRound + 1;
      }
    }

    // The next one or two rounds of an R = 3 walker: fused when the next round is the head's next chunk
    // and both chunks are full.
    method NextRounds(chunkId: int, kvHeadId: int, localRound: int, localTaskCount: int, pair: bool, ghost works: seq<Work>)
      returns (next: int)
      requires 0 <= aivLane <= 1 && tiling.numRepeat == 3 && Walked(works, localRound)
      requires localRound < localTaskCount == |works| && OfTask(tiling, offsets, aivLane, chunkId, kvHeadId, works[localRound])
      requires pair ==> localRound + 1 < localTaskCount
                        && OfTask(tiling, offsets, aivLane, chunkId + 1, kvHeadId, works[localRound + 1])
      requires !pair && localRound + 1 < localTaskCount ==> !Adjacent(works[localRound], works[localRound + 1])
      modifies this
      ensures next == localRound + 1 || next == localRound + 2
      ensures next == localRound + 2 <==> localRound + 1 < localTaskCount && Adjacent(works[localRound], works[localRound + 1])
      ensures next == localRound + 2 ==> pair
      ensures Walked(works, next)
    {
      if pair { AdjacentChunks(tiling, offsets, aivLane, chunkId, kvHeadId, works[localRound], works[localRound + 1]); }
      if pair && CanFuseAdjacentFullChunks(offsets, chunkId, tiling.t) {
        FusedRounds(chunkId, kvHeadId, localRound, localTaskCount, works);
        return localRound + 2;
      }
      Round(chunkId * tiling.hg + kvHeadId, localRound, localRound + 2 < localTaskCount, works);
      return localRound + 1;
    }

    method ProcessGroupAlignedR3()
      requires Configured() && Walked(Works(), 0) && ModeOf(tiling) == GroupAligned && tiling.numRepeat == 3
      modifies this
      ensures Walked(Works(), |Works()|)
    {
      var kvHeadId, chunkStart, localTaskCount := AlignedRange();
      AlignedRun(tiling, offsets, groupId, aivLane, Works());
      WalkChunks(kvHeadId, chunkStart, localTaskCount, Works());
    }

    method WalkChunks(kvHeadId: int, chunkStart: int, localTaskCount: int, ghost works: seq<Work>)
      requires 0 <= aivLane <= 1 && tiling.numRepeat == 3 && Walked(works, 0) && localTaskCount == |works|
      requires ChunkRun(tiling, offsets, aivLane, chunkStart, kvHeadId, works)
      modifies this
      ensures Walked(works, |works|)
    {
      var chunkEnd := chunkStart + localTaskCount;
      var chunkId, localRound := chunkStart, 0;
      while chunkId < chunkEnd
        invariant 0 <= localRound <= localTaskCount && chunkId == chunkStart + localRound
        invariant Walked(works, localRound)
        decreases chunkEnd - chunkId
      {
        var next := ChunkRounds(kvHeadId, chunkId, chunkStart, localRound, localTaskCount, works);
        chunkId, localRound := chunkId + (next - localRound), next;
      }
      assert localRound == |works|;
    }

    // The next one or two chunks of the run.
    method ChunkRounds(kvHeadId: int, chunkId: int, ghost chunkStart: int, localRound: int, localTaskCount: int,
                       ghost works: seq<Work>)
      returns (next: int)
      requires chunkId == chunkStart + localRound
      requires 0 <= aivLane <= 1 && tiling.numRepeat == 3 && Walked(works, localRound)
      requires localRound < localTaskCount == |works| && ChunkRun(tiling, offsets, aivLane, chunkStart, kvHeadId, works)
      modifies this
      ensures localRound < next <= localTaskCount && Walked(works, next)
    {
      var pair := localRound + 1 < localTaskCount;
      assert OfTask(tiling, offsets, aivLane, chunkStart + localRound, kvHeadId, works[localRound]);
      assert pair ==> OfTask(tiling, offsets, aivLane, chunkStart + (localRound + 1), kvHeadId, works[localRound + 1]);
      next := NextRounds(chunkId, kvHeadId, localRound, localTaskCount, pair, works);
    }

    // The group's KV head, first chunk and number of chunks.
    method AlignedRange() returns (kvHeadId: int, chunkStart: int, localTaskCount: int)
      requires Configured() && ModeOf(tiling) == GroupAligned
      ensures kvHeadId == KvHeadOf(tiling, offsets, groupId) && chunkStart == FirstChunk(tiling, offsets, groupId)
      ensures localTaskCount == |Works()|
    {
      CoresDivide(tiling.hg, tiling.blockDim);
      var numChunks, cores := tiling.totalTaskCount / tiling.hg, tiling.blockDim / tiling.hg;
      kvHeadId := groupId / cores;
      var coreInKvGroup := groupId - kvHeadId * cores;
      assert groupId % cores == coreInKvGroup;
      chunkStart := ChunkStart(coreInKvGroup, cores, numChunks);
      localTaskCount := CoreCount(coreInKvGroup, cores, numChunks);
    }

    method ProcessChunkLocal()
      requires Configured() && Walked(Works(), 0) && ModeOf(tiling) == ChunkLocal && tiling.numRepeat == 3
      modifies this
      ensures Walked(Works(), |Works()|)
    {
      var numChunks, begin, end := StreamRange();
      var kvHeadId := begin / numChunks;
      var chunkId := begin - kvHeadId * numChunks;
      ghost var path := StreamPath(begin, numChunks, |Works()|);
      PathStarts(begin, numChunks, |Works()|);
      StreamedRun(tiling, offsets, groupId, aivLane, Works());
      WalkStream(numChunks, begin, end, kvHeadId, chunkId, path, Works());
    }

    // The incremental walk over the stream.
    method WalkStream(numChunks: int, begin: int, end: int, kvHead: int, chunk: int,
                      ghost path: seq<Position>, ghost works: seq<Work>)
      requires 0 <= aivLane <= 1 && tiling.numRepeat == 3 && Walked(works, 0) && end - begin == |works|
      requires StreamRun(tiling, offsets, aivLane, path, numChunks, works)
      requires works != [] ==> path[0] == Position(kvHead, chunk)
      modifies this
      ensures Walked(works, |works|)
    {
      var localTaskCount := end - begin;
      var ordinal, localRound := begin, 0;
      var kvHeadId, chunkId := kvHead, chunk;
      while ordinal < end
        invariant 0 <= localRound <= localTaskCount && ordinal == begin + localRound
        invariant Walked(works, localRound)
        invariant localRound < localTaskCount ==> path[localRound] == Position(kvHeadId, chunkId)
        decreases end - ordinal
      {
        var next;
        next, kvHeadId, chunkId := StreamAdvance(localRound, chunkId, kvHeadId, localTaskCount, numChunks, path, works);
        ordinal, localRound := ordinal + (next - localRound), next;
      }
    }

    // One iteration: one or two rounds, then the wrap to chunk 0 of the next head.
    method StreamAdvance(localRound: int, chunk: int, kvHead: int, localTaskCount: int, numChunks: int,
                         ghost path: seq<Position>, ghost works: seq<Work>)
      returns (next: int, kvHeadId: int, chunkId: int)
      requires 0 <= aivLane <= 1 && tiling.numRepeat == 3 && Walked(works, localRound)
      requires localRound < localTaskCount == |works| && StreamRun(tiling, offsets, aivLane, path, numChunks, works)
      requires path[localRound] == Position(kvHead, chunk)
      modifies this
      ensures localRound < next <= localTaskCount && Walked(works, next)
      ensures next < localTaskCount ==> path[next] == Position(kvHeadId, chunkId)
    {
      next := StreamRounds(localRound, chunk, kvHead, localTaskCount, numChunks, path, works);
      kvHeadId, chunkId := kvHead, chunk + (next - localRound);
      if chunkId >= numChunks {
        kvHeadId := kvHeadId + 1;
        chunkId := chunkId - numChunks;
      }
    }

    // The next one or two positions of the stream, inside one head.
    method StreamRounds(localRound: int, chunkId: int, kvHeadId: int, localTaskCount: int, numChunks: int,
                        ghost path: seq<Position>, ghost works: seq<Work>)
      returns (next: int)
      requires 0 <= aivLane <= 1 && tiling.numRepeat == 3 && Walked(works, localRound)
      requires localRound < localTaskCount == |works| && StreamRun(tiling, offsets, aivLane, path, numChunks, works)
      requires path[localRound] == Position(kvHeadId, chunkId)
      modifies this
      ensures localRound < next <= localTaskCount && Walked(works, next)
      ensures next < localTaskCount ==> path[next] == Advanced(kvHeadId, chunkId, next - localRound, numChunks)
    {
      var pair := localRound + 1 < localTaskCount && chunkId + 1 < numChunks;
      PathAt(path, numChunks, localRound);
      if localRound + 1 < localTaskCount { PathAt(path, numChunks, localRound + 1); }
      RunAt(tiling, offsets, aivLane, path, numChunks, works, localRound);
      if localRound + 1 < localTaskCount {
        RunAt(tiling, offsets, aivLane, path, numChunks, works, localRound + 1);
        if !pair {
          OtherHead(tiling, offsets, aivLane, chunkId, kvHeadId, path[localRound + 1].chunk, kvHeadId + 1,
                    works[localRound], works[localRound + 1]);
        }
      }
      next := NextRounds(chunkId, kvHeadId, localRound, localTaskCount, pair, works);
    }

    // The number of chunks and the group's range of the head-major stream.
    method StreamRange() returns (numChunks: int, begin: int, end: int)
      requires Configured() && ModeOf(tiling) == ChunkLocal
      ensures numChunks == tiling.totalTaskCount / tiling.hg >= 1
      ensures begin == StreamBegin(tiling, offsets, groupId) >= 0
      ensures end - begin == |Works()|
    {
      ChunksPositive(tiling.totalTaskCount, tiling.hg);
      numChunks := tiling.totalTaskCount / tiling.hg;
      begin := tiling.totalTaskCount * groupId / tiling.blockDim;
      end := tiling.totalTaskCount * (groupId + 1) / tiling.blockDim;
      BeginEnds(tiling.totalTaskCount, tiling.blockDim);
      BeginMono(tiling.totalTaskCount, tiling.blockDim, 0, groupId);
    }

    /** A lane's whole run, in any mode: round by round exactly the tasks of the cube core's schedule,
        every tile multiplied handed to the output ring once. */
    method Process()
      requires Configured() && Valid() && trace == [] && handed == []
      modifies this
      ensures Valid() && trace == LaneTrace(tiling, offsets, groupId, aivLane)
      ensures handed == LaneBatches(LaneWorks(tiling, offsets, groupId, aivLane), tiling.numRepeat == 3, 0)
      ensures Accounted(handed, trace)
    {
      Walk();
      BeforeAndAfter(Works(), tiling.numRepeat == 3, |Works()|);
      LaneShapely(tiling, offsets, groupId, aivLane);
      WholeAccounted(Works(), tiling.numRepeat == 3,
                     RepeatEnd(tiling.numRepeat, aivLane) - FirstRepeat(tiling.numRepeat, aivLane));
    }

    method Walk()
      requires Configured() && Walked(Works(), 0)
      modifies this
      ensures Walked(Works(), |Works()|)
    {
      if UseChampionGroupAlignedSchedule(tiling) {
        if tiling.numRepeat == 3 { ProcessGroupAlignedR3(); } else { ProcessGroupAligned(); }
      } else if tiling.numRepeat == 3 {
        ProcessChunkLocal();
      } else {
        ProcessCyclic();
      }
    }
  }
}
