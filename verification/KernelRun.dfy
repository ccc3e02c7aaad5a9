/** A whole launch, from the input tensors to the output memory: every group's pipes interleaved on their
    buffers, the lanes' walks, array pipelines and output rings, and every copy performed in some order. */
module KernelRun {
  import opened GroupProgram
  import opened GroupRuns
  import opened Schedule
  import opened LaneOps
  import opened Semantics
  import opened Golden
  import opened TensorForm
  import opened HeadTiles
  import opened EndToEnd
  import opened OutputBatches
  import opened Launches
  import opened GroupMachine
  import opened TileLoad
  import opened VectorOps
  import OutputRing
  import VectorLane
  import CopyOut
  import CubeGram

  // ---------------------------------------------------------------- a cube core on its own

  // All parts of the tile in L1.
  method AllParts(l1: array<real>, kDim: int, a2: array<real>, b2: array<real>, c1: array<real>) returns (slot: seq<real>)
    requires CubeGram.KDim(kDim) && l1.Length == 64 * kDim && a2.Length == b2.Length == c1.Length == 4096
    requires a2 != b2 && a2 != c1 && b2 != c1 && l1 != a2 && l1 != b2 && l1 != c1
    modifies a2, b2, c1
    ensures HoldsParts(slot, l1[..], kDim / 64)
  {
    if kDim == 128 {
      CubeGram.ComputeGram128(l1, a2, b2, c1);
    } else {
      CubeGram.ComputeGram256(l1, a2, b2, c1);
    }
    slot := c1[..];
  }

  // One round of a cube core, over buffers that keep their contents between rounds.
  method CubeRound(variant: Variant, x: Inputs, tiling: Tiling, offsets: seq<int>, group: int, r: int,
                   l1: array<real>, a2: array<real>, b2: array<real>, c1: array<real>) returns (slot: seq<real>)
    requires Launch(tiling, offsets) && Matches(x, tiling) && 0 <= group < tiling.blockDim
    requires 0 <= r < Rounds(variant, tiling, offsets, group) && GroupWork(variant, tiling, offsets, group, 0, r).valid
    requires l1.Length == 64 * x.kDim && a2.Length == b2.Length == c1.Length == 4096
    requires a2 != b2 && a2 != c1 && b2 != c1 && l1 != a2 && l1 != b2 && l1 != c1
    modifies l1, a2, b2, c1
    ensures HoldsParts(slot, RoundL1(variant, x, tiling, offsets, group, r), x.kDim / 64)
  {
    var w := GroupWork(variant, tiling, offsets, group, 0, r);
    var kv := GroupTask(variant, tiling, offsets, group, r) % tiling.hg;
    RoundReadable(variant, x, tiling, offsets, group, r);
    CubeGram.CopyPackedKToSharedL1(l1, x.k, KOffset(w.start, kv, x.hg, x.kDim), w.chunkLen, x.hg, x.kDim);
    assert l1[..] == RoundL1(variant, x, tiling, offsets, group, r);
    slot := AllParts(l1, x.kDim, a2, b2, c1);
  }

  /** A cube core running its rounds one after the other: what it commits in each valid round. */
  method CubeTiles(variant: Variant, x: Inputs, tiling: Tiling, offsets: seq<int>, group: int)
    returns (slots: seq<seq<real>>)
    requires Launch(tiling, offsets) && Matches(x, tiling) && 0 <= group < tiling.blockDim
    ensures Committed(variant, x, tiling, offsets, group, slots)
  {
    var l1, a2 := new real[64 * x.kDim], new real[4096];
    var b2, c1 := new real[4096], new real[4096];
    slots := [];
    for r := 0 to Rounds(variant, tiling, offsets, group)
      invariant |slots| == r
      invariant forall q :: 0 <= q < r && GroupWork(variant, tiling, offsets, group, 0, q).valid ==>
        HoldsParts(slots[q], RoundL1(variant, x, tiling, offsets, group, q), x.kDim / 64)
    {
      var slot: seq<real> := [];
      if GroupWork(variant, tiling, offsets, group, 0, r).valid {
        slot := CubeRound(variant, x, tiling, offsets, group, r, l1, a2, b2, c1);
      }
      slots := slots + [slot];
    }
  }

  // ---------------------------------------------------------------- one lane

  /** Every valid chunk of a launch whose lanes handle two heads at once survives the gate copy's 32-bit
      head stride. */
  ghost predicate StridesFit(x: Inputs, tiling: Tiling, offsets: seq<int>) {
    forall c :: tiling.numRepeat >= 3 && 0 <= c && c + 1 < |offsets| && ValidChunk(offsets[c], offsets[c + 1], tiling.t) ==>
      StrideFits(x.t, offsets[c + 1] - offsets[c], 4)
  }

  // The tile can be produced from its round's slot.
  ghost predicate Served(x: Inputs, slots: seq<seq<real>>, tile: HeadTile) {
    0 <= tile.round < |slots| && From(x, tile, slots[tile.round])
  }

  // The tile and the next head's can be produced together.
  ghost predicate Paired(x: Inputs, tile: HeadTile) { SameGroup(x, tile) && Arrives(x, tile.chunkLen, 1) }

  lemma LanePair(x: Inputs, tiling: Tiling, offsets: seq<int>, group: int, lane: int, t0: HeadTile, t1: HeadTile)
    requires Launch(tiling, offsets) && Matches(x, tiling) && 0 <= group < tiling.blockDim && 0 <= lane <= 1
    requires StridesFit(x, tiling, offsets) && HeadPair(t0, t1)
    requires LaneHasTile(tiling, offsets, group, lane, t0) && LaneHasTile(tiling, offsets, group, lane, t1)
    ensures Paired(x, t0)
  {
    RoundTileFits(x, tiling, offsets, group, lane, t0);
    RoundTileFits(x, tiling, offsets, group, lane, t1);
    TwoHeads(tiling.numRepeat, lane);
    var task := Task(tiling, offsets, group, t0.round);
    TaskParts(task, tiling.totalTaskCount, tiling.hg);
    var c := task / tiling.hg;
    assert ValidChunk(offsets[c], offsets[c + 1], tiling.t);
  }

  // A lane owns two heads of a KV group only from three heads on.
  lemma TwoHeads(numRepeat: int, lane: int)
    requires numRepeat >= 1 && 0 <= lane <= 1
    ensures RepeatEnd(numRepeat, lane) - FirstRepeat(numRepeat, lane) >= 2 ==> numRepeat >= 3
  {}

  // A handed batch can be filled.
  ghost predicate Fillable(x: Inputs, slots: seq<seq<real>>, b: VectorLane.Out) {
    && Made(b.record, b.data) && (forall i :: 0 <= i < |b.data| ==> Served(x, slots, b.data[i]))
    && forall i, j :: 0 <= i < |b.data| && 0 <= j < |b.data| && HeadPair(b.data[i], b.data[j]) ==> Paired(x, b.data[i])
  }

  // Load, factor and multiply a batch's tiles into the output buffer.
  method FillBatch(x: Inputs, slots: seq<seq<real>>, b: VectorLane.Out,
                   kkt: array<real>, g: array<real>, beta: array<real>, negG: array<real>, scratch: array<real>,
                   mask: array<bool>, output: array<real>) returns (s: Store)
    requires Fillable(x, slots, b) && GatesLaw(x) && Buffers(kkt, g, beta, negG, scratch, mask, output)
    modifies kkt, g, beta, negG, scratch, mask, output
    ensures GoodStore(x, s) && s.tiles == b.data && s.queued == b.record && s.buffer == output[..]
  {
    var tile := b.data[0];
    assert Served(x, slots, tile);
    match b.record
    case QueuedSingle(_, _, _, _) =>
      s := SingleBatch(x, slots[tile.round], tile, kkt, g, beta, negG, scratch, mask, output);
    case QueuedPair(_, _, _) =>
      assert HeadPair(tile, b.data[1]);
      s := PairBatch(x, slots[tile.round], tile, kkt, g, beta, negG, scratch, mask, output);
    case QueuedChunkPair(_, _, heads) =>
      var next := b.data[1];
      assert Served(x, slots, next);
      if heads == 1 {
        s := ChunkPairBatch(x, slots[tile.round], slots[next.round], tile, next,
                            kkt, g, beta, negG, scratch, mask, output);
      } else {
        assert HeadPair(tile, b.data[2]) && HeadPair(next, b.data[3]);
        s := HeavyChunkPairBatch(x, slots[tile.round], slots[next.round], tile, next,
                                 kkt, g, beta, negG, scratch, mask, output);
      }
  }

  // A batch as the output ring takes it: copy record and buffer contents.
  type Filled = OutputRing.Batch<CopyOut.Queued, seq<real>>

  function StoreOf(b: VectorLane.Out, f: Filled): Store { Store(f.record, b.data, f.data) }

  // Every handed batch, filled; the lane's buffers are reused from batch to batch.
  method FillAll(x: Inputs, slots: seq<seq<real>>, handed: seq<VectorLane.Out>) returns (filled: seq<Filled>)
    requires GatesLaw(x) && forall i :: 0 <= i < |handed| ==> Fillable(x, slots, handed[i])
    ensures |filled| == |handed|
    ensures forall i :: 0 <= i < |handed| ==> GoodStore(x, StoreOf(handed[i], filled[i]))
  {
    var kkt, g, beta := new real[KKT_ELEMS], new real[128], new real[128];
    var negG, scratch, mask := new real[128], new real[1024], new bool[2 * KKT_ELEMS];
    var output := new real[4 * KKT_ELEMS];
    filled := [];
    for n := 0 to |handed|
      invariant |filled| == n
      invariant forall i :: 0 <= i < n ==> GoodStore(x, StoreOf(handed[i], filled[i]))
    {
      var s := FillBatch(x, slots, handed[n], kkt, g, beta, negG, scratch, mask, output);
      filled := filled + [OutputRing.Batch(s.queued, s.buffer)];
    }
  }

  lemma {:induction false} InAllTiles(bs: seq<VectorLane.Out>, tile: HeadTile)
    ensures tile in VectorLane.AllTiles(bs) <==> exists i :: 0 <= i < |bs| && tile in bs[i].data
  {
    if bs != [] {
      var front := bs[..|bs| - 1];
      InAllTiles(front, tile);
      if i :| 0 <= i < |front| && tile in front[i].data { assert tile in bs[i].data; }
      if i :| 0 <= i < |bs| && tile in bs[i].data { assert i < |front| ==> tile in front[i].data; }
    }
  }

  // The batches a lane hands over carry exactly its tiles ...
  lemma HandedTiles(tiling: Tiling, offsets: seq<int>, group: int, lane: int, handed: seq<VectorLane.Out>, tile: HeadTile)
    requires Launch(tiling, offsets) && 0 <= group < tiling.blockDim && 0 <= lane <= 1
    requires VectorLane.Accounted(handed, LaneTrace(tiling, offsets, group, lane))
    ensures (exists i :: 0 <= i < |handed| && tile in handed[i].data) <==> LaneHasTile(tiling, offsets, group, lane, tile)
  {
    InAllTiles(handed, tile);
    HandedTile(tiling, offsets, group, lane, handed, tile);
  }

  // ... and each can be filled from what the lane reads.
  lemma HandedFillable(x: Inputs, tiling: Tiling, offsets: seq<int>, group: int, lane: int, slots: seq<seq<real>>,
                       handed: seq<VectorLane.Out>, n: int)
    requires Launch(tiling, offsets) && Matches(x, tiling) && 0 <= group < tiling.blockDim && 0 <= lane <= 1
    requires StridesFit(x, tiling, offsets) && 0 <= n < |handed|
    requires VectorLane.Accounted(handed, LaneTrace(tiling, offsets, group, lane))
    requires forall tile :: LaneHasTile(tiling, offsets, group, lane, tile) ==> Served(x, slots, tile)
    ensures Fillable(x, slots, handed[n])
  {
    var tiles := handed[n].data;
    forall i | 0 <= i < |tiles|
      ensures LaneHasTile(tiling, offsets, group, lane, tiles[i])
    {
      HandedTiles(tiling, offsets, group, lane, handed, tiles[i]);
      assert tiles[i] in handed[n].data;
    }
    forall i, j | 0 <= i < |tiles| && 0 <= j < |tiles| && HeadPair(tiles[i], tiles[j])
      ensures Paired(x, tiles[i])
    {
      LanePair(x, tiling, offsets, group, lane, tiles[i], tiles[j]);
    }
  }

  /** One lane's run: it walks its schedule, fills every batch from the slots it reads, and its ring
      stores them.  The copies carry exactly the lane's tiles, each with the formula's values. */
  method RunLane(x: Inputs, tiling: Tiling, offsets: seq<int>, group: int, lane: int, slots: seq<seq<real>>)
    returns (log: seq<Store>)
    requires Launch(tiling, offsets) && Matches(x, tiling) && 0 <= group < tiling.blockDim && 0 <= lane <= 1
    requires GatesLaw(x) && StridesFit(x, tiling, offsets)
    requires forall tile :: LaneHasTile(tiling, offsets, group, lane, tile) ==> Served(x, slots, tile)
    ensures GoodLog(x, log)
    ensures forall tile :: InLog(log, tile) <==> LaneHasTile(tiling, offsets, group, lane, tile)
  {
    var handed := WalkLane(tiling, offsets, group, lane);
    forall n | 0 <= n < |handed|
      ensures Fillable(x, slots, handed[n])
    {
      HandedFillable(x, tiling, offsets, group, lane, slots, handed, n);
    }
    var filled := FillAll(x, slots, handed);
    var stored := StoreFilled(filled);
    log := seq(|handed|, i requires 0 <= i < |handed| => StoreOf(handed[i], stored[i]));
    forall tile
      ensures InLog(log, tile) <==> LaneHasTile(tiling, offsets, group, lane, tile)
    {
      HandedTiles(tiling, offsets, group, lane, handed, tile);
      SameTiles(handed, stored, log, tile);
    }
  }

  lemma SameTiles(handed: seq<VectorLane.Out>, stored: seq<Filled>, log: seq<Store>, tile: HeadTile)
    requires |log| == |handed| == |stored|
    requires forall i :: 0 <= i < |log| ==> log[i] == StoreOf(handed[i], stored[i])
    ensures InLog(log, tile) <==> exists i :: 0 <= i < |handed| && tile in handed[i].data
  {
    if i :| 0 <= i < |handed| && tile in handed[i].data { assert tile in log[i].tiles; }
    if i :| 0 <= i < |log| && tile in log[i].tiles { assert tile in handed[i].data; }
  }

  method WalkLane(tiling: Tiling, offsets: seq<int>, group: int, lane: int) returns (handed: seq<VectorLane.Out>)
    requires Launch(tiling, offsets) && 0 <= group < tiling.blockDim && 0 <= lane <= 1
    ensures VectorLane.Accounted(handed, LaneTrace(tiling, offsets, group, lane))
  {
    var stage := new VectorLane.VectorStage(tiling, offsets, group, lane);
    stage.Process();
    handed := stage.handed;
  }

  method StoreFilled(filled: seq<Filled>) returns (stored: seq<Filled>)
    ensures stored == filled
  {
    var ring := new OutputRing.Ring<CopyOut.Queued, seq<real>>(CopyOut.QueuedSingle(0, 0, 0, 0), []);
    ring.StoreAll(filled);
    stored := ring.stored;
  }

  // ---------------------------------------------------------------- all groups

  /** In every group some interleaving of the pipes has run to its end. */
  ghost predicate AllRan(variant: Variant, tiling: Tiling, offsets: seq<int>, schedules: seq<seq<Pipe>>)
    requires Launch(tiling, offsets)
  {
    && |schedules| == tiling.blockDim
    && forall group :: 0 <= group < tiling.blockDim ==>
         FinishedRun(ConfigOf(variant, tiling, offsets, group), schedules[group])
  }

  /** A released launch on inputs it can be proved right for. */
  ghost predicate Supported(variant: Variant, x: Inputs, tiling: Tiling, offsets: seq<int>) {
    && Launch(tiling, offsets) && Matches(x, tiling) && Released(variant) && GroupRuns.Fits(variant, x.kDim)
    && GatesLaw(x) && PitchesFit(x, tiling, offsets) && StridesFit(x, tiling, offsets)
  }

  lemma InBoth(a: seq<Store>, b: seq<Store>, tile: HeadTile)
    ensures InLog(a + b, tile) <==> InLog(a, tile) || InLog(b, tile)
  {
    if i :| 0 <= i < |a| && tile in a[i].tiles { assert tile in (a + b)[i].tiles; }
    if i :| 0 <= i < |b| && tile in b[i].tiles { assert tile in (a + b)[|a| + i].tiles; }
  }

  // One of the group's lanes has the tile.
  ghost predicate GroupHasTile(tiling: Tiling, offsets: seq<int>, group: int, tile: HeadTile)
    requires Launch(tiling, offsets) && 0 <= group < tiling.blockDim
  {
    LaneHasTile(tiling, offsets, group, 0, tile) || LaneHasTile(tiling, offsets, group, 1, tile)
  }

  // Uninitialised memory.
  method AnyBuffer(size: nat) returns (s: seq<real>)
    ensures |s| == size
  {
    var a := new real[size];
    s := a[..];
  }

  method AnyBuffers(count: nat, size: nat) returns (buffers: seq<seq<real>>)
    ensures AllOfSize(buffers, count, size)
  {
    buffers := [];
    for i := 0 to count
      invariant AllOfSize(buffers, i, size)
    {
      var s := AnyBuffer(size);
      buffers := buffers + [s];
    }
  }

  method AnyStart(kDim: nat, rounds: nat) returns (b: Memory)
    ensures Sized(b, kDim, rounds)
  {
    var l1 := AnyBuffers(2, 64 * kDim);
    var l0a := AnyBuffers(4, 4096);
    var l0b := AnyBuffers(4, 4096);
    var c1 := AnyBuffer(4096);
    var gm := AnyBuffers(2, 4096);
    var ub := AnyBuffers(2, 4096);
    var nothing := seq(rounds, _ => []);
    b := Memory(l1, l0a, l0b, c1, gm, ub, [nothing, nothing]);
  }

  /** One group's run: its pipes interleave as the schedule says, and each lane fills its batches from the
      tiles it took. */
  method RunGroup(variant: Variant, x: Inputs, tiling: Tiling, offsets: seq<int>, group: int, schedule: seq<Pipe>)
    returns (log: seq<Store>)
    requires Supported(variant, x, tiling, offsets) && 0 <= group < tiling.blockDim
    requires FinishedRun(ConfigOf(variant, tiling, offsets, group), schedule)
    ensures GoodLog(x, log) && forall tile :: InLog(log, tile) <==> GroupHasTile(tiling, offsets, group, tile)
  {
    var start := AnyStart(x.kDim, Rounds(variant, tiling, offsets, group));
    var taken := RunProtocol(variant, x, tiling, offsets, group, schedule, start);
    LaneServed(variant, x, tiling, offsets, group, 0, schedule, taken[0]);
    var log0 := RunLane(x, tiling, offsets, group, 0, taken[0]);
    LaneServed(variant, x, tiling, offsets, group, 1, schedule, taken[1]);
    var log1 := RunLane(x, tiling, offsets, group, 1, taken[1]);
    log := log0 + log1;
    forall tile
      ensures InLog(log, tile) <==> GroupHasTile(tiling, offsets, group, tile)
    {
      InBoth(log0, log1, tile);
    }
  }

  lemma LaneServed(variant: Variant, x: Inputs, tiling: Tiling, offsets: seq<int>, group: int, lane: int,
                   schedule: seq<Pipe>, taken: seq<seq<real>>)
    requires Supported(variant, x, tiling, offsets) && 0 <= group < tiling.blockDim && 0 <= lane <= 1
    requires FinishedRun(ConfigOf(variant, tiling, offsets, group), schedule)
    requires ReadBy(SeenBy(ConfigOf(variant, tiling, offsets, group), schedule, lane),
                    L1Tiles(variant, x, tiling, offsets, group), taken)
    ensures forall tile :: LaneHasTile(tiling, offsets, group, lane, tile) ==> Served(x, taken, tile)
  {
    forall tile | LaneHasTile(tiling, offsets, group, lane, tile)
      ensures Served(x, taken, tile)
    {
      ReadFits(variant, x, tiling, offsets, group, lane, schedule, taken, tile);
    }
  }

  // Some group below n has the tile.
  ghost predicate SomeGroup(tiling: Tiling, offsets: seq<int>, n: int, tile: HeadTile)
    requires Launch(tiling, offsets) && n <= tiling.blockDim
  {
    exists group :: 0 <= group < n && GroupHasTile(tiling, offsets, group, tile)
  }

  lemma NextGroup(tiling: Tiling, offsets: seq<int>, n: int, tile: HeadTile)
    requires Launch(tiling, offsets) && 0 <= n < tiling.blockDim
    ensures SomeGroup(tiling, offsets, n + 1, tile)
       <==> SomeGroup(tiling, offsets, n, tile) || GroupHasTile(tiling, offsets, n, tile)
  {
    if GroupHasTile(tiling, offsets, n, tile) { assert SomeGroup(tiling, offsets, n + 1, tile); }
  }

  lemma AllGroups(tiling: Tiling, offsets: seq<int>, tile: HeadTile)
    requires Launch(tiling, offsets)
    ensures SomeGroup(tiling, offsets, tiling.blockDim, tile) <==> KernelTile(tiling, offsets, tile)
  {
    if group, lane :| 0 <= group < tiling.blockDim && 0 <= lane <= 1 && LaneHasTile(tiling, offsets, group, lane, tile) {
      assert lane == 0 || lane == 1;
      assert GroupHasTile(tiling, offsets, group, tile);
    }
  }

  /** All copies of a launch: exactly the lanes' tiles, each filled with the formula. */
  method RunGroups(variant: Variant, x: Inputs, tiling: Tiling, offsets: seq<int>, schedules: seq<seq<Pipe>>)
    returns (log: seq<Store>)
    requires Supported(variant, x, tiling, offsets) && AllRan(variant, tiling, offsets, schedules)
    ensures CompleteLog(x, tiling, offsets, log)
  {
    log := [];
    for n := 0 to tiling.blockDim
      invariant GoodLog(x, log)
      invariant forall tile :: InLog(log, tile) <==> SomeGroup(tiling, offsets, n, tile)
    {
      var more := RunGroup(variant, x, tiling, offsets, n, schedules[n]);
      forall tile
        ensures InLog(log + more, tile) <==> SomeGroup(tiling, offsets, n + 1, tile)
      {
        InBoth(log, more, tile);
        NextGroup(tiling, offsets, n, tile);
      }
      log := log + more;
    }
    forall tile
      ensures InLog(log, tile) <==> KernelTile(tiling, offsets, tile)
    {
      AllGroups(tiling, offsets, tile);
    }
  }

  // ---------------------------------------------------------------- the output memory

  function OutputSize(x: Inputs): int { Heads(x) * x.t * 64 }

  lemma AddrInside(x: Inputs, head: int, row: int, j: int)
    requires Shaped(x) && 0 <= head < Heads(x) && 0 <= row < x.t && 0 <= j < 64
    ensures 0 <= (head * x.t + row) * 64 + j == Addr(head, row, j, x.t) < OutputSize(x)
  {
    CopyOut.InsideOutput(head, row, 1, x.t, Heads(x));
  }

  /** Element (head, row, j) of the output tensor. */
  ghost function At(x: Inputs, out: seq<real>, head: int, row: int, j: int): real
    requires Shaped(x) && |out| == OutputSize(x) && 0 <= head < Heads(x) && 0 <= row < x.t && 0 <= j < 64
  {
    AddrInside(x, head, row, j);
    out[(head * x.t + row) * 64 + j]
  }

  // Every record of a good log lies inside the output.
  lemma StoreFits(x: Inputs, s: Store)
    requires Shaped(x) && GoodStore(x, s)
    ensures CopyOut.Fits(CopyOut.RecordOf(s.queued, x.t), x.t, OutputSize(x))
  {
    var tile := s.tiles[0];
    assert TileFits(x, tile);
    assert |s.tiles| >= 2 ==> TileFits(x, s.tiles[1]);
    assert |s.tiles| == 4 ==> TileFits(x, s.tiles[2]);
    CopyOut.QueuedFit(tile.head, tile.start, tile.rowStart, tile.rowCount, x.t, Heads(x));
  }

  // MTE3 performs one copy.
  method PerformStore(x: Inputs, s: Store, out: array<real>)
    requires Shaped(x) && GoodStore(x, s) && out.Length == OutputSize(x)
    modifies out
    ensures forall a :: 0 <= a < out.Length ==> out[a] == CellAfter(x, s, a, old(out[a]))
  {
    StoreFits(x, s);
    CopyOut.LaunchReadyOutput(out, s.buffer, CopyOut.RecordOf(s.queued, x.t), x.t);
  }

  // All copies of the lanes, in any order the MTE3 pipes happen to perform them.
  method PerformAll(x: Inputs, log: seq<Store>, out: array<real>) returns (ghost order: seq<Store>)
    requires Shaped(x) && GoodLog(x, log) && out.Length == OutputSize(x)
    modifies out
    ensures multiset(order) == multiset(log) && GoodLog(x, order)
    ensures forall a :: 0 <= a < out.Length ==> out[a] == Final(x, order, a, old(out[a]))
  {
    var rest := multiset(log);
    order := [];
    while |rest| > 0
      invariant multiset(order) + rest == multiset(log)
      invariant forall s :: s in rest ==> GoodStore(x, s)
      invariant GoodLog(x, order)
      invariant forall a :: 0 <= a < out.Length ==> out[a] == Final(x, order, a, old(out[a]))
      decreases |rest|
    {
      var s :| s in rest;
      PerformStore(x, s, out);
      assert (order + [s])[..|order|] == order;
      order := order + [s];
      rest := rest - multiset{s};
    }
  }

  /** Every row of a valid chunk holds the formula, every row of another chunk what it held before. */
  ghost predicate Written(x: Inputs, offsets: seq<int>, out: seq<real>, before: seq<real>)
    requires Shaped(x) && |out| == |before| == OutputSize(x)
  {
    forall head, row, j, c | 0 <= head < Heads(x) && 0 <= row < x.t && 0 <= j < 64 && InChunk(offsets, c, row) ::
      At(x, out, head, row, j)
      == if ValidChunk(offsets[c], offsets[c + 1], x.t)
         then Formula(x, head, offsets[c], offsets[c + 1], row - offsets[c], j)
         else At(x, before, head, row, j)
  }

  // Rows that lie in no valid chunk hold what they held before.
  ghost predicate Kept(x: Inputs, offsets: seq<int>, out: seq<real>, before: seq<real>)
    requires Shaped(x) && |out| == |before| == OutputSize(x)
  {
    forall head, row, j | 0 <= head < Heads(x) && 0 <= row < x.t && 0 <= j < 64
      && (forall c | InChunk(offsets, c, row) :: !ValidChunk(offsets[c], offsets[c + 1], x.t)) ::
      At(x, out, head, row, j) == At(x, before, head, row, j)
  }

  /** The released kernel, end to end.  From the input tensors, through any finished interleaving of every
      group's pipes and any order of the copies: with nondecreasing offsets every row of a valid chunk
      holds the formula in all 64 columns, and with any offsets rows of no valid chunk keep their
      contents. */
  method RunKernel(variant: Variant, x: Inputs, tiling: Tiling, offsets: seq<int>, schedules: seq<seq<Pipe>>, out: array<real>)
    requires Supported(variant, x, tiling, offsets) && AllRan(variant, tiling, offsets, schedules)
    requires out.Length == OutputSize(x)
    modifies out
    ensures NonDecreasing(offsets) ==> Written(x, offsets, out[..], old(out[..]))
    ensures Kept(x, offsets, out[..], old(out[..]))
  {
    var log := RunGroups(variant, x, tiling, offsets, schedules);
    ghost var order := PerformAll(x, log, out);
    Reordered(x, tiling, offsets, log, order);
    LogWrites(x, tiling, offsets, order, out[..], old(out[..]));
    LogKeeps(x, tiling, offsets, order, out[..], old(out[..]));
  }

  // The memory after the copies of a log.
  ghost predicate After(x: Inputs, order: seq<Store>, out: seq<real>, before: seq<real>)
    requires GoodLog(x, order)
  {
    |out| == |before| == OutputSize(x) && forall a :: 0 <= a < |out| ==> out[a] == Final(x, order, a, before[a])
  }

  lemma LogWrites(x: Inputs, tiling: Tiling, offsets: seq<int>, order: seq<Store>, out: seq<real>, before: seq<real>)
    requires Launch(tiling, offsets) && Matches(x, tiling) && CompleteLog(x, tiling, offsets, order)
    requires After(x, order, out, before)
    ensures NonDecreasing(offsets) ==> Written(x, offsets, out, before)
  {
    forall head, row, j, c | 0 <= head < Heads(x) && 0 <= row < x.t && 0 <= j < 64 && InChunk(offsets, c, row)
                             && NonDecreasing(offsets)
      ensures At(x, out, head, row, j)
           == if ValidChunk(offsets[c], offsets[c + 1], x.t)
              then Formula(x, head, offsets[c], offsets[c + 1], row - offsets[c], j)
              else At(x, before, head, row, j)
    {
      AddrInside(x, head, row, j);
      KernelOutput(x, tiling, offsets, order, head, row, j, At(x, before, head, row, j), c);
    }
  }

  lemma LogKeeps(x: Inputs, tiling: Tiling, offsets: seq<int>, order: seq<Store>, out: seq<real>, before: seq<real>)
    requires Launch(tiling, offsets) && Matches(x, tiling) && CompleteLog(x, tiling, offsets, order)
    requires After(x, order, out, before)
    ensures Kept(x, offsets, out, before)
  {
    forall head, row, j | 0 <= head < Heads(x) && 0 <= row < x.t && 0 <= j < 64
                          && (forall c | InChunk(offsets, c, row) :: !ValidChunk(offsets[c], offsets[c + 1], x.t))
      ensures At(x, out, head, row, j) == At(x, before, head, row, j)
    {
      AddrInside(x, head, row, j);
      Untouched(x, tiling, offsets, order, head, row, j, At(x, before, head, row, j));
    }
  }

  // The token lies in a chunk, and the position holds that chunk's documented value, on whatever tensors the
  // inputs lay out.
  ghost predicate Expected(x: Inputs, offsets: seq<int>, out: seq<real>, head: int, token: int, j: int)
    requires Shaped(x) && Inside(offsets, x.t) && |out| == OutputSize(x)
    requires 0 <= head < Heads(x) && 0 <= token < x.t && 0 <= j < 64
  {
    && (exists c :: InChunk(offsets, c, token))
    && forall tensors, c | Flattens(tensors, x) && InChunk(offsets, c, token) ::
         At(x, out, head, token, j) == Documented(tensors, x.A, offsets[c], offsets[c + 1], head, token, j)
  }

  /** Every position holds what the example program expects there. */
  ghost predicate AllExpected(x: Inputs, offsets: seq<int>, out: seq<real>)
    requires Shaped(x) && Inside(offsets, x.t) && |out| == OutputSize(x)
  {
    forall head, token, j | 0 <= head < Heads(x) && 0 <= token < x.t && 0 <= j < 64 ::
      Expected(x, offsets, out, head, token, j)
  }

  /** On every case the example program accepts, the whole output is what it expects. */
  method RunAccepted(variant: Variant, x: Inputs, tiling: Tiling, offsets: seq<int>, schedules: seq<seq<Pipe>>, out: array<real>)
    requires Supported(variant, x, tiling, offsets) && AllRan(variant, tiling, offsets, schedules)
    requires out.Length == OutputSize(x) && ValidateCase(x.t, Heads(x), x.hg, x.kDim, offsets)
    modifies out
    ensures Inside(offsets, x.t) && AllExpected(x, offsets, out[..])
  {
    AcceptedCovers(x.t, Heads(x), x.hg, x.kDim, offsets, 0);
    RunKernel(variant, x, tiling, offsets, schedules, out);
    WrittenIsExpected(x, offsets, out[..], old(out[..]));
  }

  lemma WrittenIsExpected(x: Inputs, offsets: seq<int>, out: seq<real>, before: seq<real>)
    requires Shaped(x) && ValidateCase(x.t, Heads(x), x.hg, x.kDim, offsets)
    requires |out| == |before| == OutputSize(x) && Written(x, offsets, out, before)
    ensures Inside(offsets, x.t) && AllExpected(x, offsets, out)
  {
    AcceptedCovers(x.t, Heads(x), x.hg, x.kDim, offsets, 0);
    forall head, token, j | 0 <= head < Heads(x) && 0 <= token < x.t && 0 <= j < 64
      ensures Expected(x, offsets, out, head, token, j)
    {
      PositionExpected(x, offsets, out, before, head, token, j);
    }
  }

  lemma PositionExpected(x: Inputs, offsets: seq<int>, out: seq<real>, before: seq<real>, head: int, token: int, j: int)
    requires Shaped(x) && ValidateCase(x.t, Heads(x), x.hg, x.kDim, offsets) && Inside(offsets, x.t)
    requires |out| == |before| == OutputSize(x) && Written(x, offsets, out, before)
    requires 0 <= head < Heads(x) && 0 <= token < x.t && 0 <= j < 64
    ensures Expected(x, offsets, out, head, token, j)
  {
    AcceptedCovers(x.t, Heads(x), x.hg, x.kDim, offsets, token);
    forall tensors, c | Flattens(tensors, x) && InChunk(offsets, c, token)
      ensures At(x, out, head, token, j) == Documented(tensors, x.A, offsets[c], offsets[c + 1], head, token, j)
    {
      assert GoodChunk(offsets, c, x.t);
      FormulaIsDocumented(tensors, x, head, offsets[c], offsets[c + 1], token - offsets[c], j);
    }
  }

  // ---------------------------------------------------------------- runs exist

  lemma {:induction false} SomeRuns(variant: Variant, tiling: Tiling, offsets: seq<int>, n: nat) returns (schedules: seq<seq<Pipe>>)
    requires Launch(tiling, offsets) && n <= tiling.blockDim
    ensures |schedules| == n
    ensures forall group :: 0 <= group < n ==> FinishedRun(ConfigOf(variant, tiling, offsets, group), schedules[group])
  {
    if n == 0 {
      schedules := [];
    } else {
      var before := SomeRuns(variant, tiling, offsets, n - 1);
      ConfigWellFormed(variant, tiling, offsets, n - 1);
      var run := RunOn(ConfigOf(variant, tiling, offsets, n - 1), []);
      schedules := before + [run];
    }
  }

  /** Every launch has a finished interleaving in every group. */
  lemma RunsExist(variant: Variant, tiling: Tiling, offsets: seq<int>) returns (schedules: seq<seq<Pipe>>)
    requires Launch(tiling, offsets)
    ensures AllRan(variant, tiling, offsets, schedules)
  {
    schedules := SomeRuns(variant, tiling, offsets, tiling.blockDim);
  }
}
