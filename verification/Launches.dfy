/** Where the layers meet: the slot a lane copies in a round is the Gram tile every tile of that round
    needs. */
module Launches {
  import opened GroupProgram
  import opened GroupProgress
  import opened GroupData
  import opened GroupRuns
  import opened Schedule
  import opened LaneOps
  import opened Semantics
  import opened Coverage
  import opened HeadTiles
  import opened EndToEnd
  import opened OutputBatches
  import CubeGram

  // The share of a lane starts on a multiple of eight rows.
  lemma ShareAligned(start: int, end: int, t: int, numRepeat: int, kv: int, lane: int)
    requires numRepeat >= 1 && 0 <= lane <= 1 && WorkOn(start, end, t, numRepeat, kv, lane).HasWork()
    ensures
      var w := WorkOn(start, end, t, numRepeat, kv, lane);
      && ValidChunk(start, end, t) && w.start == start && w.chunkLen == end - start
      && w.rowStart % 8 == 0 && 0 <= w.rowStart && 1 <= w.rowCount && w.rowStart + w.rowCount <= w.chunkLen
  {}

  /** Every tile of a round is well-formed, and its query head belongs to the KV head of the round's
      task. */
  lemma RoundTileFits(x: Inputs, tiling: Tiling, offsets: seq<int>, group: int, lane: int, tile: HeadTile)
    requires Launch(tiling, offsets) && Matches(x, tiling) && 0 <= group < tiling.blockDim && 0 <= lane <= 1
    requires LaneHasTile(tiling, offsets, group, lane, tile)
    ensures TileFits(x, tile) && tile.rowStart % 8 == 0
    ensures KvOf(x, tile.head) == Task(tiling, offsets, group, tile.round) % tiling.hg
    ensures
      var w := RoundWork(tiling, offsets, group, 0, tile.round);
      w.valid && tile.start == w.start && tile.chunkLen == w.chunkLen
  {
    var task := Task(tiling, offsets, group, tile.round);
    TaskParts(task, tiling.totalTaskCount, tiling.hg);
    var chunk, kv := task / tiling.hg, task % tiling.hg;
    ShareAligned(offsets[chunk], offsets[chunk + 1], tiling.t, tiling.numRepeat, kv, lane);
    HeadOfKv(tile.head, kv, tiling.hg, tiling.numRepeat, lane);
  }

  lemma HeadOfKv(head: int, kv: int, hg: int, numRepeat: int, lane: int)
    requires numRepeat >= 1 && 0 <= lane <= 1 && 0 <= kv < hg
    requires kv * numRepeat + FirstRepeat(numRepeat, lane) <= head < kv * numRepeat + RepeatEnd(numRepeat, lane)
    ensures 0 <= head < hg * numRepeat && head / numRepeat == kv
  {
    if numRepeat >= 2 { LaneHeads(numRepeat, lane); }
    MulMono(0, kv, numRepeat);
    MulMono(kv + 1, hg, numRepeat);
    assert (kv + 1) * numRepeat == kv * numRepeat + numRepeat;
    HeadParts(head, kv, numRepeat, FirstRepeat(numRepeat, lane), RepeatEnd(numRepeat, lane));
  }

  // ---------------------------------------------------------------- what a lane reads

  predicate Released(variant: Variant) { !variant.K128PingPong? }

  function LaneOf(lane: int): Lane { if lane == 0 then Lane0 else Lane1 }

  /** A run of the group in which every pipe has finished. */
  ghost predicate FinishedRun(c: Config, schedule: seq<Pipe>) {
    Play(c, schedule).Reached? && Finished(c, Play(c, schedule).s)
  }

  // What a lane multiplied in a run: (round, tile) of every KKT multiply.
  ghost function SeenBy(c: Config, schedule: seq<Pipe>, lane: int): seq<(nat, seq<Product>)>
    requires FinishedRun(c, schedule)
  {
    Play(c, schedule).s.data.seen(LaneOf(lane))
  }

  // The slot's elements are the values of a tile of accumulated products.
  ghost predicate HoldsTile(slot: seq<real>, products: seq<Product>, l1: int -> seq<real>) {
    && |slot| == 4096
    && forall y :: 0 <= y < 4096 ==> slot[y] == GroupRuns.TileValue(products, l1, y / 64, y % 64)
  }

  /** For every tile the lane multiplied, the slot of its round holds that tile's values. */
  ghost predicate ReadBy(seen: seq<(nat, seq<Product>)>, l1: int -> seq<real>, slots: seq<seq<real>>) {
    forall i :: 0 <= i < |seen| ==> seen[i].0 < |slots| && HoldsTile(slots[seen[i].0], seen[i].1, l1)
  }

  // Each working round has its entry among the multiplied tiles.
  lemma {:induction false} SeenRound(c: Config, l: Lane, n: nat, r: nat) returns (i: nat)
    requires r < n && c.Work(l, r)
    ensures i < |Seen(c, l, n)| && Seen(c, l, n)[i] == (r, Full(c, r))
  {
    if r == n - 1 {
      i := |Seen(c, l, n - 1)|;
    } else {
      i := SeenRound(c, l, n - 1, r);
    }
  }

  // In a finished run a lane has read the delivered tile of each of its working rounds.
  lemma ReadDelivered(c: Config, schedule: seq<Pipe>, lane: int, r: nat, l1: int -> seq<real>, slots: seq<seq<real>>)
    requires c.WellFormed() && FinishedRun(c, schedule) && ReadBy(SeenBy(c, schedule, lane), l1, slots)
    requires r < c.Rounds() && c.Work(LaneOf(lane), r)
    ensures r < |slots| && HoldsTile(slots[r], Full(c, r), l1)
  {
    CompleteRun(c, schedule, LaneOf(lane));
    var i := SeenRound(c, LaneOf(lane), c.Rounds(), r);
    assert SeenBy(c, schedule, lane)[i] == (r, Full(c, r));
  }

  // On a released launch the lane works in the round of each of its tiles.
  lemma TileWorks(variant: Variant, tiling: Tiling, offsets: seq<int>, group: int, lane: int, tile: HeadTile)
    requires Launch(tiling, offsets) && 0 <= group < tiling.blockDim && 0 <= lane <= 1 && Released(variant)
    requires LaneHasTile(tiling, offsets, group, lane, tile)
    ensures 0 <= tile.round < Rounds(variant, tiling, offsets, group)
    ensures GroupTask(variant, tiling, offsets, group, tile.round) == Task(tiling, offsets, group, tile.round)
    ensures GroupWork(variant, tiling, offsets, group, 0, tile.round).valid
    ensures ConfigOf(variant, tiling, offsets, group).Work(LaneOf(lane), tile.round)
  {
    RoundTask(variant, tiling, offsets, group, 0, tile.round);
    RoundTask(variant, tiling, offsets, group, lane, tile.round);
  }

  // The delivered tile is the Gram tile the array pipeline needs.
  lemma DeliveredFits(variant: Variant, x: Inputs, tiling: Tiling, offsets: seq<int>, group: int, lane: int,
                      tile: HeadTile, slot: seq<real>)
    requires Launch(tiling, offsets) && Matches(x, tiling) && 0 <= group < tiling.blockDim && 0 <= lane <= 1
    requires Released(variant) && GroupRuns.Fits(variant, x.kDim) && PitchesFit(x, tiling, offsets)
    requires LaneHasTile(tiling, offsets, group, lane, tile)
    requires 0 <= tile.round && HoldsTile(slot, Full(ConfigOf(variant, tiling, offsets, group), tile.round),
                                          L1Tiles(variant, x, tiling, offsets, group))
    ensures From(x, tile, slot)
  {
    RoundTileFits(x, tiling, offsets, group, lane, tile);
    TileWorks(variant, tiling, offsets, group, lane, tile);
    forall y | 0 <= y < 4096
      ensures slot[y] == Gram(x, tile.start, tile.chunkLen, KvOf(x, tile.head), y / 64, y % 64)
    {
      FullIsGram(variant, tiling, offsets, group, x, tile.round, y / 64, y % 64);
    }
  }

  /** What a lane reads in a finished run is what the array pipeline needs for each of its tiles. */
  lemma ReadFits(variant: Variant, x: Inputs, tiling: Tiling, offsets: seq<int>, group: int, lane: int,
                 schedule: seq<Pipe>, slots: seq<seq<real>>, tile: HeadTile)
    requires Launch(tiling, offsets) && Matches(x, tiling) && 0 <= group < tiling.blockDim && 0 <= lane <= 1
    requires Released(variant) && GroupRuns.Fits(variant, x.kDim) && PitchesFit(x, tiling, offsets)
    requires FinishedRun(ConfigOf(variant, tiling, offsets, group), schedule)
    requires ReadBy(SeenBy(ConfigOf(variant, tiling, offsets, group), schedule, lane),
                    L1Tiles(variant, x, tiling, offsets, group), slots)
    requires LaneHasTile(tiling, offsets, group, lane, tile)
    ensures 0 <= tile.round < |slots| && From(x, tile, slots[tile.round])
  {
    ConfigWellFormed(variant, tiling, offsets, group);
    TileWorks(variant, tiling, offsets, group, lane, tile);
    ReadDelivered(ConfigOf(variant, tiling, offsets, group), schedule, lane, tile.round,
                  L1Tiles(variant, x, tiling, offsets, group), slots);
    DeliveredFits(variant, x, tiling, offsets, group, lane, tile, slots[tile.round]);
  }

  /** In every finished run of any variant, what a lane reads in a working round is its task's Gram tile. */
  lemma ReadIsGram(variant: Variant, x: Inputs, tiling: Tiling, offsets: seq<int>, group: int, lane: int,
                   schedule: seq<Pipe>, slots: seq<seq<real>>, r: nat, y: int)
    requires Launch(tiling, offsets) && Matches(x, tiling) && 0 <= group < tiling.blockDim && 0 <= lane <= 1
    requires GroupRuns.Fits(variant, x.kDim) && PitchesFit(x, tiling, offsets)
    requires FinishedRun(ConfigOf(variant, tiling, offsets, group), schedule)
    requires ReadBy(SeenBy(ConfigOf(variant, tiling, offsets, group), schedule, lane),
                    L1Tiles(variant, x, tiling, offsets, group), slots)
    requires r < Rounds(variant, tiling, offsets, group)
    requires GroupWork(variant, tiling, offsets, group, lane, r).HasWork() && 0 <= y < 4096
    ensures GroupWork(variant, tiling, offsets, group, 0, r).valid
    ensures r < |slots| && |slots[r]| == 4096
    ensures slots[r][y] == RoundGram(variant, x, tiling, offsets, group, r, y / 64, y % 64)
  {
    ConfigWellFormed(variant, tiling, offsets, group);
    RoundTask(variant, tiling, offsets, group, 0, r);
    RoundTask(variant, tiling, offsets, group, lane, r);
    ReadDelivered(ConfigOf(variant, tiling, offsets, group), schedule, lane, r,
                  L1Tiles(variant, x, tiling, offsets, group), slots);
    FullIsGram(variant, tiling, offsets, group, x, r, y / 64, y % 64);
  }

  // ---------------------------------------------------------------- the cube core's tiles, one round at a time

  /** The cube core's commits: every valid round's slot holds the parts accumulated from its L1 tile. */
  ghost predicate Committed(variant: Variant, x: Inputs, tiling: Tiling, offsets: seq<int>, group: int, slots: seq<seq<real>>)
    requires Launch(tiling, offsets) && Matches(x, tiling) && 0 <= group < tiling.blockDim
  {
    && |slots| == Rounds(variant, tiling, offsets, group)
    && forall r :: 0 <= r < |slots| && GroupWork(variant, tiling, offsets, group, 0, r).valid ==>
         HoldsParts(slots[r], RoundL1(variant, x, tiling, offsets, group, r), x.kDim / 64)
  }

  predicate HoldsParts(slot: seq<real>, l1: seq<real>, parts: int) {
    && |slot| == 4096 && 0 <= parts && 4096 * parts <= |l1|
    && forall y :: 0 <= y < 4096 ==> slot[y] == CubeGram.GramParts(l1, y / 64, y % 64, parts)
  }

  lemma PartsAreTile(slot: seq<real>, r: nat, l1: int -> seq<real>, parts: nat)
    requires HoldsParts(slot, l1(r), parts)
    ensures HoldsTile(slot, Partial(r, parts), l1)
  {
    forall y | 0 <= y < 4096
      ensures slot[y] == GroupRuns.TileValue(Partial(r, parts), l1, y / 64, y % 64)
    {
      PartialValue(r, parts, l1, y / 64, y % 64);
    }
  }

  /** In every finished run the lanes read what the cube core committed. */
  lemma LanesReadCommitted(variant: Variant, x: Inputs, tiling: Tiling, offsets: seq<int>, group: int, lane: int,
                           schedule: seq<Pipe>, slots: seq<seq<real>>)
    requires Launch(tiling, offsets) && Matches(x, tiling) && 0 <= group < tiling.blockDim
    requires GroupRuns.Fits(variant, x.kDim) && FinishedRun(ConfigOf(variant, tiling, offsets, group), schedule)
    requires Committed(variant, x, tiling, offsets, group, slots)
    ensures ReadBy(SeenBy(ConfigOf(variant, tiling, offsets, group), schedule, lane),
                   L1Tiles(variant, x, tiling, offsets, group), slots)
  {
    var c := ConfigOf(variant, tiling, offsets, group);
    var l1 := L1Tiles(variant, x, tiling, offsets, group);
    ConfigWellFormed(variant, tiling, offsets, group);
    CompleteRun(c, schedule, LaneOf(lane));
    var seen := SeenBy(c, schedule, lane);
    forall i | 0 <= i < |seen|
      ensures seen[i].0 < |slots| && HoldsTile(slots[seen[i].0], seen[i].1, l1)
    {
      SeenEntry(c, LaneOf(lane), c.Rounds(), i);
      var r := seen[i].0;
      assert c.valid[r];
      assert HoldsParts(slots[r], l1(r), x.kDim / 64);
      PartsAreTile(slots[r], r, l1, x.kDim / 64);
      assert Full(c, r) == Partial(r, x.kDim / 64);
    }
  }

  /** Whatever the interleaving, a lane takes in a working round what the cube core computes when it runs
      its rounds one after the other. */
  lemma InterleavedIsSequential(variant: Variant, x: Inputs, tiling: Tiling, offsets: seq<int>, group: int, lane: int,
                                schedule: seq<Pipe>, taken: seq<seq<real>>, slots: seq<seq<real>>, r: nat)
    requires Launch(tiling, offsets) && Matches(x, tiling) && 0 <= group < tiling.blockDim && 0 <= lane <= 1
    requires GroupRuns.Fits(variant, x.kDim) && FinishedRun(ConfigOf(variant, tiling, offsets, group), schedule)
    requires ReadBy(SeenBy(ConfigOf(variant, tiling, offsets, group), schedule, lane),
                    L1Tiles(variant, x, tiling, offsets, group), taken)
    requires Committed(variant, x, tiling, offsets, group, slots)
    requires r < Rounds(variant, tiling, offsets, group) && GroupWork(variant, tiling, offsets, group, lane, r).HasWork()
    ensures r < |taken| && r < |slots| && taken[r] == slots[r]
  {
    var c, l1 := ConfigOf(variant, tiling, offsets, group), L1Tiles(variant, x, tiling, offsets, group);
    ConfigWellFormed(variant, tiling, offsets, group);
    LanesReadCommitted(variant, x, tiling, offsets, group, lane, schedule, slots);
    ReadDelivered(c, schedule, lane, r, l1, taken);
    ReadDelivered(c, schedule, lane, r, l1, slots);
  }

  /** Every partial interleaving can be extended to a finished one, so finished runs exist. */
  lemma {:induction false} RunOn(c: Config, schedule: seq<Pipe>) returns (longer: seq<Pipe>)
    requires c.WellFormed() && Play(c, schedule).Reached?
    ensures schedule <= longer && FinishedRun(c, longer)
    decreases RunLength(c) - |schedule|
  {
    EveryRunCompletes(c, schedule);
    if |schedule| == RunLength(c) {
      longer := schedule;
    } else {
      var p :| Enabled(c, Play(c, schedule).s, p);
      assert (schedule + [p])[..|schedule + [p]| - 1] == schedule;
      longer := RunOn(c, schedule + [p]);
    }
  }
}
