/** Complete runs of a group on its scheduled tasks: what the lanes multiply, from the flags up to the
    Gram values. */
module GroupRuns {
  import opened GroupProgram
  import opened GroupFlags
  import opened GroupProgress
  import opened GroupWindows
  import opened GroupData
  import opened Schedule
  import opened LaneOps
  import opened Semantics
  import opened Widths
  import CubeGram

  // ---------------------------------------------------------------- the group's configuration

  function Index(l: Lane): int { if l.Lane0? then 0 else 1 }

  /** A lane's rounds: the released kernels walk the launch's schedule, v03 always the cyclic one. */
  function GroupWorks(variant: Variant, tiling: Tiling, offsets: seq<int>, group: int, lane: int): seq<Work>
    requires Launch(tiling, offsets) && 0 <= group < tiling.blockDim && 0 <= lane
  {
    if variant.K128PingPong? then CyclicWorks(tiling, offsets, group, lane) else LaneWorks(tiling, offsets, group, lane)
  }

  function Rounds(variant: Variant, tiling: Tiling, offsets: seq<int>, group: int): nat
    requires Launch(tiling, offsets) && 0 <= group < tiling.blockDim
  {
    |GroupWorks(variant, tiling, offsets, group, 0)|
  }

  // The task of a round, the same for both lanes.
  function GroupTask(variant: Variant, tiling: Tiling, offsets: seq<int>, group: int, r: int): (task: int)
    requires Launch(tiling, offsets) && 0 <= group < tiling.blockDim
    requires 0 <= r < Rounds(variant, tiling, offsets, group)
    ensures 0 <= task < tiling.totalTaskCount
  {
    if variant.K128PingPong? then
      CyclicInside(tiling, offsets, group, r);
      group + r * tiling.blockDim
    else Task(tiling, offsets, group, r)
  }

  // The round's task as a lane sees it.
  function GroupWork(variant: Variant, tiling: Tiling, offsets: seq<int>, group: int, lane: int, r: int): Work
    requires Launch(tiling, offsets) && 0 <= group < tiling.blockDim && 0 <= lane
    requires 0 <= r < Rounds(variant, tiling, offsets, group)
  {
    TaskWork(tiling, offsets, GroupTask(variant, tiling, offsets, group, r), lane)
  }

  lemma WorksAt(variant: Variant, tiling: Tiling, offsets: seq<int>, group: int, lane: int, r: int)
    requires Launch(tiling, offsets) && 0 <= group < tiling.blockDim && 0 <= lane
    requires 0 <= r < Rounds(variant, tiling, offsets, group)
    ensures |GroupWorks(variant, tiling, offsets, group, lane)| == Rounds(variant, tiling, offsets, group)
    ensures GroupWorks(variant, tiling, offsets, group, lane)[r] == GroupWork(variant, tiling, offsets, group, lane, r)
  {
    if variant.K128PingPong? {
      CyclicInside(tiling, offsets, group, r);
    }
  }

  /** The protocol instance of a group: one round per scheduled task. */
  function ConfigOf(variant: Variant, tiling: Tiling, offsets: seq<int>, group: int): Config
    requires Launch(tiling, offsets) && 0 <= group < tiling.blockDim
  {
    var n := Rounds(variant, tiling, offsets, group);
    Config(variant,
           seq(n, r requires 0 <= r < n => GroupWork(variant, tiling, offsets, group, 0, r).valid),
           seq(n, r requires 0 <= r < n => GroupWork(variant, tiling, offsets, group, 0, r).HasWork()),
           seq(n, r requires 0 <= r < n => GroupWork(variant, tiling, offsets, group, 1, r).HasWork()))
  }

  lemma ConfigWellFormed(variant: Variant, tiling: Tiling, offsets: seq<int>, group: int)
    requires Launch(tiling, offsets) && 0 <= group < tiling.blockDim
    ensures ConfigOf(variant, tiling, offsets, group).WellFormed()
  {}

  // ---------------------------------------------------------------- trace and instruction streams

  lemma {:induction false} OnlyMultiplies(w: Work, round: int, n: int)
    ensures forall op :: op in Multiplies(w, round, n) ==> op.Multiply?
    ensures n > 0 ==> Multiplies(w, round, n) != []
    decreases n
  {
    if n > 0 { OnlyMultiplies(w, round, n - 1); }
  }

  /** The lane program of the protocol is the lane's operation trace: its cross-core waits and posts are
      the trace's, and it copies and multiplies exactly when the trace does. */
  lemma ProgramMatchesTrace(variant: Variant, tiling: Tiling, offsets: seq<int>, group: int, l: Lane, r: nat, slot: nat)
    requires Launch(tiling, offsets) && 0 <= group < tiling.blockDim && r < Rounds(variant, tiling, offsets, group)
    ensures
      var c := ConfigOf(variant, tiling, offsets, group);
      var w := GroupWork(variant, tiling, offsets, group, Index(l), r);
      var ops := RoundOps(w, r, r + 2 < Rounds(variant, tiling, offsets, group));
      && (Ready(slot, l) in Fetch(c, LaneS(l), r, 0).waits <==> WaitReady(slot) in ops)
      && (Free(slot, l) in Fetch(c, LaneMte2(l), r, 3).sets <==> PostFree(slot) in ops)
      && (Fetch(c, LaneMte2(l), r, 1).act == CopyTile <==> LoadOf(w, r) in ops)
      && (Fetch(c, LaneV(l), r, 4).act == MulTile <==> exists op :: op in ops && op.Multiply?)
  {
    var w := GroupWork(variant, tiling, offsets, group, Index(l), r);
    OnlyMultiplies(w, r, w.totalHeads);
    if w.HasWork() { assert Multiplies(w, r, w.totalHeads)[0] in Multiplies(w, r, w.totalHeads); }
  }

  // ---------------------------------------------------------------- what lanes read

  /** In every interleaving, when a working lane's copy of round r runs, its slot holds the complete tile
      committed for round r. */
  lemma EveryCopyReadsItsRound(c: Config, schedule: seq<Pipe>, l: Lane)
    requires c.WellFormed() && Play(c, schedule).Reached?
    requires
      var at := Play(c, schedule).s.pc(LaneMte2(l));
      at.r < c.Rounds() && Fetch(c, LaneMte2(l), at.r, at.k).act == CopyTile
    ensures
      var s := Play(c, schedule).s;
      var r := s.pc(LaneMte2(l)).r;
      s.data.gm(r % 2) == Full(c, r)
  {
    PlayKeepsData(c, schedule);
    CopyReadsRound(c, Play(c, schedule).s, l);
  }

  /** In every interleaving, when the cube core loads a part for round r, the L1 stage holds round r's
      packed tile, whichever rounds before it were skipped. */
  lemma EveryLoadReadsItsRound(c: Config, schedule: seq<Pipe>)
    requires c.WellFormed() && Play(c, schedule).Reached?
    requires
      var at := Play(c, schedule).s.pc(CubeMte1);
      var act := Fetch(c, CubeMte1, at.r, at.k).act;
      at.r < c.Rounds() && (act.LoadA? || act.LoadB?)
    ensures
      var s := Play(c, schedule).s;
      s.data.l1(if c.variant.K128PingPong? then s.pc(CubeMte1).r % 2 else 0) == s.pc(CubeMte1).r
  {
    PlayKeepsData(c, schedule);
    StageHoldsRound(c, Play(c, schedule).s);
  }

  /** In every interleaving, when the commit of round r runs, both lanes have finished or skipped the copy
      of the slot's previous tile. */
  lemma EveryCommitWaits(c: Config, schedule: seq<Pipe>, l: Lane)
    requires c.WellFormed() && Play(c, schedule).Reached?
    requires
      var at := Play(c, schedule).s.pc(CubeFix);
      at.r < c.Rounds() && Fetch(c, CubeFix, at.r, at.k).act == Commit
    ensures
      var s := Play(c, schedule).s;
      s.pc(CubeFix).r >= 2 ==> s.pc(LaneMte2(l)).r > s.pc(CubeFix).r - 2
  {
    PlayKeepsFlags(c, schedule);
    var s := Play(c, schedule).s;
    if s.pc(CubeFix).r >= 2 { CommitWaitsForBothLanes(c, s, l); }
  }

  /** Every complete run, however interleaved, ends with each lane having multiplied exactly the complete
      tiles of its working rounds, in order. */
  lemma CompleteRun(c: Config, schedule: seq<Pipe>, l: Lane)
    requires c.WellFormed() && Play(c, schedule).Reached? && Finished(c, Play(c, schedule).s)
    ensures Play(c, schedule).s.data.seen(l) == Seen(c, l, c.Rounds())
  {
    PlayKeepsData(c, schedule);
    assert SeenInv(c, Play(c, schedule).s, l);
    assert Play(c, schedule).s.pc(LaneV(l)).r == c.Rounds();
  }

  // Entry i of the multiplied tiles belongs to a working round.
  lemma {:induction false} SeenEntry(c: Config, l: Lane, n: nat, i: nat)
    requires i < |Seen(c, l, n)|
    ensures Seen(c, l, n)[i].0 < n && c.Work(l, Seen(c, l, n)[i].0)
    ensures Seen(c, l, n)[i].1 == Full(c, Seen(c, l, n)[i].0)
  {
    if n > 0 && i < |Seen(c, l, n - 1)| { SeenEntry(c, l, n - 1, i); }
  }

  // ---------------------------------------------------------------- Gram values

  // The real value of one accumulated product, given the packed L1 tile of every round.
  function Contribution(p: Product, l1: int -> seq<real>, m: int, n: int): real
    requires 0 <= m < 64 && 0 <= n < 64
  {
    if CubeGram.PartOf(l1(p.aTile), p.aPart) && CubeGram.PartOf(l1(p.bTile), p.bPart)
    then CubeGram.Sum(CubeGram.PartTerms(l1(p.aTile), p.aPart, l1(p.bTile), p.bPart, m, n))
    else 0.0
  }

  function TileValue(products: seq<Product>, l1: int -> seq<real>, m: int, n: int): real
    requires 0 <= m < 64 && 0 <= n < 64
  {
    if products == [] then 0.0
    else TileValue(products[..|products| - 1], l1, m, n) + Contribution(products[|products| - 1], l1, m, n)
  }

  lemma {:induction false} PartialValue(r: nat, parts: nat, l1: int -> seq<real>, m: int, n: int)
    requires 4096 * parts <= |l1(r)| && 0 <= m < 64 && 0 <= n < 64
    ensures TileValue(Partial(r, parts), l1, m, n) == CubeGram.GramParts(l1(r), m, n, parts)
    decreases parts
  {
    if parts > 0 {
      PartialValue(r, parts - 1, l1, m, n);
      assert Partial(r, parts)[..parts - 1] == Partial(r, parts - 1);
    }
  }

  predicate Fits(variant: Variant, kDim: int) { if variant.K256? then kDim == 256 else kDim == 128 }

  // What the round's task is: a KV head and, when its chunk is valid, rows of the input.
  lemma RoundTask(variant: Variant, tiling: Tiling, offsets: seq<int>, group: int, lane: int, r: int)
    requires Launch(tiling, offsets) && 0 <= group < tiling.blockDim && 0 <= lane
    requires 0 <= r < Rounds(variant, tiling, offsets, group)
    ensures 0 <= GroupTask(variant, tiling, offsets, group, r) % tiling.hg < tiling.hg
    ensures
      var chunk := GroupTask(variant, tiling, offsets, group, r) / tiling.hg;
      var w := GroupWork(variant, tiling, offsets, group, lane, r);
      && 0 <= chunk && chunk + 1 < |offsets|
      && w.valid == ValidChunk(offsets[chunk], offsets[chunk + 1], tiling.t)
      && w.start == offsets[chunk] && w.chunkLen == offsets[chunk + 1] - offsets[chunk]
  {
    TaskParts(GroupTask(variant, tiling, offsets, group, r), tiling.totalTaskCount, tiling.hg);
  }

  // Where the cube core's packed copy of a round starts.
  ghost function RoundOffset(variant: Variant, x: Inputs, tiling: Tiling, offsets: seq<int>, group: int, r: int): int
    requires Launch(tiling, offsets) && 0 <= group < tiling.blockDim
    requires 0 <= r < Rounds(variant, tiling, offsets, group)
  {
    KOffset(GroupWork(variant, tiling, offsets, group, 0, r).start,
            GroupTask(variant, tiling, offsets, group, r) % tiling.hg, x.hg, x.kDim)
  }

  lemma RoundReadable(variant: Variant, x: Inputs, tiling: Tiling, offsets: seq<int>, group: int, r: int)
    requires Launch(tiling, offsets) && Matches(x, tiling) && 0 <= group < tiling.blockDim
    requires 0 <= r < Rounds(variant, tiling, offsets, group) && GroupWork(variant, tiling, offsets, group, 0, r).valid
    ensures
      var w := GroupWork(variant, tiling, offsets, group, 0, r);
      && 1 <= w.chunkLen <= 64 && 0 <= w.start && w.start + w.chunkLen <= x.t && 0 <= x.hg * x.kDim
      && CubeGram.Readable(x.k, RoundOffset(variant, x, tiling, offsets, group, r), x.hg * x.kDim, w.chunkLen, x.kDim)
      && CubeGram.Readable(x.k, RoundOffset(variant, x, tiling, offsets, group, r), Uint16(x.hg * x.kDim), w.chunkLen, x.kDim)
  {
    var w := GroupWork(variant, tiling, offsets, group, 0, r);
    RoundTask(variant, tiling, offsets, group, 0, r);
    TileReadable(x, w.start, w.chunkLen, GroupTask(variant, tiling, offsets, group, r) % tiling.hg);
    MulMono(0, x.hg, x.kDim);
    CubeGram.TruncatedReadable(x.k, RoundOffset(variant, x, tiling, offsets, group, r), x.hg * x.kDim, w.chunkLen, x.kDim);
  }

  /** What the copy leaves in L1 for a valid round, through the 16-bit row pitch. */
  ghost function RoundL1(variant: Variant, x: Inputs, tiling: Tiling, offsets: seq<int>, group: int, r: int): (l1: seq<real>)
    requires Launch(tiling, offsets) && Matches(x, tiling) && 0 <= group < tiling.blockDim
    requires 0 <= r < Rounds(variant, tiling, offsets, group) && GroupWork(variant, tiling, offsets, group, 0, r).valid
    ensures |l1| == 64 * x.kDim
  {
    RoundReadable(variant, x, tiling, offsets, group, r);
    CubeGram.PackedTile(x.k, RoundOffset(variant, x, tiling, offsets, group, r), Uint16(x.hg * x.kDim),
                        GroupWork(variant, tiling, offsets, group, 0, r).chunkLen, x.kDim)
  }

  // The L1 tiles of a group's run, by round.
  ghost function L1Tiles(variant: Variant, x: Inputs, tiling: Tiling, offsets: seq<int>, group: int): int -> seq<real>
    requires Launch(tiling, offsets) && Matches(x, tiling) && 0 <= group < tiling.blockDim
  {
    r => if 0 <= r < Rounds(variant, tiling, offsets, group) && GroupWork(variant, tiling, offsets, group, 0, r).valid
         then RoundL1(variant, x, tiling, offsets, group, r) else []
  }

  /** Every valid chunk survives the copy's 16-bit row pitch. */
  ghost predicate PitchesFit(x: Inputs, tiling: Tiling, offsets: seq<int>) {
    forall c :: 0 <= c && c + 1 < |offsets| && ValidChunk(offsets[c], offsets[c + 1], tiling.t) ==>
      CubeGram.PitchFits(x.hg * x.kDim, offsets[c + 1] - offsets[c])
  }

  // The Gram tile of a round's task.
  ghost function RoundGram(variant: Variant, x: Inputs, tiling: Tiling, offsets: seq<int>, group: int, r: int, m: int, n: int): real
    requires Launch(tiling, offsets) && Matches(x, tiling) && 0 <= group < tiling.blockDim
    requires 0 <= r < Rounds(variant, tiling, offsets, group)
    requires GroupWork(variant, tiling, offsets, group, 0, r).valid && 0 <= m < 64 && 0 <= n < 64
  {
    var w := GroupWork(variant, tiling, offsets, group, 0, r);
    RoundReadable(variant, x, tiling, offsets, group, r);
    RoundTask(variant, tiling, offsets, group, 0, r);
    Gram(x, w.start, w.chunkLen, GroupTask(variant, tiling, offsets, group, r) % tiling.hg, m, n)
  }

  lemma PackedGram(x: Inputs, l1: int -> seq<real>, r: nat, start: int, chunkLen: int, kv: int, m: int, n: int)
    requires Shaped(x) && 0 <= start && start + chunkLen <= x.t && 0 <= kv < x.hg && 0 <= m < 64 && 0 <= n < 64
    requires CubeGram.Packed(l1(r), x.k, KOffset(start, kv, x.hg, x.kDim), x.hg * x.kDim, chunkLen, x.kDim)
    ensures TileValue(Partial(r, x.kDim / 64), l1, m, n) == Gram(x, start, chunkLen, kv, m, n)
  {
    PartialValue(r, x.kDim / 64, l1, m, n);
    CubeGram.GramOfPacked(l1(r), x.k, KOffset(start, kv, x.hg, x.kDim), x.hg * x.kDim, chunkLen, x.kDim, m, n);
  }

  /** The tile the protocol delivers in a valid round, over what the copy really leaves in L1, is the
      zero-padded Gram tile of the round's task. */
  lemma FullIsGram(variant: Variant, tiling: Tiling, offsets: seq<int>, group: int, x: Inputs, r: nat, m: int, n: int)
    requires Launch(tiling, offsets) && Matches(x, tiling) && 0 <= group < tiling.blockDim
    requires r < Rounds(variant, tiling, offsets, group) && Fits(variant, x.kDim) && PitchesFit(x, tiling, offsets)
    requires GroupWork(variant, tiling, offsets, group, 0, r).valid && 0 <= m < 64 && 0 <= n < 64
    ensures TileValue(Full(ConfigOf(variant, tiling, offsets, group), r), L1Tiles(variant, x, tiling, offsets, group), m, n)
         == RoundGram(variant, x, tiling, offsets, group, r, m, n)
  {
    var w := GroupWork(variant, tiling, offsets, group, 0, r);
    var kv := GroupTask(variant, tiling, offsets, group, r) % tiling.hg;
    var l1 := L1Tiles(variant, x, tiling, offsets, group);
    RoundTask(variant, tiling, offsets, group, 0, r);
    RoundReadable(variant, x, tiling, offsets, group, r);
    CubeGram.FittingPitch(x.k, RoundOffset(variant, x, tiling, offsets, group, r), x.hg * x.kDim, w.chunkLen, x.kDim);
    assert Full(ConfigOf(variant, tiling, offsets, group), r) == Partial(r, x.kDim / 64);
    PackedGram(x, l1, r, w.start, w.chunkLen, kv, m, n);
  }
}
