/** A group's pipes run on real buffers: every instruction of an interleaving does its work on the L1, L0,
    workspace and UB contents, whatever they held before.  The contents follow the protocol's description
    of them step by step, so what a lane multiplies is what its rounds need. */
module GroupMachine {
  import opened GroupProgram
  import opened GroupFlags
  import opened GroupProgress
  import opened GroupData
  import opened GroupRuns
  import opened Schedule
  import opened LaneOps
  import opened Semantics
  import opened Launches
  import opened Widths
  import CubeGram

  /** Two L1 stages, four L0 parts an operand, the accumulator, two workspace slots, one UB tile a lane,
      and the tiles each lane has multiplied, by round. */
  datatype Memory = Memory(l1: seq<seq<real>>, l0a: seq<seq<real>>, l0b: seq<seq<real>>, c1: seq<real>,
                             gm: seq<seq<real>>, ub: seq<seq<real>>, taken: seq<seq<seq<real>>>)

  predicate AllOfSize(buffers: seq<seq<real>>, count: int, size: int) {
    |buffers| == count && forall i :: 0 <= i < count ==> |buffers[i]| == size
  }

  predicate Sized(b: Memory, kDim: int, rounds: int) {
    && AllOfSize(b.l1, 2, 64 * kDim) && AllOfSize(b.l0a, 4, 4096) && AllOfSize(b.l0b, 4, 4096)
    && |b.c1| == 4096 && AllOfSize(b.gm, 2, 4096) && AllOfSize(b.ub, 2, 4096)
    && |b.taken| == 2 && |b.taken[0]| == |b.taken[1]| == rounds
  }

  // ---------------------------------------------------------------- contents and their description

  // A stage named by a round holds that round's L1 tile.
  ghost predicate L1Shows(l1: seq<seq<real>>, names: int -> int, tiles: int -> seq<real>)
    requires |l1| == 2
  {
    forall st :: 0 <= st < 2 && names(st) >= 0 ==> l1[st] == tiles(names(st))
  }

  predicate IsA(a2: seq<real>, x: seq<real>, part: int) {
    && |a2| == 4096 && CubeGram.PartOf(x, part)
    && forall m, k :: 0 <= m < 64 && 0 <= k < 64 ==> a2[m * 64 + k] == x[4096 * part + CubeGram.NzAddr(m, k)]
  }

  predicate IsB(b2: seq<real>, x: seq<real>, part: int) {
    && |b2| == 4096 && CubeGram.PartOf(x, part) && forall y :: 0 <= y < 4096 ==> b2[y] == x[4096 * part + y]
  }

  // An L0 buffer named by a tile and a part holds that part of the tile.
  ghost predicate AShows(l0a: seq<seq<real>>, names: int -> (int, int), tiles: int -> seq<real>)
    requires |l0a| == 4
  {
    forall q :: 0 <= q < 4 && names(q).0 >= 0 ==> IsA(l0a[q], tiles(names(q).0), names(q).1)
  }

  ghost predicate BShows(l0b: seq<seq<real>>, names: int -> (int, int), tiles: int -> seq<real>)
    requires |l0b| == 4
  {
    forall q :: 0 <= q < 4 && names(q).0 >= 0 ==> IsB(l0b[q], tiles(names(q).0), names(q).1)
  }

  // A buffer described by accumulated products holds their values.
  ghost predicate Holding(buffer: seq<real>, products: seq<Product>, tiles: int -> seq<real>) {
    products != [] ==> HoldsTile(buffer, products, tiles)
  }

  ghost predicate GmShows(gm: seq<seq<real>>, names: int -> seq<Product>, tiles: int -> seq<real>)
    requires |gm| == 2
  {
    forall slot :: 0 <= slot < 2 ==> Holding(gm[slot], names(slot), tiles)
  }

  ghost predicate UbShows(ub: seq<seq<real>>, names: Lane -> seq<Product>, tiles: int -> seq<real>)
    requires |ub| == 2
  {
    forall l :: Holding(ub[Index(l)], names(l), tiles)
  }

  ghost predicate TakenShows(taken: seq<seq<seq<real>>>, names: Lane -> seq<(nat, seq<Product>)>, tiles: int -> seq<real>)
    requires |taken| == 2
  {
    forall l :: ReadBy(names(l), tiles, taken[Index(l)])
  }

  /** The buffers hold what the protocol state says. */
  ghost predicate Shows(b: Memory, d: Data, tiles: int -> seq<real>)
    requires |b.l1| == |b.gm| == |b.ub| == |b.taken| == 2 && |b.l0a| == |b.l0b| == 4
  {
    && L1Shows(b.l1, d.l1, tiles) && AShows(b.l0a, d.l0a, tiles) && BShows(b.l0b, d.l0b, tiles)
    && Holding(b.c1, d.c1, tiles) && GmShows(b.gm, d.gm, tiles) && UbShows(b.ub, d.ub, tiles)
    && TakenShows(b.taken, d.seen, tiles)
  }

  // ---------------------------------------------------------------- the instructions

  method ToArray(s: seq<real>) returns (a: array<real>)
    ensures fresh(a) && a[..] == s
  {
    a := new real[|s|](i requires 0 <= i < |s| => s[i]);
  }

  // CopyL1
  method CopyStage(before: seq<real>, x: Inputs, kOffset: int, chunkLen: int) returns (after: seq<real>)
    requires CubeGram.KDim(x.kDim) && |before| == 64 * x.kDim && 1 <= chunkLen <= 64
    requires CubeGram.Readable(x.k, kOffset, Uint16(x.hg * x.kDim), chunkLen, x.kDim)
    ensures after == CubeGram.PackedTile(x.k, kOffset, Uint16(x.hg * x.kDim), chunkLen, x.kDim)
  {
    var l1 := ToArray(before);
    CubeGram.CopyPackedKToSharedL1(l1, x.k, kOffset, chunkLen, x.hg, x.kDim);
    after := l1[..];
  }

  method LoadPartA(before: seq<real>, stage: seq<real>, part: int) returns (after: seq<real>)
    requires |before| == 4096 && CubeGram.PartOf(stage, part)
    ensures IsA(after, stage, part)
  {
    var a2 := ToArray(before);
    var a1 := ToArray(stage);
    CubeGram.LoadKPartToL0A(a2, a1, part);
    after := a2[..];
  }

  method LoadPartB(before: seq<real>, stage: seq<real>, part: int) returns (after: seq<real>)
    requires |before| == 4096 && CubeGram.PartOf(stage, part)
    ensures IsB(after, stage, part)
  {
    var b2 := ToArray(before);
    var b1 := ToArray(stage);
    CubeGram.LoadKPartToL0B(b2, b1, part);
    after := b2[..];
  }

  method Multiply(before: seq<real>, a: seq<real>, b: seq<real>, initialize: bool) returns (after: seq<real>)
    requires |before| == |a| == |b| == 4096
    ensures |after| == 4096
    ensures forall y :: 0 <= y < 4096 ==>
      after[y] == (if initialize then 0.0 else before[y]) + CubeGram.Sum(CubeGram.L0Terms(a, b, y / 64, y % 64))
  {
    var c1 := ToArray(before);
    var a2 := ToArray(a);
    var b2 := ToArray(b);
    CubeGram.Mmad(c1, a2, b2, initialize);
    after := c1[..];
  }

  // Accumulating one product adds its value to every cell.
  lemma MultiplyHolds(before: seq<real>, after: seq<real>, products: seq<Product>, product: Product,
                      tiles: int -> seq<real>, a: seq<real>, b: seq<real>, initialize: bool)
    requires product.aPart == product.bPart && product.aTile == product.bTile
    requires IsA(a, tiles(product.aTile), product.aPart) && IsB(b, tiles(product.bTile), product.bPart)
    requires |before| == |after| == 4096 && (initialize || HoldsTile(before, products, tiles))
    requires forall y :: 0 <= y < 4096 ==>
      after[y] == (if initialize then 0.0 else before[y]) + CubeGram.Sum(CubeGram.L0Terms(a, b, y / 64, y % 64))
    ensures HoldsTile(after, if initialize then [product] else products + [product], tiles)
  {
    var next := if initialize then [product] else products + [product];
    var rest := if initialize then [] else products;
    assert next == rest + [product] && next[..|next| - 1] == rest;
    forall y | 0 <= y < 4096
      ensures after[y] == GroupRuns.TileValue(next, tiles, y / 64, y % 64)
    {
      CubeGram.L0IsPart(tiles(product.aTile), product.aPart, a, b, y / 64, y % 64);
    }
  }

  // ---------------------------------------------------------------- one step

  // What an instruction that acts says about its pipe, round and part.
  predicate ActsInPlace(c: Config, p: Pipe, r: nat, k: nat) {
    match Fetch(c, p, r, k).act
    case NoAct => true
    case CopyL1 => p == CubeMte2 && c.Valid(r)
    case LoadA(part) => p == CubeMte1 && c.Valid(r) && part < c.Parts()
    case LoadB(part) => p == CubeMte1 && c.Valid(r) && part < c.Parts()
    case Mmad(part) => p == CubeM && c.Valid(r) && part < c.Parts() && k == MmadPos(c, part)
    case Commit => p == CubeFix && c.Valid(r)
    case ClearTile => p.LaneV?
    case CopyTile => p.LaneMte2?
    case MulTile => p.LaneV? && c.Work(p.l, r) && k == 4
  }

  lemma Acts(c: Config, p: Pipe, r: nat, k: nat)
    requires k < Len(c, p)
    ensures ActsInPlace(c, p, r, k)
  {}

  // Memory of the right sizes that hold what the protocol state says.
  ghost predicate Follows(b: Memory, d: Data, tiles: int -> seq<real>, kDim: int, rounds: int) {
    Sized(b, kDim, rounds) && Shows(b, d, tiles)
  }

  function StageOf(c: Config, r: nat): (st: int)
    ensures 0 <= st < 2
  {
    c.Stage(r)
  }

  method DoCopyL1(c: Config, x: Inputs, kOffset: int, chunkLen: int, r: nat, b: Memory,
                  ghost d: Data, ghost tiles: int -> seq<real>, rounds: int) returns (next: Memory)
    requires Follows(b, d, tiles, x.kDim, rounds) && CubeGram.KDim(x.kDim) && 1 <= chunkLen <= 64
    requires CubeGram.Readable(x.k, kOffset, Uint16(x.hg * x.kDim), chunkLen, x.kDim)
    requires tiles(r) == CubeGram.PackedTile(x.k, kOffset, Uint16(x.hg * x.kDim), chunkLen, x.kDim)
    ensures Follows(next, Perform(c, CubeMte2, CopyL1, r, d), tiles, x.kDim, rounds)
  {
    var st := StageOf(c, r);
    var l1 := CopyStage(b.l1[st], x, kOffset, chunkLen);
    next := b.(l1 := b.l1[st := l1]);
  }

  method DoLoadA(c: Config, part: nat, r: nat, b: Memory, ghost d: Data, ghost tiles: int -> seq<real>,
                 kDim: int, rounds: int) returns (next: Memory)
    requires Follows(b, d, tiles, kDim, rounds) && part < 4 && 64 * (part + 1) <= kDim
    ensures Follows(next, Perform(c, CubeMte1, LoadA(part), r, d), tiles, kDim, rounds)
  {
    var a2 := LoadPartA(b.l0a[part], b.l1[StageOf(c, r)], part);
    next := b.(l0a := b.l0a[part := a2]);
  }

  method DoLoadB(c: Config, part: nat, r: nat, b: Memory, ghost d: Data, ghost tiles: int -> seq<real>,
                 kDim: int, rounds: int) returns (next: Memory)
    requires Follows(b, d, tiles, kDim, rounds) && part < 4 && 64 * (part + 1) <= kDim
    ensures Follows(next, Perform(c, CubeMte1, LoadB(part), r, d), tiles, kDim, rounds)
  {
    var b2 := LoadPartB(b.l0b[part], b.l1[StageOf(c, r)], part);
    next := b.(l0b := b.l0b[part := b2]);
  }

  method DoMmad(c: Config, part: nat, r: nat, b: Memory, ghost d: Data, ghost tiles: int -> seq<real>,
                kDim: int, rounds: int) returns (next: Memory)
    requires Follows(b, d, tiles, kDim, rounds) && part < 4
    requires d.l0a(part) == d.l0b(part) == (r, part) && (part > 0 ==> d.c1 != [])
    ensures Follows(next, Perform(c, CubeM, Mmad(part), r, d), tiles, kDim, rounds)
  {
    var c1 := Multiply(b.c1, b.l0a[part], b.l0b[part], part == 0);
    next := b.(c1 := c1);
    MultiplyHolds(b.c1, c1, d.c1, Product(r, part, r, part), tiles, b.l0a[part], b.l0b[part], part == 0);
  }

  method DoCommit(c: Config, r: nat, b: Memory, ghost d: Data, ghost tiles: int -> seq<real>,
                  kDim: int, rounds: int) returns (next: Memory)
    requires Follows(b, d, tiles, kDim, rounds)
    ensures Follows(next, Perform(c, CubeFix, Commit, r, d), tiles, kDim, rounds)
  {
    next := b.(gm := b.gm[r % 2 := b.c1]);
  }

  method DoClear(c: Config, l: Lane, r: nat, b: Memory, ghost d: Data, ghost tiles: int -> seq<real>,
                 kDim: int, rounds: int) returns (next: Memory)
    requires Follows(b, d, tiles, kDim, rounds)
    ensures Follows(next, Perform(c, LaneV(l), ClearTile, r, d), tiles, kDim, rounds)
  {
    next := b.(ub := b.ub[Index(l) := seq(4096, _ => 0.0)]);
    forall m
      ensures Holding(next.ub[Index(m)], Perform(c, LaneV(l), ClearTile, r, d).ub(m), tiles)
    {
      assert m != l ==> Index(m) != Index(l);
    }
  }

  method DoCopyTile(c: Config, l: Lane, r: nat, b: Memory, ghost d: Data, ghost tiles: int -> seq<real>,
                    kDim: int, rounds: int) returns (next: Memory)
    requires Follows(b, d, tiles, kDim, rounds)
    ensures Follows(next, Perform(c, LaneMte2(l), CopyTile, r, d), tiles, kDim, rounds)
  {
    next := b.(ub := b.ub[Index(l) := b.gm[r % 2]]);
    forall m
      ensures Holding(next.ub[Index(m)], Perform(c, LaneMte2(l), CopyTile, r, d).ub(m), tiles)
    {
      assert m != l ==> Index(m) != Index(l);
    }
  }

  // Taking round r's tile adds it to what the lane has read; its earlier tiles are of earlier rounds.
  lemma TakeReads(seen: seq<(nat, seq<Product>)>, tiles: int -> seq<real>, taken: seq<seq<real>>, r: nat,
                  products: seq<Product>, tile: seq<real>)
    requires ReadBy(seen, tiles, taken) && r < |taken| && HoldsTile(tile, products, tiles)
    requires forall i :: 0 <= i < |seen| ==> seen[i].0 < r
    ensures ReadBy(seen + [(r, products)], tiles, taken[r := tile])
  {
    var longer := seen + [(r, products)];
    forall i | 0 <= i < |longer|
      ensures longer[i].0 < |taken| && HoldsTile(taken[r := tile][longer[i].0], longer[i].1, tiles)
    {
      if i < |seen| { assert longer[i] == seen[i]; }
    }
  }

  method DoMulTile(c: Config, l: Lane, r: nat, b: Memory, ghost d: Data, ghost tiles: int -> seq<real>,
                   kDim: int, rounds: int) returns (next: Memory)
    requires Follows(b, d, tiles, kDim, rounds) && r < rounds && d.ub(l) != []
    requires forall i :: 0 <= i < |d.seen(l)| ==> d.seen(l)[i].0 < r
    ensures Follows(next, Perform(c, LaneV(l), MulTile, r, d), tiles, kDim, rounds)
  {
    var taken := b.taken[Index(l)][r := b.ub[Index(l)]];
    TakeReads(d.seen(l), tiles, b.taken[Index(l)], r, d.ub(l), b.ub[Index(l)]);
    next := b.(taken := b.taken[Index(l) := taken]);
    forall m
      ensures ReadBy(Perform(c, LaneV(l), MulTile, r, d).seen(m), tiles, next.taken[Index(m)])
    {
      assert m != l ==> Index(m) != Index(l);
    }
  }

  // A reachable protocol state and buffers that follow it.
  ghost predicate Running(c: Config, s: State, b: Memory, tiles: int -> seq<real>, kDim: int) {
    c.WellFormed() && FlagsInv(c, s) && DataInv(c, s) && Follows(b, s.data, tiles, kDim, c.Rounds())
  }

  // An MMAD finds its operands, and after the first part a started product.
  lemma MmadReady(c: Config, s: State, part: nat)
    requires FlagsInv(c, s) && DataInv(c, s) && c.Valid(s.pc(CubeM).r)
    requires part < c.Parts() && s.pc(CubeM).k == MmadPos(c, part)
    ensures s.data.l0a(part) == s.data.l0b(part) == (s.pc(CubeM).r, part)
    ensures part > 0 ==> s.data.c1 != []
  {
    if c.variant.K256? { MmadReadsRound256(c, s, part); } else { MmadReadsRound128(c, s, part); }
    assert MmadsDone(c, s.pc(CubeM).k) == part;
  }

  lemma MulReady(c: Config, s: State, l: Lane)
    requires FlagsInv(c, s) && DataInv(c, s) && s.pc(LaneV(l)).r < c.Rounds()
    requires c.Work(l, s.pc(LaneV(l)).r) && s.pc(LaneV(l)).k == 4
    ensures s.data.ub(l) != []
    ensures forall i :: 0 <= i < |s.data.seen(l)| ==> s.data.seen(l)[i].0 < s.pc(LaneV(l)).r
  {
    var r := s.pc(LaneV(l)).r;
    assert UbInv(c, s, l) && SeenInv(c, s, l);
    MultiplyReadsRound(c, s, l);
    forall i | 0 <= i < |Seen(c, l, r)|
      ensures Seen(c, l, r)[i].0 < r
    {
      SeenEntry(c, l, r, i);
    }
  }

  // The copy of a valid round.
  method RoundCopy(variant: Variant, x: Inputs, tiling: Tiling, offsets: seq<int>, group: int, r: nat, b: Memory, ghost d: Data)
    returns (next: Memory)
    requires Launch(tiling, offsets) && Matches(x, tiling) && 0 <= group < tiling.blockDim
    requires r < Rounds(variant, tiling, offsets, group) && GroupWork(variant, tiling, offsets, group, 0, r).valid
    requires Follows(b, d, L1Tiles(variant, x, tiling, offsets, group), x.kDim, Rounds(variant, tiling, offsets, group))
    ensures Follows(next, Perform(ConfigOf(variant, tiling, offsets, group), CubeMte2, CopyL1, r, d),
                    L1Tiles(variant, x, tiling, offsets, group), x.kDim, Rounds(variant, tiling, offsets, group))
  {
    var w := GroupWork(variant, tiling, offsets, group, 0, r);
    var kv := GroupTask(variant, tiling, offsets, group, r) % tiling.hg;
    RoundReadable(variant, x, tiling, offsets, group, r);
    next := DoCopyL1(ConfigOf(variant, tiling, offsets, group), x, KOffset(w.start, kv, x.hg, x.kDim), w.chunkLen, r, b, d,
                     L1Tiles(variant, x, tiling, offsets, group), Rounds(variant, tiling, offsets, group));
  }

  /** One instruction of one pipe, on the buffers: they keep following the protocol state. */
  method Step(variant: Variant, x: Inputs, tiling: Tiling, offsets: seq<int>, group: int, p: Pipe, at: Pos, b: Memory,
              ghost s: State) returns (next: Memory)
    requires Launch(tiling, offsets) && Matches(x, tiling) && 0 <= group < tiling.blockDim && GroupRuns.Fits(variant, x.kDim)
    requires Running(ConfigOf(variant, tiling, offsets, group), s, b, L1Tiles(variant, x, tiling, offsets, group), x.kDim)
    requires Enabled(ConfigOf(variant, tiling, offsets, group), s, p) && s.pc(p) == at
    ensures Follows(next, Exec(ConfigOf(variant, tiling, offsets, group), s, p).data,
                    L1Tiles(variant, x, tiling, offsets, group), x.kDim, Rounds(variant, tiling, offsets, group))
  {
    var c := ConfigOf(variant, tiling, offsets, group);
    ghost var tiles := L1Tiles(variant, x, tiling, offsets, group);
    var r, n := at.r, c.Rounds();
    Acts(c, p, r, at.k);
    match Fetch(c, p, r, at.k).act
    case NoAct => next := b;
    case CopyL1 => next := RoundCopy(variant, x, tiling, offsets, group, r, b, s.data);
    case LoadA(part) => next := DoLoadA(c, part, r, b, s.data, tiles, x.kDim, n);
    case LoadB(part) => next := DoLoadB(c, part, r, b, s.data, tiles, x.kDim, n);
    case Mmad(part) =>
      MmadReady(c, s, part);
      next := DoMmad(c, part, r, b, s.data, tiles, x.kDim, n);
    case Commit => next := DoCommit(c, r, b, s.data, tiles, x.kDim, n);
    case ClearTile => next := DoClear(c, p.l, r, b, s.data, tiles, x.kDim, n);
    case CopyTile => next := DoCopyTile(c, p.l, r, b, s.data, tiles, x.kDim, n);
    case MulTile =>
      MulReady(c, s, p.l);
      next := DoMulTile(c, p.l, r, b, s.data, tiles, x.kDim, n);
  }

  // ---------------------------------------------------------------- a whole run

  lemma {:induction false} PrefixReached(c: Config, schedule: seq<Pipe>, i: nat)
    requires Play(c, schedule).Reached? && i <= |schedule|
    ensures Play(c, schedule[..i]).Reached?
    decreases |schedule|
  {
    if i == |schedule| {
      assert schedule[..i] == schedule;
    } else {
      var front := schedule[..|schedule| - 1];
      PrefixReached(c, front, i);
      assert front[..i] == schedule[..i];
    }
  }

  // Step i of a run that is not stuck.
  lemma StepOf(c: Config, schedule: seq<Pipe>, i: nat)
    requires c.WellFormed() && Play(c, schedule).Reached? && i < |schedule|
    ensures Play(c, schedule[..i]).Reached? && Enabled(c, Play(c, schedule[..i]).s, schedule[i])
    ensures Play(c, schedule[..i + 1]) == Reached(Exec(c, Play(c, schedule[..i]).s, schedule[i]))
    ensures FlagsInv(c, Play(c, schedule[..i]).s) && DataInv(c, Play(c, schedule[..i]).s)
  {
    PrefixReached(c, schedule, i);
    PrefixReached(c, schedule, i + 1);
    assert schedule[..i + 1][..i] == schedule[..i];
    PlayKeepsData(c, schedule[..i]);
  }

  lemma StartFollows(c: Config, start: Memory, tiles: int -> seq<real>, kDim: int)
    requires Sized(start, kDim, c.Rounds())
    ensures Follows(start, Init(c).data, tiles, kDim, c.Rounds())
  {}

  /** In every finished interleaving, whatever the buffers held before it, each lane has taken for every
      tile it multiplied that tile's values over what the copies left in L1. */
  method RunProtocol(variant: Variant, x: Inputs, tiling: Tiling, offsets: seq<int>, group: int, schedule: seq<Pipe>,
                     start: Memory) returns (taken: seq<seq<seq<real>>>)
    requires Launch(tiling, offsets) && Matches(x, tiling) && 0 <= group < tiling.blockDim && GroupRuns.Fits(variant, x.kDim)
    requires FinishedRun(ConfigOf(variant, tiling, offsets, group), schedule)
    requires Sized(start, x.kDim, Rounds(variant, tiling, offsets, group))
    ensures |taken| == 2
    ensures forall lane :: 0 <= lane <= 1 ==>
      ReadBy(SeenBy(ConfigOf(variant, tiling, offsets, group), schedule, lane),
             L1Tiles(variant, x, tiling, offsets, group), taken[lane])
  {
    var c := ConfigOf(variant, tiling, offsets, group);
    ghost var tiles := L1Tiles(variant, x, tiling, offsets, group);
    ConfigWellFormed(variant, tiling, offsets, group);
    StartFollows(c, start, tiles, x.kDim);
    var b := start;
    var pc: Pipe -> Pos := _ => Pos(0, 0);
    PrefixReached(c, schedule, 0);
    for i := 0 to |schedule|
      invariant Play(c, schedule[..i]).Reached?
      invariant forall p :: pc(p) == Play(c, schedule[..i]).s.pc(p)
      invariant Follows(b, Play(c, schedule[..i]).s.data, tiles, x.kDim, c.Rounds())
    {
      var p, before := schedule[i], pc;
      StepOf(c, schedule, i);
      b := Step(variant, x, tiling, offsets, group, p, before(p), b, Play(c, schedule[..i]).s);
      pc := q => if q == p then Next(c, p, before(p)) else before(q);
    }
    assert schedule[..|schedule|] == schedule;
    taken := b.taken;
    forall lane | 0 <= lane <= 1
      ensures ReadBy(SeenBy(c, schedule, lane), tiles, taken[lane])
    {
      assert Index(LaneOf(lane)) == lane;
    }
  }
}
