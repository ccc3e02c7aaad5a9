/** The host side: which shapes are accepted, how many MIX groups run, how much workspace they get, and
    what the kernel makes of it. */
module HostTiling {
  import opened Schedule
  import opened LaneOps

  datatype Shape = Shape(t: int, h: int, hg: int, kDim: int, numChunks: int) {
    predicate Valid() {
      t > 0 && h > 0 && hg > 0 && (kDim == 128 || kDim == 256) && h % hg == 0 && numChunks >= 1
    }
    function TaskCount(): int { numChunks * hg }
    function HeadPerGroup(): int
      requires hg > 0
    {
      h / hg
    }
  }

  datatype Option<T> = None | Some(value: T)

  /** The accepted inputs, by the dimensions of k, beta, g_cumsum and chunk_offsets. */
  ghost predicate Accepted(k: seq<int>, beta: seq<int>, g: seq<int>, offsets: seq<int>) {
    exists s: Shape :: s.Valid() && Describes(s, k, beta, g, offsets)
  }

  predicate Describes(s: Shape, k: seq<int>, beta: seq<int>, g: seq<int>, offsets: seq<int>) {
    k == [1, s.t, s.hg, s.kDim] && beta == g == [1, s.h, s.t] && offsets == [s.numChunks + 1]
  }

  /** In the tensors' own dimensions: k is [1, T, Hg, K] with K 128 or 256, beta and g are [1, H, T] with H a
      multiple of Hg, all positive, and there are at least two chunk boundaries. */
  lemma AcceptedIff(k: seq<int>, beta: seq<int>, g: seq<int>, offsets: seq<int>)
    ensures Accepted(k, beta, g, offsets)
       <==> |k| == 4 && |beta| == 3 && g == beta && |offsets| == 1 && offsets[0] >= 2
            && k[0] == 1 && k[1] >= 1 && k[2] >= 1 && (k[3] == 128 || k[3] == 256)
            && beta[0] == 1 && beta[1] >= 1 && beta[1] % k[2] == 0 && beta[2] == k[1]
  {
    if |k| == 4 && |beta| == 3 && g == beta && |offsets| == 1 && offsets[0] >= 2
       && k[0] == 1 && k[1] >= 1 && k[2] >= 1 && (k[3] == 128 || k[3] == 256)
       && beta[0] == 1 && beta[1] >= 1 && beta[1] % k[2] == 0 && beta[2] == k[1] {
      var s := Shape(k[1], beta[1], k[2], k[3], offsets[0] - 1);
      assert s.Valid() && Describes(s, k, beta, g, offsets);
    }
  }

  method ValidateAndReadShape(k: seq<int>, beta: seq<int>, g: seq<int>, offsets: seq<int>) returns (r: Option<Shape>)
    ensures r.Some? <==> Accepted(k, beta, g, offsets)
    ensures r.Some? ==> r.value.Valid() && Describes(r.value, k, beta, g, offsets)
  {
    if |k| != 4 { return None; }
    if |beta| != 3 || |g| != 3 { return None; }
    if |offsets| != 1 { return None; }
    var b, t, hg, kDim, h := k[0], k[1], k[2], k[3], beta[1];
    if b != 1 { return None; }
    if t <= 0 || h <= 0 || hg <= 0 { return None; }
    if kDim != 128 && kDim != 256 { return None; }
    if h % hg != 0 { return None; }
    if beta[0] != b || beta[2] != t { return None; }
    if g[0] != b || g[1] != h || g[2] != t { return None; }
    if offsets[0] < 2 { return None; }
    var s := Shape(t, h, hg, kDim, offsets[0] - 1);
    assert Describes(s, k, beta, g, offsets);
    return Some(s);
  }

  function Min64(a: int, b: int): int { if b < a then b else a }
  function Max64(a: int, b: int): int { if a < b then b else a }

  const SLOT_COUNT := 2
  const KKT_SLOT_BYTES := 64 * 64 * 4
  const CHAMP_SMALL_TASK_BLOCK_DIM := 8

  predicate AllChunksFull(s: Shape) { s.t == s.numChunks * 64 }

  predicate FullAlignedGh2(s: Shape)
    requires s.hg > 0
  {
    s.hg == 2 && s.kDim == 256 && s.HeadPerGroup() == 4 && 80 < s.TaskCount() <= 400 && AllChunksFull(s)
  }

  predicate GroupAlignedShape(s: Shape)
    requires s.hg > 0
  {
    || (s.hg == 16 && s.kDim == 128 && (s.HeadPerGroup() == 3 || s.HeadPerGroup() == 4) && 80 < s.TaskCount() <= 400)
    || (s.hg == 8 && s.kDim == 128 && s.HeadPerGroup() == 4 && 80 < s.TaskCount() <= 256)
    || (s.hg == 2 && s.kDim == 128 && s.HeadPerGroup() == 4 && 400 < s.TaskCount() <= 512 && !AllChunksFull(s))
  }

  // The shapes for which the host asks for sixteen groups.
  predicate SixteenGroups(s: Shape)
    requires s.hg > 0
  {
    s.TaskCount() > 32 && (FullAlignedGh2(s) || GroupAlignedShape(s))
  }

  // The policy's group count for a shape, limited to the cores there are.
  predicate PolicyGives(s: Shape, aicNum: int, blockDim: int)
    requires s.Valid()
  {
    && (s.TaskCount() <= 32 ==> blockDim == if aicNum < 8 then aicNum else 8)
    && (SixteenGroups(s) ==> blockDim == if aicNum < 16 then aicNum else 16)
    && (s.TaskCount() > 32 && !SixteenGroups(s) ==> blockDim == if aicNum < s.TaskCount() then aicNum else s.TaskCount())
  }

  method SelectBlockDim(s: Shape, aicNum: int) returns (blockDim: int)
    requires s.Valid() && aicNum > 0
    ensures 1 <= blockDim <= aicNum
    ensures s.numChunks * s.hg <= 32 ==> blockDim == if aicNum < 8 then aicNum else 8
    ensures SixteenGroups(s) ==> blockDim == if aicNum < 16 then aicNum else 16
    ensures s.numChunks * s.hg > 32 && !SixteenGroups(s) ==>
      blockDim == if aicNum < s.numChunks * s.hg then aicNum else s.numChunks * s.hg
  {
    var totalTaskCount := s.TaskCount();
    var defaultBlockDim := Max64(1, Min64(aicNum, totalTaskCount));
    var selectedBlockDim := defaultBlockDim;
    if totalTaskCount <= 32 {
      selectedBlockDim := CHAMP_SMALL_TASK_BLOCK_DIM;
    } else if FullAlignedGh2(s) || GroupAlignedShape(s) {
      selectedBlockDim := CHAMP_GROUP_ALIGNED_CORE_COUNT;
    }
    blockDim := Max64(1, Min64(aicNum, selectedBlockDim));
  }

  /** Which shapes these are: sixteen KV heads of three or four heads with 81 to 400 tasks, eight of four with
      81 to 256, or two of four with 401 to 512 tasks and a chunk that is not full, for K = 128; two of four
      with 81 to 400 tasks and only full chunks for K = 256. */
  lemma SixteenGroupsIff(s: Shape)
    requires s.Valid()
    ensures
      var tasks, heads, full := s.numChunks * s.hg, s.h / s.hg, s.t == s.numChunks * 64;
      SixteenGroups(s)
      <==> (s.kDim == 128 && s.hg == 16 && (heads == 3 || heads == 4) && 81 <= tasks <= 400)
           || (s.kDim == 128 && s.hg == 8 && heads == 4 && 81 <= tasks <= 256)
           || (s.kDim == 128 && s.hg == 2 && heads == 4 && 401 <= tasks <= 512 && !full)
           || (s.kDim == 256 && s.hg == 2 && heads == 4 && 81 <= tasks <= 400 && full)
  {}

  function TilingOf(s: Shape, blockDim: int): Tiling
    requires s.Valid()
  {
    Tiling(s.TaskCount(), s.t, s.hg, blockDim, s.HeadPerGroup())
  }

  /** Any positive block count makes a launchable tiling: the chunk offsets have the right length, there is
      work, and the schedule the kernel picks has its divisibility preconditions. */
  lemma TilingLaunches(s: Shape, blockDim: int, offsets: seq<int>)
    requires s.Valid() && blockDim >= 1 && |offsets| == s.numChunks + 1
    ensures Launch(TilingOf(s, blockDim), offsets)
  {
    MulMono(1, s.numChunks, s.hg);
    DivUnique(s.numChunks, s.hg, 0);
    DivGe(s.h, s.hg, 1);
    assert s.h >= s.hg by { if s.h < s.hg { DivUnique(0, s.hg, s.h); } }
  }

  /** For every accepted input and positive core count the launch is well-formed, with between one and all
      cores, and the workspace holds two tiles per group. */
  method ChunkScaledDotKktTiling(aicNum: int, k: seq<int>, beta: seq<int>, g: seq<int>, offsetDims: seq<int>,
                                 offsets: seq<int>)
    returns (r: Option<Tiling>, userWorkspace: int)
    requires offsetDims != [] ==> |offsets| == offsetDims[0]
    ensures r.Some? <==> aicNum > 0 && Accepted(k, beta, g, offsetDims)
    ensures r.Some? ==>
      && Launch(r.value, offsets) && 1 <= r.value.blockDim <= aicNum
      && r.value.t == k[1] && r.value.hg == k[2] && r.value.numRepeat * r.value.hg == beta[1]
      && r.value.totalTaskCount == (|offsets| - 1) * r.value.hg
      && (forall s: Shape | s.Valid() && Describes(s, k, beta, g, offsetDims) :: PolicyGives(s, aicNum, r.value.blockDim))
      && userWorkspace == r.value.blockDim * 2 * (64 * 64 * 4)
  {
    r, userWorkspace := None, 0;
    if aicNum <= 0 {
      return;
    }
    var shape := ValidateAndReadShape(k, beta, g, offsetDims);
    if shape.None? {
      return;
    }
    var s := shape.value;
    var blockDim := SelectBlockDim(s, aicNum);
    TilingLaunches(s, blockDim, offsets);
    assert forall u: Shape | u.Valid() && Describes(u, k, beta, g, offsetDims) :: u == s;
    r := Some(TilingOf(s, blockDim));
    userWorkspace := blockDim * SLOT_COUNT * KKT_SLOT_BYTES;
  }

  // ---------------------------------------------------------------- host policy and kernel choice

  /** With at least sixteen cores, a shape the host gives sixteen groups runs group-aligned exactly when
      its task count is not above the kernel's rollback limit. */
  lemma PolicyMeetsKernel(s: Shape, aicNum: int)
    requires s.Valid() && aicNum >= 16 && SixteenGroups(s)
    ensures UseChampionGroupAlignedSchedule(TilingOf(s, Min64(aicNum, 16))) <==> s.TaskCount() <= 400
  {}

  /** Conversely, with at least sixteen cores, the K = 128 shapes with sixteen KV heads of three or four heads
      and 81 to 400 tasks, or eight of four and 81 to 256, run group-aligned on sixteen groups. */
  lemma PolicyRunsAligned(s: Shape, aicNum: int, blockDim: int)
    requires s.Valid() && aicNum >= 16 && s.kDim == 128 && PolicyGives(s, aicNum, blockDim)
    requires (s.hg == 16 && (s.h / s.hg == 3 || s.h / s.hg == 4) && 81 <= s.numChunks * s.hg <= 400)
          || (s.hg == 8 && s.h / s.hg == 4 && 81 <= s.numChunks * s.hg <= 256)
    ensures blockDim == 16 && ModeOf(TilingOf(s, blockDim)) == GroupAligned
  {
    SixteenGroupsIff(s);
  }

  /** The rolled-back shapes are those with two KV heads: the host still gives them sixteen groups. */
  lemma RolledBack(s: Shape, aicNum: int)
    requires s.Valid() && aicNum >= 16 && SixteenGroups(s)
    ensures ModeOf(TilingOf(s, Min64(aicNum, 16))) != GroupAligned
       <==> s.hg == 2 && s.kDim == 128 && s.TaskCount() > 400
  {
    PolicyMeetsKernel(s, aicNum);
  }

  // ---------------------------------------------------------------- workspace

  // Element offset of a group's slot, as both core types form it.
  function SlotOffset(group: int, slot: int): int { (group * 2 + slot) * 4096 }

  predicate InSlot(group: int, slot: int, x: int) { SlotOffset(group, slot) <= x < SlotOffset(group, slot) + 4096 }

  /** The slots partition the workspace: every element belongs to exactly one (group, slot), and every
      slot the kernel forms lies inside. */
  lemma SlotsPartition(blockDim: int, group: int, slot: int, x: int)
    requires 0 <= group < blockDim && 0 <= slot < SLOT_COUNT
    ensures 0 <= SlotOffset(group, slot)
    ensures (SlotOffset(group, slot) + 4096) * 4 <= blockDim * SLOT_COUNT * KKT_SLOT_BYTES
    ensures InSlot(group, slot, x) <==> group == x / 8192 && slot == x % 8192 / 4096
  {
    if group == x / 8192 && slot == x % 8192 / 4096 {
      assert x == 8192 * (x / 8192) + 4096 * (x % 8192 / 4096) + x % 4096;
    }
  }
}
