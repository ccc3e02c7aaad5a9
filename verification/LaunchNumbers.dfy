/** Which schedule a launch runs and which tasks its groups get, in the numbers the host sends. */
module LaunchNumbers {
  import opened Schedule
  import opened LaneOps

  /** Group-aligned: three or four heads a KV group, groups a multiple of the KV heads, and one of three
      ranges of task counts. */
  lemma AlignedIff(n: Tiling)
    ensures ModeOf(n) == GroupAligned
       <==> (n.numRepeat == 3 || n.numRepeat == 4) && n.hg >= 1 && n.blockDim >= 1 && n.blockDim % n.hg == 0
            && ((n.hg == 2 && 33 <= n.totalTaskCount <= 400)
                || (n.blockDim == 16 && n.hg == 16 && 81 <= n.totalTaskCount <= 400)
                || (n.blockDim == 16 && n.hg == 8 && n.numRepeat == 4 && 81 <= n.totalTaskCount <= 256))
  {}

  /** Chunk-local: three heads a KV group otherwise. */
  lemma ChunkLocalIff(n: Tiling)
    ensures ModeOf(n) == ChunkLocal
       <==> n.numRepeat == 3
            && !(n.hg >= 1 && n.blockDim >= 1 && n.blockDim % n.hg == 0
                 && ((n.hg == 2 && 33 <= n.totalTaskCount <= 400)
                     || (n.blockDim == 16 && n.hg == 16 && 81 <= n.totalTaskCount <= 400)))
  {
    AlignedIff(n);
  }

  /** Cyclic: the rest, so every other head count but the group-aligned launches with four. */
  lemma CyclicIff(n: Tiling)
    ensures ModeOf(n) == Cyclic
       <==> n.numRepeat != 3
            && !(n.numRepeat == 4 && n.hg >= 1 && n.blockDim >= 1 && n.blockDim % n.hg == 0
                 && ((n.hg == 2 && 33 <= n.totalTaskCount <= 400)
                     || (n.blockDim == 16 && n.hg == 16 && 81 <= n.totalTaskCount <= 400)
                     || (n.blockDim == 16 && n.hg == 8 && 81 <= n.totalTaskCount <= 256)))
  {
    AlignedIff(n);
  }

  lemma ExtraIsRemainder(chunks: int, cores: int)
    requires cores >= 1
    ensures chunks - chunks / cores * cores == chunks % cores
  {}

  lemma CoreOfGroup(group: int, cores: int)
    requires cores >= 1
    ensures group - group / cores * cores == group % cores
  {}

  /** A group-aligned launch gives each KV head blockDim / hg consecutive groups and each of them a range of
      consecutive chunks of that head, the first ones one chunk more. */
  lemma AlignedTasks(n: Tiling, offsets: seq<int>, group: int)
    requires Launch(n, offsets) && ModeOf(n) == GroupAligned && 0 <= group < n.blockDim
    ensures n.blockDim / n.hg >= 1
    ensures
      var chunks, cores := n.totalTaskCount / n.hg, n.blockDim / n.hg;
      && TaskCount(n, offsets, group) == chunks / cores + (if group % cores < chunks % cores then 1 else 0)
      && forall r :: 0 <= r < TaskCount(n, offsets, group) ==>
           Task(n, offsets, group, r)
           == (group % cores * (chunks / cores) + Min(group % cores, chunks % cores) + r) * n.hg + group / cores
  {
    CoresDivide(n.hg, n.blockDim);
    ExtraIsRemainder(n.totalTaskCount / n.hg, n.blockDim / n.hg);
    CoreOfGroup(group, n.blockDim / n.hg);
  }

  /** A cyclic launch deals the task ids out to the groups in turn. */
  lemma CyclicTasks(n: Tiling, offsets: seq<int>, group: int, r: int)
    requires Launch(n, offsets) && ModeOf(n) == Cyclic && 0 <= group < n.blockDim && 0 <= r
    ensures r < TaskCount(n, offsets, group) <==> group + r * n.blockDim < n.totalTaskCount
    ensures r < TaskCount(n, offsets, group) ==> Task(n, offsets, group, r) == group + r * n.blockDim
  {
    CyclicIds(group, r, TaskCount(n, offsets, group), n.totalTaskCount, n.hg, n.blockDim);
  }

  /** A chunk-local launch cuts the stream of all chunks of KV head 0, then of head 1 and so on, into one
      contiguous range a group. */
  lemma ChunkLocalTasks(n: Tiling, offsets: seq<int>, group: int, r: int)
    requires Launch(n, offsets) && ModeOf(n) == ChunkLocal && 0 <= group < n.blockDim
    requires 0 <= r < TaskCount(n, offsets, group)
    ensures n.totalTaskCount / n.hg >= 1
    ensures TaskCount(n, offsets, group)
         == n.totalTaskCount * (group + 1) / n.blockDim - n.totalTaskCount * group / n.blockDim
    ensures
      var chunks, position := n.totalTaskCount / n.hg, n.totalTaskCount * group / n.blockDim + r;
      Task(n, offsets, group, r) == position % chunks * n.hg + position / chunks
  {
    ChunksPositive(n.totalTaskCount, n.hg);
    CoreOfGroup(n.totalTaskCount * group / n.blockDim + r, n.totalTaskCount / n.hg);
  }
}
