/** Which (head, row) of the output each lane writes: every position of a valid chunk belongs to exactly
    one group, lane and round. */
module Coverage {
  import opened Schedule
  import opened LaneOps
  import opened Golden

  predicate CoversRow(w: Work, head: int, row: int) {
    && w.HasWork() && w.firstHead <= head < w.firstHead + w.totalHeads
    && w.start + w.rowStart <= row < w.start + w.rowStart + w.rowCount
  }

  // The lane that owns a head, or with one head per KV group a half of the rows.
  function LaneFor(numRepeat: int, head: int, chunkRow: int): int
    requires numRepeat >= 1
  {
    if numRepeat >= 2 then (if head % numRepeat < numRepeat / 2 then 0 else 1)
    else if chunkRow < 32 then 0 else 1
  }

  lemma HeadParts(head: int, kv: int, numRepeat: int, a: int, b: int)
    requires numRepeat >= 1 && 0 <= a <= b <= numRepeat && head >= 0
    ensures kv * numRepeat + a <= head < kv * numRepeat + b
       <==> head / numRepeat == kv && a <= head % numRepeat < b
  {
    DivBounds(head, numRepeat);
    if kv * numRepeat + a <= head < kv * numRepeat + b {
      DivUnique(kv, numRepeat, head - kv * numRepeat);
    }
  }

  lemma LaneHeads(numRepeat: int, lane: int)
    requires numRepeat >= 2 && 0 <= lane <= 1
    ensures FirstRepeat(numRepeat, lane) == (if lane == 0 then 0 else numRepeat / 2)
    ensures RepeatEnd(numRepeat, lane) == (if lane == 0 then numRepeat / 2 else numRepeat)
  {}

  /** A lane's share of a task in numbers.  A chunk of 1 to 64 tokens inside [0, t) is worked on; with two or
      more heads a KV group lane 0 takes the first half of them, rounded down, and lane 1 the rest, for all
      rows; with one head lane 0 takes the first 32 rows and lane 1 the others. */
  lemma LaneShare(start: int, end: int, t: int, numRepeat: int, kv: int, lane: int)
    requires numRepeat >= 1 && 0 <= lane <= 1
    ensures
      var w := WorkOn(start, end, t, numRepeat, kv, lane);
      && (w.valid <==> 0 <= start && end <= t && 1 <= end - start <= 64)
      && (w.valid ==> w.start == start && w.chunkLen == end - start)
      && (w.valid && numRepeat >= 2 ==>
            && w.rowStart == 0 && w.rowCount == end - start
            && w.firstHead == kv * numRepeat + (if lane == 0 then 0 else numRepeat / 2)
            && w.totalHeads == if lane == 0 then numRepeat / 2 else numRepeat - numRepeat / 2)
      && (w.valid && numRepeat == 1 ==>
            && w.firstHead == kv && w.totalHeads == 1 && w.rowStart == 32 * lane
            && w.rowCount == if lane == 0 then (if end - start < 32 then end - start else 32)
                             else if end - start < 32 then 0 else end - start - 32)
  {
    if numRepeat >= 2 { LaneHeads(numRepeat, lane); }
  }

  /** A lane's work on a task covers exactly its share of the task's heads and rows. */
  lemma WorkCovers(start: int, end: int, t: int, numRepeat: int, kv: int, lane: int, head: int, row: int)
    requires numRepeat >= 1 && 0 <= lane <= 1 && head >= 0
    ensures CoversRow(WorkOn(start, end, t, numRepeat, kv, lane), head, row)
       <==> ValidChunk(start, end, t) && head / numRepeat == kv && start <= row < end
            && lane == LaneFor(numRepeat, head, row - start)
  {
    if ValidChunk(start, end, t) {
      var a, b := FirstRepeat(numRepeat, lane), RepeatEnd(numRepeat, lane);
      if numRepeat >= 2 { LaneHeads(numRepeat, lane); }
      HeadParts(head, kv, numRepeat, a, b);
    }
  }

  /** Group, lane and round write the output row of a head. */
  predicate Writes(tiling: Tiling, offsets: seq<int>, group: int, lane: int, round: int, head: int, row: int)
    requires Launch(tiling, offsets) && 0 <= lane <= 1
  {
    && 0 <= group < tiling.blockDim && 0 <= round < TaskCount(tiling, offsets, group)
    && CoversRow(RoundWork(tiling, offsets, group, lane, round), head, row)
  }

  function TaskOf(tiling: Tiling, chunk: int, head: int): int
    requires tiling.numRepeat >= 1
  {
    chunk * tiling.hg + head / tiling.numRepeat
  }

  // What is written lies in the chunk of the round's task.
  lemma WritesInChunk(tiling: Tiling, offsets: seq<int>, group: int, lane: int, round: int, head: int, row: int)
    requires Launch(tiling, offsets) && 0 <= lane <= 1 && head >= 0
    requires Writes(tiling, offsets, group, lane, round, head, row)
    ensures
      var task := Task(tiling, offsets, group, round);
      var chunk := task / tiling.hg;
      && InChunk(offsets, chunk, row) && ValidChunk(offsets[chunk], offsets[chunk + 1], tiling.t)
      && task == TaskOf(tiling, chunk, head) && lane == LaneFor(tiling.numRepeat, head, row - offsets[chunk])
  {
    var task := Task(tiling, offsets, group, round);
    TaskParts(task, tiling.totalTaskCount, tiling.hg);
    var chunk := task / tiling.hg;
    WorkCovers(offsets[chunk], offsets[chunk + 1], tiling.t, tiling.numRepeat, task % tiling.hg, lane, head, row);
  }

  // The owner of the task of (chunk, head).
  function Owner(tiling: Tiling, offsets: seq<int>, chunk: int, head: int): (int, int)
    requires Launch(tiling, offsets) && 0 <= TaskOf(tiling, chunk, head) < tiling.totalTaskCount
  {
    var task := TaskOf(tiling, chunk, head);
    (OwnerGroup(task, tiling.totalTaskCount, tiling.hg, tiling.blockDim, ModeOf(tiling)),
     OwnerRound(task, tiling.totalTaskCount, tiling.hg, tiling.blockDim, ModeOf(tiling)))
  }

  lemma TaskInside(tiling: Tiling, offsets: seq<int>, chunk: int, head: int)
    requires Launch(tiling, offsets) && 0 <= chunk && chunk + 1 < |offsets|
    requires 0 <= head < tiling.hg * tiling.numRepeat
    ensures 0 <= TaskOf(tiling, chunk, head) < tiling.totalTaskCount
    ensures TaskOf(tiling, chunk, head) / tiling.hg == chunk
    ensures TaskOf(tiling, chunk, head) % tiling.hg == head / tiling.numRepeat
  {
    DivGe(head, tiling.numRepeat, 0);
    DivGe(head, tiling.numRepeat, tiling.hg);
    ChunksPositive(tiling.totalTaskCount, tiling.hg);
    ChunkOfTask(chunk, head / tiling.numRepeat, tiling.hg, tiling.totalTaskCount / tiling.hg);
  }

  // The owner does write it.
  lemma OwnerWrites(tiling: Tiling, offsets: seq<int>, head: int, row: int, chunk: int)
    requires Launch(tiling, offsets) && InChunk(offsets, chunk, row) && 0 <= head < tiling.hg * tiling.numRepeat
    requires ValidChunk(offsets[chunk], offsets[chunk + 1], tiling.t)
    ensures 0 <= TaskOf(tiling, chunk, head) < tiling.totalTaskCount
    ensures Writes(tiling, offsets, Owner(tiling, offsets, chunk, head).0,
                   LaneFor(tiling.numRepeat, head, row - offsets[chunk]),
                   Owner(tiling, offsets, chunk, head).1, head, row)
  {
    TaskInside(tiling, offsets, chunk, head);
    OwnerRunsTask(TaskOf(tiling, chunk, head), tiling.totalTaskCount, tiling.hg, tiling.blockDim, ModeOf(tiling));
    WorkCovers(offsets[chunk], offsets[chunk + 1], tiling.t, tiling.numRepeat, head / tiling.numRepeat,
               LaneFor(tiling.numRepeat, head, row - offsets[chunk]), head, row);
  }

  /** Every (head, row) of a valid chunk is written by exactly one group, lane and round; a row of an
      invalid chunk by none. */
  lemma WrittenOnce(tiling: Tiling, offsets: seq<int>, head: int, row: int, chunk: int,
                    group: int, lane: int, round: int)
    requires Launch(tiling, offsets) && NonDecreasing(offsets) && InChunk(offsets, chunk, row)
    requires 0 <= head < tiling.hg * tiling.numRepeat && 0 <= lane <= 1
    ensures 0 <= TaskOf(tiling, chunk, head) < tiling.totalTaskCount
    ensures Writes(tiling, offsets, group, lane, round, head, row)
       <==> ValidChunk(offsets[chunk], offsets[chunk + 1], tiling.t)
            && (group, round) == Owner(tiling, offsets, chunk, head)
            && lane == LaneFor(tiling.numRepeat, head, row - offsets[chunk])
  {
    TaskInside(tiling, offsets, chunk, head);
    if Writes(tiling, offsets, group, lane, round, head, row) {
      WritesInChunk(tiling, offsets, group, lane, round, head, row);
      ChunkUnique(offsets, Task(tiling, offsets, group, round) / tiling.hg, chunk, row);
      ScheduledTaskOwned(group, round, tiling.totalTaskCount, tiling.hg, tiling.blockDim, ModeOf(tiling));
    }
    if ValidChunk(offsets[chunk], offsets[chunk + 1], tiling.t) {
      OwnerWrites(tiling, offsets, head, row, chunk);
    }
  }

  /** Rows outside every valid chunk are written by nobody. */
  lemma NotWritten(tiling: Tiling, offsets: seq<int>, head: int, row: int, group: int, lane: int, round: int)
    requires Launch(tiling, offsets) && 0 <= lane <= 1 && head >= 0
    requires forall c :: InChunk(offsets, c, row) ==> !ValidChunk(offsets[c], offsets[c + 1], tiling.t)
    ensures !Writes(tiling, offsets, group, lane, round, head, row)
  {
    if Writes(tiling, offsets, group, lane, round, head, row) {
      WritesInChunk(tiling, offsets, group, lane, round, head, row);
    }
  }
}
