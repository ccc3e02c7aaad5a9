/** v03's lane: the same rounds over the cyclic schedule, with the first gate batch of the next task
    prefetched during the last pair of a full 64-row task. */
module GatePrefetchV03 {
  import opened Schedule
  import opened LaneOps
  import opened VectorLane

  // Every row of a full chunk and an even number of heads: the constant-parameter path.
  predicate Full64(w: Work) {
    w.chunkLen == 64 && w.rowStart == 0 && w.rowCount == 64 && w.totalHeads >= 2 && w.totalHeads % 2 == 0
  }

  /** The tasks a prefetch may run ahead to. */
  predicate Prefetchable(tiling: Tiling, offsets: seq<int>, task: int, lane: int)
    requires Launch(tiling, offsets) && 0 <= task && 0 <= lane
  {
    task < tiling.totalTaskCount && tiling.numRepeat >= 2
    && TaskWork(tiling, offsets, task, lane).HasWork() && Full64(TaskWork(tiling, offsets, task, lane))
  }

  /** Whether a task prefetches for the next one: it takes the constant path with at least two pairs, and so
      may the next. */
  predicate PrefetchesNext(tiling: Tiling, offsets: seq<int>, w: Work, nextTask: int, lane: int)
    requires Launch(tiling, offsets) && 0 <= nextTask && 0 <= lane
  {
    Full64(w) && w.totalHeads >= 4 && Prefetchable(tiling, offsets, nextTask, lane)
  }

  // The loads in flight when a task starts.
  function Loads(tiling: Tiling, offsets: seq<int>, task: int, lane: int, prefetched: bool): seq<GateBatch>
    requires Launch(tiling, offsets) && 0 <= task && 0 <= lane
    requires prefetched ==> task < tiling.totalTaskCount
  {
    if prefetched then [BatchAt(TaskWork(tiling, offsets, task, lane), 0)] else []
  }

  // The trace before batch b of a task that started at t0: the slot is released with batch 0.
  function BeforeBatch(t0: seq<Op>, w: Work, b: int, round: int, reuse: bool): seq<Op> {
    if b == 0 then t0 else t0 + Posts(round, reuse) + Multiplies(w, round, HeadsDone(w, b))
  }

  lemma NextBatch(t0: seq<Op>, w: Work, b: int, round: int, reuse: bool)
    requires WorkShape(w) && 0 <= b < BatchCount(w)
    ensures BeforeBatch(t0, w, b, round, reuse) + (if b == 0 then Posts(round, reuse) else [])
            + MultipliesOf(BatchTiles(BatchAt(w, b), w, round))
         == BeforeBatch(t0, w, b + 1, round, reuse)
  {
    var tiles := MultipliesOf(BatchTiles(BatchAt(w, b), w, round));
    BatchHeadsNext(w, b, round);
    if b == 0 {
      assert Multiplies(w, round, 0) == [] && [] + tiles == tiles;
    } else {
      Associate(t0 + Posts(round, reuse), Multiplies(w, round, HeadsDone(w, b)), tiles);
      assert BeforeBatch(t0, w, b, round, reuse) + [] == BeforeBatch(t0, w, b, round, reuse);
    }
  }

  class PrefetchingLane {
    const tiling: Tiling
    const offsets: seq<int>
    const groupId: int
    const aivLane: int
    var gQueue: GateQueue
    var betaQueue: GateQueue
    var trace: seq<Op>

    ghost predicate Configured() {
      Launch(tiling, offsets) && 0 <= groupId < tiling.blockDim && 0 <= aivLane <= 1
    }

    ghost predicate Holding(enqueued: seq<GateBatch>)
      reads this
    {
      gQueue == betaQueue == GateQueue(enqueued, 0)
    }

    // The state between tasks: a prefetched batch is the one the task would have asked for.
    ghost predicate Ahead(task: int, prefetched: bool)
      reads this
    {
      && Configured() && 0 <= task && (prefetched ==> Prefetchable(tiling, offsets, task, aivLane))
      && Holding(Loads(tiling, offsets, task, aivLane, prefetched))
    }

    constructor (tiling: Tiling, offsets: seq<int>, groupId: int, aivLane: int)
      requires Launch(tiling, offsets) && 0 <= groupId < tiling.blockDim && 0 <= aivLane <= 1
      ensures Ahead(groupId, false) && trace == []
      ensures this.tiling == tiling && this.offsets == offsets
      ensures this.groupId == groupId && this.aivLane == aivLane
    {
      this.tiling := tiling;
      this.offsets := offsets;
      this.groupId := groupId;
      this.aivLane := aivLane;
      gQueue := GateQueue([], 0);
      betaQueue := GateQueue([], 0);
      trace := [];
    }

    method Prefetch(batch: GateBatch)
      requires gQueue.HasBuffer() && betaQueue.HasBuffer()
      modifies this`gQueue, this`betaQueue
      ensures gQueue == old(gQueue).EnQue(batch) && betaQueue == old(betaQueue).EnQue(batch)
      ensures |gQueue.enqueued| + gQueue.taken <= 2 && |betaQueue.enqueued| + betaQueue.taken <= 2
    {
      gQueue, betaQueue := gQueue.EnQue(batch), betaQueue.EnQue(batch);
    }

    /** True exactly when the task exists and takes the constant path; then its first batch, and nothing
        else, is in flight. */
    method TryPrefetchTaskFirstBatch(task: int) returns (ok: bool)
      requires Configured() && 0 <= task && gQueue == betaQueue == GateQueue([], 1)
      modifies this`gQueue, this`betaQueue
      ensures ok == Prefetchable(tiling, offsets, task, aivLane)
      ensures gQueue == betaQueue == GateQueue(Loads(tiling, offsets, task, aivLane, ok), 1)
    {
      if task >= tiling.totalTaskCount || tiling.numRepeat < 2 {
        return false;
      }
      TaskParts(task, tiling.totalTaskCount, tiling.hg);
      var kvHead, chunk := task % tiling.hg, task / tiling.hg;
      var start, end := offsets[chunk], offsets[chunk + 1];
      if start < 0 || end > tiling.t || end - start != 64 {
        return false;
      }
      var splitRepeat := tiling.numRepeat / 2;
      var firstRepeat := if aivLane == 0 then 0 else splitRepeat;
      var repeatEnd := if aivLane == 0 then splitRepeat else tiling.numRepeat;
      var localHeads := repeatEnd - firstRepeat;
      if localHeads < 2 || localHeads % 2 != 0 {
        return false;
      }
      Prefetch(GateBatch(kvHead * tiling.numRepeat + firstRepeat, start, 64, 2));
      return true;
    }

    method ReleaseSlot(round: int, reuse: bool)
      modifies this`trace
      ensures trace == old(trace) + Posts(round, reuse)
    {
      if reuse {
        trace := trace + [PostFree(round % 2)];
      }
    }

    // The next load of a constant-path task: its next pair, or the next task's first batch when this
    // task has at least two pairs.
    method PrefetchAfterPair(w: Work, pair: int, nextTask: int) returns (ok: bool)
      requires Configured() && Full64(w) && 0 <= pair < BatchCount(w) && 0 <= nextTask
      requires gQueue == betaQueue == GateQueue([], 1)
      modifies this`gQueue, this`betaQueue
      ensures ok == (pair + 1 == BatchCount(w) && PrefetchesNext(tiling, offsets, w, nextTask, aivLane))
      ensures gQueue == betaQueue == GateQueue(AfterPair(w, pair, nextTask, ok), 1)
    {
      ok := false;
      if pair + 1 < BatchCount(w) {
        Prefetch(GateBatch(w.firstHead + 2 * pair + 2, w.start, 64, 2));
      } else if BatchCount(w) >= 2 {
        ok := TryPrefetchTaskFirstBatch(nextTask);
      }
    }

    function AfterPair(w: Work, pair: int, nextTask: int, ok: bool): seq<GateBatch>
      requires Configured() && 0 <= nextTask && (ok ==> nextTask < tiling.totalTaskCount)
    {
      if pair + 1 < BatchCount(w) then [BatchAt(w, pair + 1)] else Loads(tiling, offsets, nextTask, aivLane, ok)
    }

    // One pair: every DeQue finds the pair being processed.
    method ProcessPair(w: Work, pair: int, round: int, reuse: bool, nextTask: int) returns (ok: bool)
      requires Configured() && Full64(w) && 0 <= pair < BatchCount(w) && 0 <= nextTask
      requires Holding([BatchAt(w, pair)])
      modifies this
      ensures ok == (pair + 1 == BatchCount(w) && PrefetchesNext(tiling, offsets, w, nextTask, aivLane))
      ensures Holding(AfterPair(w, pair, nextTask, ok))
      ensures trace == old(trace) + (if pair == 0 then Posts(round, reuse) else [])
                       + MultipliesOf(BatchTiles(BatchAt(w, pair), w, round))
    {
      var gates, betas := gQueue.enqueued[0], betaQueue.enqueued[0];
      gQueue, betaQueue := gQueue.DeQue(), betaQueue.DeQue();
      if pair == 0 {
        ReleaseSlot(round, reuse);
      }
      ok := PrefetchAfterPair(w, pair, nextTask);
      trace := trace + MultipliesOf(BatchTiles(gates, w, round));
      gQueue, betaQueue := gQueue.FreeTensor(), betaQueue.FreeTensor();
    }

    method ProcessFull64HeadRange(w: Work, round: int, reuse: bool, nextTask: int) returns (ok: bool)
      requires Configured() && WorkShape(w) && Full64(w) && 0 <= nextTask && Holding([BatchAt(w, 0)])
      modifies this
      ensures Ahead(nextTask, ok) && ok == PrefetchesNext(tiling, offsets, w, nextTask, aivLane)
      ensures trace == old(trace) + Posts(round, reuse) + Multiplies(w, round, w.totalHeads)
    {
      ghost var t0 := trace;
      ok := false;
      var pair := 0;
      while pair < BatchCount(w)
        invariant 0 <= pair <= BatchCount(w)
        invariant ok == (pair == BatchCount(w) && PrefetchesNext(tiling, offsets, w, nextTask, aivLane))
        invariant Holding(if pair < BatchCount(w) then [BatchAt(w, pair)] else Loads(tiling, offsets, nextTask, aivLane, ok))
        invariant trace == BeforeBatch(t0, w, pair, round, reuse)
        decreases BatchCount(w) - pair
      {
        NextBatch(t0, w, pair, round, reuse);
        ok := ProcessPair(w, pair, round, reuse, nextTask);
        pair := pair + 1;
      }
    }

    // One batch of the general path.
    method ProcessBatch(w: Work, b: int, round: int, reuse: bool)
      requires 0 <= b < BatchCount(w) && Holding([BatchAt(w, b)])
      modifies this
      ensures Holding(if b + 1 < BatchCount(w) then [BatchAt(w, b + 1)] else [])
      ensures trace == old(trace) + (if b == 0 then Posts(round, reuse) else [])
                       + MultipliesOf(BatchTiles(BatchAt(w, b), w, round))
    {
      var gates, betas := gQueue.enqueued[0], betaQueue.enqueued[0];
      gQueue, betaQueue := gQueue.DeQue(), betaQueue.DeQue();
      if b == 0 {
        ReleaseSlot(round, reuse);
      }
      if b + 1 < BatchCount(w) {
        Prefetch(BatchAt(w, b + 1));
      }
      trace := trace + MultipliesOf(BatchTiles(gates, w, round));
      gQueue, betaQueue := gQueue.FreeTensor(), betaQueue.FreeTensor();
    }

    method ProcessGeneralHeadRange(w: Work, round: int, reuse: bool)
      requires WorkShape(w) && Holding([BatchAt(w, 0)])
      modifies this
      ensures Holding([])
      ensures trace == old(trace) + Posts(round, reuse) + Multiplies(w, round, w.totalHeads)
    {
      ghost var t0 := trace;
      var b := 0;
      while b < BatchCount(w)
        invariant 0 <= b <= BatchCount(w)
        invariant Holding(if b < BatchCount(w) then [BatchAt(w, b)] else [])
        invariant trace == BeforeBatch(t0, w, b, round, reuse)
        decreases BatchCount(w) - b
      {
        NextBatch(t0, w, b, round, reuse);
        ProcessBatch(w, b, round, reuse);
        b := b + 1;
      }
      assert HeadsDone(w, b) == w.totalHeads;
    }

    method ProcessHeadRange(w: Work, round: int, reuse: bool, nextTask: int) returns (ok: bool)
      requires Configured() && WorkShape(w) && 0 <= nextTask && Holding([BatchAt(w, 0)])
      modifies this
      ensures Ahead(nextTask, ok) && ok == PrefetchesNext(tiling, offsets, w, nextTask, aivLane)
      ensures trace == old(trace) + Posts(round, reuse) + Multiplies(w, round, w.totalHeads)
    {
      if Full64(w) {
        ok := ProcessFull64HeadRange(w, round, reuse, nextTask);
      } else {
        ProcessGeneralHeadRange(w, round, reuse);
        ok := false;
      }
    }

    /** One task, whether or not its first batch is already in flight: the same visible operations, and the
        next task's first batch requested exactly when both take the constant path and this one has two
        pairs. */
    method ProcessPipelineTask(task: int, nextTask: int, round: int, prefetched: bool) returns (ok: bool)
      requires 0 <= task < tiling.totalTaskCount && 0 <= nextTask && Ahead(task, prefetched)
      modifies this
      ensures Ahead(nextTask, ok)
      ensures
        var w := TaskWork(tiling, offsets, task, aivLane);
        ok == (w.HasWork() && PrefetchesNext(tiling, offsets, w, nextTask, aivLane))
      ensures trace == old(trace) + RoundOps(TaskWork(tiling, offsets, task, aivLane), round,
                                             task + 2 * tiling.blockDim < tiling.totalTaskCount)
    {
      var willReuseSlot := task + 2 * tiling.blockDim < tiling.totalTaskCount;
      var w := ReadTask(task);
      if w.HasWork() && !prefetched {
        Prefetch(BatchAt(w, 0));
      }
      trace := trace + [WaitReady(round % 2)];
      if !w.HasWork() {
        ReleaseSlot(round, willReuseSlot);
        return false;
      }
      trace := trace + [LoadOf(w, round)];
      ok := ProcessHeadRange(w, round, willReuseSlot, nextTask);
    }

    method ReadTask(task: int) returns (w: Work)
      requires Configured() && 0 <= task < tiling.totalTaskCount
      ensures w == TaskWork(tiling, offsets, task, aivLane)
      ensures w.HasWork() ==> WorkShape(w)
    {
      TaskParts(task, tiling.totalTaskCount, tiling.hg);
      var chunk := task / tiling.hg;
      w := WorkOn(offsets[chunk], offsets[chunk + 1], tiling.t, tiling.numRepeat, task % tiling.hg, aivLane);
      if w.HasWork() {
        WorkShaped(offsets[chunk], offsets[chunk + 1], tiling.t, tiling.numRepeat, task % tiling.hg, aivLane);
      }
    }

    /** The whole run: every round's operations in order, and no load left in flight.  Where the released
        kernel walks cyclically too, its lane performs the same visible operations. */
    method Process()
      requires Ahead(groupId, false) && trace == []
      modifies this
      ensures
        var works := CyclicWorks(tiling, offsets, groupId, aivLane);
        trace == WorksTrace(works, |works|)
      ensures Holding([])
      ensures ModeOf(tiling) == Cyclic ==> trace == LaneTrace(tiling, offsets, groupId, aivLane)
    {
      Walk(CyclicWorks(tiling, offsets, groupId, aivLane));
      if ModeOf(tiling) == Cyclic { CyclicIsLane(tiling, offsets, groupId, aivLane); }
    }

    method Walk(ghost works: seq<Work>)
      requires Ahead(groupId, false) && trace == [] && 0 <= groupId < tiling.blockDim && 0 <= aivLane
      requires works == CyclicWorks(tiling, offsets, groupId, aivLane)
      modifies this
      ensures trace == WorksTrace(works, |works|) && Holding([])
    {
      var localRound, taskId, prefetched := 0, groupId, false;
      CyclicWalk(tiling, offsets, groupId, aivLane, works, 0);
      while taskId < tiling.totalTaskCount
        invariant 0 <= localRound <= |works| && taskId == groupId + localRound * tiling.blockDim
        invariant taskId < tiling.totalTaskCount <==> localRound < |works|
        invariant Ahead(taskId, prefetched) && trace == WorksTrace(works, localRound)
        decreases tiling.totalTaskCount - taskId
      {
        CyclicWalk(tiling, offsets, groupId, aivLane, works, localRound);
        CyclicWalk(tiling, offsets, groupId, aivLane, works, localRound + 1);
        prefetched := Round(taskId, localRound, prefetched, works);
        taskId := taskId + tiling.blockDim;
        localRound := localRound + 1;
      }
    }

    // The next round of the walk.
    method Round(taskId: int, localRound: int, prefetched: bool, ghost works: seq<Work>) returns (ok: bool)
      requires 0 <= taskId < tiling.totalTaskCount && Ahead(taskId, prefetched)
      requires 0 <= localRound < |works| && works[localRound] == TaskWork(tiling, offsets, taskId, aivLane)
      requires localRound + 2 < |works| <==> taskId + 2 * tiling.blockDim < tiling.totalTaskCount
      requires trace == WorksTrace(works, localRound)
      modifies this
      ensures Ahead(taskId + tiling.blockDim, ok) && trace == WorksTrace(works, localRound + 1)
    {
      ok := ProcessPipelineTask(taskId, taskId + tiling.blockDim, localRound, prefetched);
    }
  }
}
