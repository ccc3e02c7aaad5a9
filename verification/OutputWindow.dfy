/** v03's output window: up to four batches are launched at once and retired together.  Head 0 and
    head 1 of a pair live in two queues of four buffers each; a mask remembers which pending batches
    are pairs.  It meets the specification of the released two-slot ring. */
module OutputWindow {
  import opened OutputRing

  const OUTPUT_RETIRE_BATCHES := 4

  // Buffers 0..3 belong to the head-0 queue, 4..7 to the head-1 queue.
  function Queue0(): set<int> { {0, 1, 2, 3} }
  function Queue1(): set<int> { {4, 5, 6, 7} }

  // Head-1 buffers of the first n pending batches.
  ghost function Paired(pending1: seq<int>, mask: seq<bool>, n: int): set<int>
    requires 0 <= n <= |pending1| && |pending1| == |mask|
  {
    if n == 0 then {}
    else Paired(pending1, mask, n - 1) + (if mask[n - 1] then {pending1[n - 1]} else {})
  }

  lemma {:induction false} ElementsSize(s: seq<int>)
    ensures |Elements(s)| <= |s|
  {
    if s == [] {
      assert Elements(s) == {};
    } else {
      ElementsSize(s[..|s| - 1]);
      assert s == s[..|s| - 1] + [s[|s| - 1]];
      assert Elements(s) == Elements(s[..|s| - 1]) + {s[|s| - 1]};
    }
  }

  lemma {:induction false} PairedSize(pending1: seq<int>, mask: seq<bool>, n: int)
    requires 0 <= n <= |pending1| && |pending1| == |mask|
    ensures |Paired(pending1, mask, n)| <= n
  {
    if n > 0 { PairedSize(pending1, mask, n - 1); }
  }

  // Recording a later batch does not disturb the earlier ones.
  lemma {:induction false} PairedFrame(pending1: seq<int>, mask: seq<bool>, n: int, at: int, buffer: int, pair: bool)
    requires 0 <= n <= at < |pending1| && |pending1| == |mask|
    ensures Paired(pending1[at := buffer], mask[at := pair], n) == Paired(pending1, mask, n)
  {
    if n > 0 { PairedFrame(pending1, mask, n - 1, at, buffer, pair); }
  }

  /** A buffer is free or belongs to a pending batch, never both. */
  ghost predicate Parted(free: set<int>, pending0: seq<int>, pending1: seq<int>, mask: seq<bool>)
    requires |pending0| <= |pending1| && |pending1| == |mask|
  {
    var paired := Paired(pending1, mask, |pending0|);
    && free * Queue0() + Elements(pending0) == Queue0()
    && free * Queue1() + paired == Queue1()
    && free !! Elements(pending0)
    && free !! paired
    && free <= Queue0() + Queue1()
  }

  lemma WindowEmptied(free: set<int>, pending0: seq<int>, pending1: seq<int>, mask: seq<bool>)
    requires |pending0| <= |pending1| && |pending1| == |mask| && Parted(free, pending0, pending1, mask)
    ensures free + Elements(pending0) + Paired(pending1, mask, |pending0|) == Queue0() + Queue1()
  {}

  // A smaller part of a queue leaves something over.
  lemma LeftOver(left: set<int>, used: set<int>, all: set<int>)
    requires left + used == all && |used| < |all|
    ensures left != {}
  {
    assert left == {} ==> used == all;
  }

  lemma QueueSizes()
    ensures |Queue0()| == 4 && |Queue1()| == 4
  {}

  // Both queues have a buffer left while fewer than four batches are pending.
  lemma BuffersLeft(free: set<int>, pending0: seq<int>, pending1: seq<int>, mask: seq<bool>)
    requires |pending0| < 4 && |pending0| <= |pending1| && |pending1| == |mask|
    requires Parted(free, pending0, pending1, mask)
    ensures free * Queue0() != {} && free * Queue1() != {}
  {
    var used0, used1 := Elements(pending0), Paired(pending1, mask, |pending0|);
    ElementsSize(pending0);
    PairedSize(pending1, mask, |pending0|);
    QueueSizes();
    LeftOver(free * Queue0(), used0, Queue0());
    LeftOver(free * Queue1(), used1, Queue1());
  }

  lemma ParkSingle(free: set<int>, pending0: seq<int>, pending1: seq<int>, mask: seq<bool>, buffer: int)
    requires |pending0| < |pending1| && |pending1| == |mask| && !mask[|pending0|]
    requires Parted(free, pending0, pending1, mask) && buffer in free * Queue0()
    ensures Parted(free - {buffer}, pending0 + [buffer], pending1, mask)
  {
    assert Elements(pending0 + [buffer]) == Elements(pending0) + {buffer};
  }

  lemma ParkPair(free: set<int>, pending0: seq<int>, pending1: seq<int>, mask: seq<bool>,
                 buffer0: int, buffer1: int)
    requires |pending0| < |pending1| && |pending1| == |mask|
    requires Parted(free, pending0, pending1, mask)
    requires buffer0 in free * Queue0() && buffer1 in free * Queue1()
    ensures Parted(free - {buffer0, buffer1}, pending0 + [buffer0],
                   pending1[|pending0| := buffer1], mask[|pending0| := true])
  {
    var n := |pending0|;
    assert Elements(pending0 + [buffer0]) == Elements(pending0) + {buffer0};
    PairedFrame(pending1, mask, n, n, buffer1, true);
    assert Paired(pending1[n := buffer1], mask[n := true], n + 1) == Paired(pending1, mask, n) + {buffer1};
  }

  /** What a task hands to the window: one head's batch, or two heads' at once. */
  datatype Job<R, D> =
    | OneHead(batch: Batch<R, D>)
    | TwoHeads(batch0: Batch<R, D>, batch1: Batch<R, D>)
  {
    function Batches(): seq<Batch<R, D>> { if OneHead? then [batch] else [batch0, batch1] }
  }

  function AllBatches<R, D>(jobs: seq<Job<R, D>>): seq<Batch<R, D>> {
    if jobs == [] then [] else AllBatches(jobs[..|jobs| - 1]) + jobs[|jobs| - 1].Batches()
  }

  lemma NextJob<R, D>(jobs: seq<Job<R, D>>, i: int)
    requires 0 <= i < |jobs|
    ensures AllBatches(jobs[..i + 1]) == AllBatches(jobs[..i]) + jobs[i].Batches()
  {
    assert jobs[..i + 1][..i] == jobs[..i];
  }

  class Window<R(0), D(0)> {
    var pendingOutputCount: int
    var pendingPairMask: seq<bool>
    var pendingHead0: seq<int>        // buffers of the pending batches, in allocation order
    var pendingHead1: seq<int>        // slot-indexed; meaningful where the mask is set
    var free: set<int>
    var content: seq<D>
    var mte3: seq<Mte3Op<R>>
    var stored: seq<Batch<R, D>>

    ghost predicate Valid()
      reads this
    {
      && 0 <= pendingOutputCount <= OUTPUT_RETIRE_BATCHES
      && |pendingHead0| == pendingOutputCount
      && |pendingHead1| == |pendingPairMask| == OUTPUT_RETIRE_BATCHES && |content| == 8
      && (forall i :: pendingOutputCount <= i < OUTPUT_RETIRE_BATCHES ==> !pendingPairMask[i])
      && Parted(free, pendingHead0, pendingHead1, pendingPairMask)
      && (forall op :: op in mte3 ==> op.Copy? && 0 <= op.buffer < 8 && op.buffer !in free)
    }

    ghost predicate Readable() reads this { CanRead(mte3, content, false, []) }

    /** Everything handed over so far, in launch order. */
    ghost function All(): seq<Batch<R, D>>
      reads this
      requires Readable()
    {
      stored + Pending(mte3, content)
    }

    ghost predicate Idle() reads this {
      && Valid() && pendingOutputCount < OUTPUT_RETIRE_BATCHES
      && (pendingOutputCount == 0 ==> mte3 == [])
    }

    constructor (data: D)
      ensures Idle() && Readable() && All() == [] && stored == []
    {
      pendingOutputCount := 0;
      pendingPairMask := [false, false, false, false];
      pendingHead0 := [];
      pendingHead1 := [0, 0, 0, 0];
      free := Queue0() + Queue1();
      content := [data, data, data, data, data, data, data, data];
      mte3 := [];
      stored := [];
    }

    method Mte3Step()
      requires Readable() && mte3 != []
      modifies this`mte3, this`stored
      ensures Readable() && All() == old(All()) && mte3 == old(mte3)[1..]
    {
      assert mte3[0] in mte3;
      if mte3[0].Copy? {
        stored := stored + [Batch(mte3[0].record, content[mte3[0].buffer])];
      }
      mte3 := mte3[1..];
    }

    method Mte3Advance()
      requires Valid() && Readable()
      modifies this`mte3, this`stored
      ensures Valid() && Readable() && All() == old(All())
    {
      var steps: nat :| true;
      while steps > 0 && mte3 != []
        invariant Valid() && Readable() && All() == old(All())
        decreases steps
      {
        Mte3Step();
        steps := steps - 1;
      }
    }

    // SetFlag then WaitFlag<MTE3_S>: the event sits behind every launched copy.
    method WaitForDrainEvent()
      requires Valid() && Readable()
      modifies this`mte3, this`stored
      ensures Valid() && Readable() && All() == old(All()) && mte3 == []
    {
      while mte3 != []
        invariant Valid() && Readable() && All() == old(All())
        decreases |mte3|
      {
        Mte3Step();
      }
    }

    // Release the pending buffers in allocation order.
    method FreeWindow()
      requires Valid()
      modifies this`free
      ensures free == Queue0() + Queue1()
    {
      for slot := 0 to pendingOutputCount
        invariant free == old(free) + Elements(pendingHead0[..slot])
                        + Paired(pendingHead1, pendingPairMask, slot)
      {
        assert pendingHead0[..slot + 1] == pendingHead0[..slot] + [pendingHead0[slot]];
        assert Elements(pendingHead0[..slot + 1]) == Elements(pendingHead0[..slot]) + {pendingHead0[slot]};
        free := free + {pendingHead0[slot]};
        if pendingPairMask[slot] {
          free := free + {pendingHead1[slot]};
        }
      }
      assert pendingHead0[..pendingOutputCount] == pendingHead0;
      WindowEmptied(old(free), pendingHead0, pendingHead1, pendingPairMask);
    }

    /** Wait for every launched copy, then free the window's buffers, head 1 only where the mask says
        the batch was a pair. */
    method FlushPendingOutputs()
      requires Valid() && Readable() && (pendingOutputCount == 0 ==> mte3 == [])
      modifies this`mte3, this`stored, this`free, this`pendingOutputCount, this`pendingPairMask, this`pendingHead0
      ensures Idle() && Readable() && All() == old(All())
      ensures pendingOutputCount == 0 && free == Queue0() + Queue1() && mte3 == []
    {
      if pendingOutputCount == 0 {
        WindowEmptied(free, pendingHead0, pendingHead1, pendingPairMask);
        return;
      }
      WaitForDrainEvent();
      FreeWindow();
      pendingOutputCount := 0;
      pendingPairMask := [false, false, false, false];
      pendingHead0 := [];
    }

    // Fill a buffer and launch its copy.
    method Launch(buffer: int, record: R, data: D)
      requires Readable() && 0 <= buffer < |content| && buffer !in free
      requires forall op :: op in mte3 && op.Copy? ==> op.buffer != buffer
      modifies this`content, this`mte3
      ensures Readable() && All() == old(All()) + [Batch(record, data)]
      ensures |content| == |old(content)| && mte3 == old(mte3) + [Copy(0, record, buffer)]
    {
      PendingUntouched(mte3, content, buffer, data);
      content := content[buffer := data];
      ghost var op: Mte3Op<R> := Copy(0, record, buffer);
      assert forall o :: o in mte3 + [op] ==> o in mte3 || o == op;
      PendingAppend(mte3, [op], content);
      assert Pending([op][1..], content) == [];
      mte3 := mte3 + [Copy(0, record, buffer)];
    }

    // The running batch has been counted; retire the window when it is full.
    method CloseBatch()
      requires Valid() && Readable() && pendingOutputCount > 0
      modifies this`mte3, this`stored, this`free, this`pendingOutputCount, this`pendingPairMask, this`pendingHead0
      ensures Idle() && Readable() && All() == old(All())
      ensures pendingOutputCount == if old(pendingOutputCount) == 4 then 0 else old(pendingOutputCount)
      ensures old(pendingOutputCount) < 4 ==> mte3 == old(mte3)
    {
      if pendingOutputCount == OUTPUT_RETIRE_BATCHES {
        FlushPendingOutputs();
      }
    }

    /** A single-head batch: allocate, fill, launch, and retire the window when it is full. */
    method RetireSingleOutput(record: R, data: D)
      requires Idle() && Readable()
      modifies this
      ensures Idle() && Readable() && All() == old(All()) + [Batch(record, data)]
      ensures pendingOutputCount == if old(pendingOutputCount) == 3 then 0 else old(pendingOutputCount) + 1
    {
      Mte3Advance();
      var buffer := AllocSingle();
      LaunchSingle(buffer, record, data);
      BookSingle(buffer);
      CloseBatch();
    }

    // A buffer is allocated to a batch that is not booked yet.
    ghost predicate SingleOpen(buffer: int)
      reads this
    {
      && 0 <= pendingOutputCount < OUTPUT_RETIRE_BATCHES && |pendingHead0| == pendingOutputCount
      && |pendingHead1| == |pendingPairMask| == OUTPUT_RETIRE_BATCHES && |content| == 8
      && (forall i :: pendingOutputCount <= i < OUTPUT_RETIRE_BATCHES ==> !pendingPairMask[i])
      && 0 <= buffer < 4 && buffer !in free
      && Parted(free, pendingHead0 + [buffer], pendingHead1, pendingPairMask)
      && (forall op :: op in mte3 ==> op.Copy? && 0 <= op.buffer < 8 && op.buffer !in free)
    }

    method AllocSingle() returns (buffer: int)
      requires Idle()
      modifies this`free
      ensures SingleOpen(buffer)
      ensures forall op :: op in mte3 ==> op.buffer != buffer
    {
      BuffersLeft(free, pendingHead0, pendingHead1, pendingPairMask);
      buffer :| buffer in free * Queue0();
      ParkSingle(free, pendingHead0, pendingHead1, pendingPairMask, buffer);
      free := free - {buffer};
    }

    method LaunchSingle(buffer: int, record: R, data: D)
      requires Readable() && SingleOpen(buffer) && forall op :: op in mte3 ==> op.buffer != buffer
      modifies this`content, this`mte3
      ensures Readable() && SingleOpen(buffer) && All() == old(All()) + [Batch(record, data)]
    {
      Launch(buffer, record, data);
    }

    method BookSingle(buffer: int)
      requires Readable() && SingleOpen(buffer)
      modifies this`pendingHead0, this`pendingOutputCount
      ensures Valid() && pendingOutputCount == old(pendingOutputCount) + 1
      ensures Readable() && All() == old(All())
    {
      pendingHead0 := pendingHead0 + [buffer];
      pendingOutputCount := pendingOutputCount + 1;
    }

    // Two buffers are allocated to a pair that is not booked yet.
    ghost predicate PairOpen(buffer0: int, buffer1: int)
      reads this
    {
      && 0 <= pendingOutputCount < OUTPUT_RETIRE_BATCHES && |pendingHead0| == pendingOutputCount
      && |pendingHead1| == |pendingPairMask| == OUTPUT_RETIRE_BATCHES && |content| == 8
      && (forall i :: pendingOutputCount <= i < OUTPUT_RETIRE_BATCHES ==> !pendingPairMask[i])
      && 0 <= buffer0 < 4 <= buffer1 < 8 && buffer0 !in free && buffer1 !in free
      && Parted(free, pendingHead0 + [buffer0], pendingHead1[pendingOutputCount := buffer1],
                pendingPairMask[pendingOutputCount := true])
      && (forall op :: op in mte3 ==> op.Copy? && 0 <= op.buffer < 8 && op.buffer !in free)
    }

    method AllocPair() returns (buffer0: int, buffer1: int)
      requires Idle()
      modifies this`free
      ensures PairOpen(buffer0, buffer1)
      ensures forall op :: op in mte3 ==> op.buffer != buffer0 && op.buffer != buffer1
    {
      BuffersLeft(free, pendingHead0, pendingHead1, pendingPairMask);
      buffer0 :| buffer0 in free * Queue0();
      buffer1 :| buffer1 in free * Queue1();
      ParkPair(free, pendingHead0, pendingHead1, pendingPairMask, buffer0, buffer1);
      free := free - {buffer0, buffer1};
    }

    method LaunchPair(buffer0: int, record0: R, data0: D, buffer1: int, record1: R, data1: D)
      requires Readable() && PairOpen(buffer0, buffer1)
      requires forall op :: op in mte3 ==> op.buffer != buffer0 && op.buffer != buffer1
      modifies this`content, this`mte3
      ensures Readable() && PairOpen(buffer0, buffer1)
      ensures All() == old(All()) + [Batch(record0, data0), Batch(record1, data1)]
    {
      Launch(buffer0, record0, data0);
      Launch(buffer1, record1, data1);
    }

    method BookPair(buffer0: int, buffer1: int)
      requires Readable() && PairOpen(buffer0, buffer1)
      modifies this`pendingHead0, this`pendingHead1, this`pendingPairMask, this`pendingOutputCount
      ensures Valid() && pendingOutputCount == old(pendingOutputCount) + 1
      ensures Readable() && All() == old(All())
    {
      var slot := pendingOutputCount;
      pendingHead0 := pendingHead0 + [buffer0];
      pendingHead1 := pendingHead1[slot := buffer1];
      pendingPairMask := pendingPairMask[slot := true];
      pendingOutputCount := pendingOutputCount + 1;
    }

    /** A pair batch uses one buffer of each queue and launches one copy per head. */
    method RetirePairOutput(record0: R, data0: D, record1: R, data1: D)
      requires Idle() && Readable()
      modifies this
      ensures Idle() && Readable()
      ensures All() == old(All()) + [Batch(record0, data0), Batch(record1, data1)]
      ensures pendingOutputCount == if old(pendingOutputCount) == 3 then 0 else old(pendingOutputCount) + 1
    {
      Mte3Advance();
      var buffer0, buffer1 := AllocPair();
      LaunchPair(buffer0, record0, data0, buffer1, record1, data1);
      BookPair(buffer0, buffer1);
      CloseBatch();
    }

    method Retire(job: Job<R, D>)
      requires Idle() && Readable()
      modifies this
      ensures Idle() && Readable() && All() == old(All()) + job.Batches()
    {
      match job
      case OneHead(b) => RetireSingleOutput(b.record, b.data);
      case TwoHeads(b0, b1) => RetirePairOutput(b0.record, b0.data, b1.record, b1.data);
    }

    /** The final partial window: everything handed over is stored, in order, once. */
    method Drain()
      requires Idle() && Readable()
      modifies this
      ensures Idle() && Readable() && stored == old(All()) == All()
      ensures free == Queue0() + Queue1() && mte3 == []
    {
      FlushPendingOutputs();
    }

    /** A lane's whole output: any mixed sequence of single and pair batches is stored completely, in
        order, once each, and every buffer is free again. */
    method StoreAll(jobs: seq<Job<R, D>>)
      requires Idle() && Readable() && All() == []
      modifies this
      ensures stored == AllBatches(jobs) && free == Queue0() + Queue1() && mte3 == []
    {
      for i := 0 to |jobs|
        invariant Idle() && Readable() && All() == AllBatches(jobs[..i])
      {
        NextJob(jobs, i);
        Retire(jobs[i]);
      }
      assert jobs[..|jobs|] == jobs;
      Drain();
    }
  }
}
