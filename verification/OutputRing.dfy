/** The delayed-output ring of a vector lane: two VECOUT buffers, two slot labels with one MTE3
    completion event each, and one finished batch held back until the next batch is under way.

    PIPE_MTE3 is asynchronous: a launched copy reads its buffer whenever the pipe gets to it, which
    `Mte3Advance` lets happen at any point between two scalar operations. */
module OutputRing {

  // A stored batch: the copy record it was launched with and the buffer contents the copy read.
  datatype Batch<R, D> = Batch(record: R, data: D)

  datatype Mte3Op<R> =
    | Copy(slot: int, record: R, buffer: int)
    | Post(slot: int)

  // The batches the queued copies will store, in pipe order.
  ghost function Pending<R, D>(ops: seq<Mte3Op<R>>, content: seq<D>): seq<Batch<R, D>>
    requires forall op :: op in ops && op.Copy? ==> 0 <= op.buffer < |content|
  {
    if ops == [] then []
    else
      (if ops[0].Copy? then [Batch(ops[0].record, content[ops[0].buffer])] else [])
      + Pending(ops[1..], content)
  }

  lemma {:induction false} PendingAppend<R, D>(ops: seq<Mte3Op<R>>, more: seq<Mte3Op<R>>, content: seq<D>)
    requires forall op :: op in ops + more && op.Copy? ==> 0 <= op.buffer < |content|
    ensures forall op :: op in ops && op.Copy? ==> 0 <= op.buffer < |content|
    ensures forall op :: op in more && op.Copy? ==> 0 <= op.buffer < |content|
    ensures Pending(ops + more, content) == Pending(ops, content) + Pending(more, content)
  {
    assert forall op :: op in ops ==> op in ops + more;
    assert forall op :: op in more ==> op in ops + more;
    if ops == [] {
      assert ops + more == more;
    } else {
      assert (ops + more)[1..] == ops[1..] + more;
      PendingAppend(ops[1..], more, content);
    }
  }

  // Refilling a buffer no queued copy reads changes nothing that will be stored.
  lemma {:induction false} PendingUntouched<R, D>(ops: seq<Mte3Op<R>>, content: seq<D>, buffer: int, data: D)
    requires forall op :: op in ops && op.Copy? ==> 0 <= op.buffer < |content| && op.buffer != buffer
    requires 0 <= buffer < |content|
    ensures Pending(ops, content[buffer := data]) == Pending(ops, content)
  {
    if ops != [] { PendingUntouched(ops[1..], content, buffer, data); }
  }

  ghost predicate CanRead<R, D>(ops: seq<Mte3Op<R>>, content: seq<D>, held: bool, queued: seq<int>) {
    && (forall op :: op in ops && op.Copy? ==> 0 <= op.buffer < |content|)
    && (held ==> |queued| == 1 && 0 <= queued[0] < |content|)
  }

  ghost function Handed<R, D>(stored: seq<Batch<R, D>>, ops: seq<Mte3Op<R>>, content: seq<D>,
                              held: bool, record: R, queued: seq<int>): seq<Batch<R, D>>
    requires CanRead(ops, content, held, queued)
  {
    stored + Pending(ops, content) + (if held then [Batch(record, content[queued[0]])] else [])
  }

  function AfterStep<R, D>(stored: seq<Batch<R, D>>, op: Mte3Op<R>, content: seq<D>): seq<Batch<R, D>>
    requires op.Copy? ==> 0 <= op.buffer < |content|
  {
    if op.Copy? then stored + [Batch(op.record, content[op.buffer])] else stored
  }

  // A completed copy moves its batch from the queue to the store.
  lemma HandedStep<R, D>(stored: seq<Batch<R, D>>, ops: seq<Mte3Op<R>>, content: seq<D>,
                         held: bool, record: R, queued: seq<int>)
    requires ops != [] && CanRead(ops, content, held, queued)
    ensures ops[0] in ops && CanRead(ops[1..], content, held, queued)
    ensures
      Handed(AfterStep(stored, ops[0], content), ops[1..], content, held, record, queued)
        == Handed(stored, ops, content, held, record, queued)
  {
    var first := if ops[0].Copy? then [Batch(ops[0].record, content[ops[0].buffer])] else [];
    var rest := Pending(ops[1..], content);
    assert AfterStep(stored, ops[0], content) == stored + first;
    assert stored + (first + rest) == stored + first + rest;
  }

  // A launch moves the held-back batch to the queue.
  lemma HandedLaunch<R, D>(stored: seq<Batch<R, D>>, ops: seq<Mte3Op<R>>, content: seq<D>,
                           slot: int, record: R, queued: seq<int>)
    requires CanRead(ops, content, true, queued)
    ensures
      var ops' := ops + [Copy(slot, record, queued[0]), Post(slot)];
      && CanRead(ops', content, false, [])
      && Handed(stored, ops', content, false, record, [])
         == Handed(stored, ops, content, true, record, queued)
  {
    var launch := [Copy(slot, record, queued[0]), Post(slot)];
    PendingAppend(ops, launch, content);
    assert launch[1..] == [Post(slot)] && launch[1..][1..] == [];
    assert Pending(launch[1..], content) == [];
    assert Pending(launch, content) == [Batch(record, content[queued[0]])];
  }

  // Filling a buffer that is neither queued nor being copied, and holding it back.
  lemma HandedHold<R, D>(stored: seq<Batch<R, D>>, ops: seq<Mte3Op<R>>, content: seq<D>,
                         old_record: R, record: R, buffer: int, data: D)
    requires 0 <= buffer < |content| && CanRead(ops, content, false, [])
    requires forall op :: op in ops && op.Copy? ==> op.buffer != buffer
    ensures CanRead(ops, content[buffer := data], true, [buffer])
    ensures Handed(stored, ops, content[buffer := data], true, record, [buffer])
         == Handed(stored, ops, content, false, old_record, []) + [Batch(record, data)]
  {
    PendingUntouched(ops, content, buffer, data);
  }

  // The two bits of the busy mask: slots with a launched copy not yet known to be complete.
  datatype BusySlots = BusySlots(first: bool, second: bool) {
    predicate Has(slot: int) { if slot == 0 then first else slot == 1 && second }

    function With(slot: int, busy: bool): BusySlots {
      if slot == 0 then this.(first := busy) else this.(second := busy)
    }
  }

  /** The MTE3 queue: a copy belongs to a busy slot and is followed by that slot's completion event;
      a busy slot's event is either still queued or posted, never both. */
  ghost predicate PipeValid<R>(ops: seq<Mte3Op<R>>, posted: seq<nat>, buffers: seq<int>, busy: BusySlots)
    requires |posted| == 2 && |buffers| == 2
  {
    && (forall i :: 0 <= i < |ops| ==> 0 <= ops[i].slot <= 1 && busy.Has(ops[i].slot))
    && (forall i :: 0 <= i < |ops| && ops[i].Copy? ==>
          && ops[i].buffer == buffers[ops[i].slot]
          && i + 1 < |ops| && ops[i + 1] == Post(ops[i].slot))
    && (forall i, j :: 0 <= i < j < |ops| && ops[i].Post? && ops[j].Post? ==>
          ops[i].slot != ops[j].slot)
    && (forall s :: 0 <= s <= 1 ==>
          posted[s] == if busy.Has(s) && Post(s) !in ops then 1 else 0)
  }

  function Fire<R>(op: Mte3Op<R>, posted: seq<nat>): seq<nat>
    requires |posted| == 2 && 0 <= op.slot <= 1
  {
    if op.Post? then posted[op.slot := posted[op.slot] + 1] else posted
  }

  lemma PipeStep<R>(ops: seq<Mte3Op<R>>, posted: seq<nat>, buffers: seq<int>, busy: BusySlots)
    requires |posted| == 2 && |buffers| == 2 && ops != [] && PipeValid(ops, posted, buffers, busy)
    ensures PipeValid(ops[1..], Fire(ops[0], posted), buffers, busy)
  {
    var op, rest := ops[0], ops[1..];
    assert ops == [op] + rest;
    forall s | 0 <= s <= 1
      ensures Fire(op, posted)[s] == if busy.Has(s) && Post(s) !in rest then 1 else 0
    {
      assert Post(s) in ops <==> Post(s) == op || Post(s) in rest;
      if Post(s) in rest { var j :| 0 <= j < |rest| && rest[j] == Post(s); assert ops[j + 1] == Post(s); }
    }
    forall i | 0 <= i < |rest|
      ensures 0 <= rest[i].slot <= 1 && busy.Has(rest[i].slot)
      ensures rest[i].Copy? ==> rest[i].buffer == buffers[rest[i].slot]
      ensures rest[i].Copy? ==> i + 1 < |rest| && rest[i + 1] == Post(rest[i].slot)
    {
      assert rest[i] == ops[i + 1];
    }
    forall i, j | 0 <= i < j < |rest| && rest[i].Post? && rest[j].Post?
      ensures rest[i].slot != rest[j].slot
    {
      assert rest[i] == ops[i + 1] && rest[j] == ops[j + 1];
    }
  }

  // Launching a copy under a free slot label.
  lemma PipeLaunch<R>(ops: seq<Mte3Op<R>>, posted: seq<nat>, buffers: seq<int>, busy: BusySlots,
                      slot: int, record: R, buffer: int)
    requires |posted| == 2 && |buffers| == 2 && PipeValid(ops, posted, buffers, busy)
    requires 0 <= slot <= 1 && !busy.Has(slot)
    ensures PipeValid(ops + [Copy(slot, record, buffer), Post(slot)], posted, buffers[slot := buffer],
                      busy.With(slot, true))
  {
    var longer := ops + [Copy(slot, record, buffer), Post(slot)];
    assert longer[|ops|] == Copy(slot, record, buffer) && longer[|ops| + 1] == Post(slot);
    forall s | 0 <= s <= 1
      ensures posted[s] == if busy.With(slot, true).Has(s) && Post(s) !in longer then 1 else 0
    {
      assert Post(s) in longer <==> Post(s) in ops || s == slot;
      if s == slot { assert Post(slot) !in ops; }
    }
  }

  // Consuming a posted completion event.
  lemma PipeConsume<R>(ops: seq<Mte3Op<R>>, posted: seq<nat>, buffers: seq<int>, busy: BusySlots,
                       slot: int)
    requires |posted| == 2 && |buffers| == 2 && PipeValid(ops, posted, buffers, busy)
    requires 0 <= slot <= 1 && posted[slot] >= 1
    ensures PipeValid(ops, posted[slot := posted[slot] - 1], buffers,
                      busy.With(slot, false))
    ensures forall i :: 0 <= i < |ops| ==> ops[i].slot != slot
  {
    assert Post(slot) !in ops;
    forall i | 0 <= i < |ops|
      ensures ops[i].slot != slot
    {
      assert ops[i] in ops;
      assert i + 1 < |ops| ==> ops[i + 1] in ops;
    }
  }

  // Buffers out for copying.
  ghost function Out(buffers: seq<int>, busy: BusySlots): set<int>
    requires |buffers| == 2
  {
    (if busy.first then {buffers[0]} else {}) + (if busy.second then {buffers[1]} else {})
  }

  ghost function Elements(s: seq<int>): set<int> { set b | b in s }

  /** Each of the two buffers is in exactly one place: free, allocated to the running batch, enqueued
      and held back, or out for copying. */
  ghost predicate Owners(free: set<int>, owned: set<int>, queued: seq<int>, buffers: seq<int>, busy: BusySlots)
    requires |buffers| == 2
  {
    && (busy.first && busy.second ==> buffers[0] != buffers[1])
    && free + owned + Elements(queued) + Out(buffers, busy) == {0, 1}
    && free !! owned !! Elements(queued) !! Out(buffers, busy)
  }

  lemma OwnersRetire(free: set<int>, owned: set<int>, queued: seq<int>, buffers: seq<int>, busy: BusySlots, slot: int)
    requires |buffers| == 2 && Owners(free, owned, queued, buffers, busy)
    requires 0 <= slot <= 1 && busy.Has(slot)
    ensures Owners(free + {buffers[slot]}, owned, queued, buffers, busy.With(slot, false))
  {
    assert Out(buffers, busy) == Out(buffers, busy.With(slot, false)) + {buffers[slot]};
    assert buffers[slot] !in Out(buffers, busy.With(slot, false));
  }

  lemma OwnersLaunch(free: set<int>, owned: set<int>, queued: seq<int>, buffers: seq<int>, busy: BusySlots, slot: int)
    requires |buffers| == 2 && |queued| == 1 && Owners(free, owned, queued, buffers, busy)
    requires 0 <= slot <= 1 && !busy.Has(slot)
    ensures Owners(free, owned, [], buffers[slot := queued[0]], busy.With(slot, true))
  {
    var buffers' := buffers[slot := queued[0]];
    assert Elements(queued) == {queued[0]};
    assert Out(buffers', busy.With(slot, true)) == Out(buffers, busy) + {queued[0]};
  }

  // With nothing out for copying and at most one batch held back, a buffer is free.
  lemma SomeFree(free: set<int>, queued: seq<int>, buffers: seq<int>, busy: BusySlots)
    requires |buffers| == 2 && |queued| <= 1 && Owners(free, {}, queued, buffers, busy)
    requires !busy.first && !busy.second
    ensures free != {}
  {
    assert forall b :: b in {0, 1} ==> b in free || b in Elements(queued);
    assert 0 in {0, 1} && 1 in {0, 1};
  }

  // Buffers the queued copies read are out for copying.
  lemma CopiesAreOut<R>(ops: seq<Mte3Op<R>>, posted: seq<nat>, free: set<int>, owned: set<int>,
                        queued: seq<int>, buffers: seq<int>, busy: BusySlots)
    requires |posted| == 2 && |buffers| == 2
    requires PipeValid(ops, posted, buffers, busy) && Owners(free, owned, queued, buffers, busy)
    ensures forall op :: op in ops && op.Copy? ==>
      0 <= op.buffer < 2 && op.buffer !in free + owned + Elements(queued)
    ensures forall b :: b in queued ==> 0 <= b < 2
  {
    forall op | op in ops && op.Copy?
      ensures 0 <= op.buffer < 2 && op.buffer !in free + owned + Elements(queued)
    {
      var i :| 0 <= i < |ops| && ops[i] == op;
      assert op.buffer in Out(buffers, busy);
      assert op.buffer in {0, 1};
    }
    forall b | b in queued ensures 0 <= b < 2 { assert b in Elements(queued); assert b in {0, 1}; }
  }

  lemma QueuedMeansBusy<R>(ops: seq<Mte3Op<R>>, posted: seq<nat>, buffers: seq<int>, busy: BusySlots)
    requires |posted| == 2 && |buffers| == 2 && PipeValid(ops, posted, buffers, busy) && ops != []
    ensures busy.Has(0) || busy.Has(1)
  {
    assert busy.Has(ops[0].slot);
  }

  lemma NothingPending<R>(ops: seq<Mte3Op<R>>, posted: seq<nat>, buffers: seq<int>, busy: BusySlots)
    requires |posted| == 2 && |buffers| == 2 && PipeValid(ops, posted, buffers, busy)
    requires !busy.Has(0) && !busy.Has(1)
    ensures ops == [] && posted == [0, 0]
  {
    if ops != [] { QueuedMeansBusy(ops, posted, buffers, busy); }
  }

  /** The ring's state as a value: scalar fields, the VECOUT queue, PIPE_MTE3 and what it has stored. */
  datatype RingState<R, D> = RingState(
    busy: BusySlots, next: int, outputSlot: seq<int>, held: bool, heldSlot: int, record: R,
    queued: seq<int>, free: set<int>, content: seq<D>,
    mte3: seq<Mte3Op<R>>, posted: seq<nat>, stored: seq<Batch<R, D>>)
  {
    /** Between scalar operations; `owned` are the buffers allocated and not yet enqueued. */
    ghost predicate Valid(owned: set<int>) {
      && |outputSlot| == 2 && |posted| == 2 && |content| == 2
      && 0 <= next <= 1
      && PipeValid(mte3, posted, outputSlot, busy)
      && Owners(free, owned, queued, outputSlot, busy)
      && (if held then |queued| == 1 && 0 <= heldSlot <= 1 && !busy.Has(heldSlot) else queued == [])
      && CanRead(mte3, content, held, queued)
    }

    /** Everything handed to the ring so far, in order: stored, being copied, held back. */
    ghost function All(): seq<Batch<R, D>>
      requires CanRead(mte3, content, held, queued)
    {
      Handed(stored, mte3, content, held, record, queued)
    }
  }

  ghost function Stepped<R, D>(s: RingState<R, D>): RingState<R, D>
    requires s.mte3 != [] && |s.posted| == 2 && 0 <= s.mte3[0].slot <= 1
    requires s.mte3[0].Copy? ==> 0 <= s.mte3[0].buffer < |s.content|
  {
    s.(mte3 := s.mte3[1..], posted := Fire(s.mte3[0], s.posted), stored := AfterStep(s.stored, s.mte3[0], s.content))
  }

  lemma StepKeeps<R, D>(s: RingState<R, D>, owned: set<int>)
    requires s.Valid(owned) && s.mte3 != []
    ensures s.mte3[0] in s.mte3 && 0 <= s.mte3[0].slot <= 1
    ensures Stepped(s).Valid(owned) && Stepped(s).All() == s.All()
  {
    PipeStep(s.mte3, s.posted, s.outputSlot, s.busy);
    HandedStep(s.stored, s.mte3, s.content, s.held, s.record, s.queued);
  }

  ghost function Retired<R, D>(s: RingState<R, D>, slot: int): RingState<R, D>
    requires |s.posted| == |s.outputSlot| == 2 && 0 <= slot <= 1 && s.posted[slot] >= 1
  {
    s.(posted := s.posted[slot := s.posted[slot] - 1], free := s.free + {s.outputSlot[slot]},
       busy := s.busy.With(slot, false))
  }

  lemma RetireKeeps<R, D>(s: RingState<R, D>, owned: set<int>, slot: int)
    requires s.Valid(owned) && 0 <= slot <= 1 && s.busy.Has(slot) && s.posted[slot] >= 1
    ensures Retired(s, slot).Valid(owned) && Retired(s, slot).All() == s.All()
  {
    PipeConsume(s.mte3, s.posted, s.outputSlot, s.busy, slot);
    OwnersRetire(s.free, owned, s.queued, s.outputSlot, s.busy, slot);
  }

  ghost function LaunchedState<R, D>(s: RingState<R, D>): RingState<R, D>
    requires |s.outputSlot| == 2 && 0 <= s.heldSlot <= 1 && |s.queued| == 1
  {
    s.(queued := s.queued[1..], mte3 := s.mte3 + [Copy(s.heldSlot, s.record, s.queued[0]), Post(s.heldSlot)],
       outputSlot := s.outputSlot[s.heldSlot := s.queued[0]], busy := s.busy.With(s.heldSlot, true), held := false)
  }

  lemma LaunchKeeps<R, D>(s: RingState<R, D>, owned: set<int>)
    requires s.Valid(owned) && s.held
    ensures LaunchedState(s).Valid(owned) && LaunchedState(s).All() == s.All()
  {
    assert s.queued[1..] == [];
    OwnersLaunch(s.free, owned, s.queued, s.outputSlot, s.busy, s.heldSlot);
    PipeLaunch(s.mte3, s.posted, s.outputSlot, s.busy, s.heldSlot, s.record, s.queued[0]);
    HandedLaunch(s.stored, s.mte3, s.content, s.heldSlot, s.record, s.queued);
  }

  ghost function HeldState<R, D>(s: RingState<R, D>, slot: int, buffer: int, record: R, data: D): RingState<R, D>
    requires 0 <= buffer < |s.content|
  {
    s.(content := s.content[buffer := data], queued := s.queued + [buffer], heldSlot := slot, record := record, held := true)
  }

  lemma HoldKeeps<R, D>(s: RingState<R, D>, slot: int, buffer: int, record: R, data: D)
    requires s.Valid({buffer}) && !s.held && 0 <= slot <= 1 && !s.busy.Has(slot)
    ensures 0 <= buffer < 2
    ensures HeldState(s, slot, buffer, record, data).Valid({})
    ensures HeldState(s, slot, buffer, record, data).All() == s.All() + [Batch(record, data)]
  {
    CopiesAreOut(s.mte3, s.posted, s.free, {buffer}, s.queued, s.outputSlot, s.busy);
    assert buffer in {0, 1} by { assert buffer in s.free + {buffer} + Elements(s.queued) + Out(s.outputSlot, s.busy); }
    HandedHold(s.stored, s.mte3, s.content, s.record, record, buffer, data);
    assert s.queued + [buffer] == [buffer] && Elements([buffer]) == {buffer} && Elements(s.queued) == {};
  }

  // With nothing held back and no slot busy, everything is stored.
  lemma DrainedIsStored<R, D>(s: RingState<R, D>)
    requires s.Valid({}) && !s.held && !s.busy.Has(0) && !s.busy.Has(1)
    ensures s.mte3 == [] && s.posted == [0, 0] && s.queued == [] && s.free == {0, 1}
    ensures s.busy == BusySlots(false, false) && s.All() == s.stored
  {
    NothingPending(s.mte3, s.posted, s.outputSlot, s.busy);
    assert Elements(s.queued) == {} && Out(s.outputSlot, s.busy) == {};
  }

  lemma Prefix<R, D>(batches: seq<Batch<R, D>>, i: int)
    requires 0 <= i < |batches|
    ensures batches[..i + 1] == batches[..i] + [Batch(batches[i].record, batches[i].data)]
  {}

  class Ring<R(0), D(0)> {
    // scalar state
    var busy: BusySlots
    var nextOutputSlot: int
    var outputSlot: seq<int>          // buffer launched under each slot label
    var readyOutputValid: bool
    var readyOutputSlotId: int
    var readyRecord: R
    // VECOUT queue: two physical buffers
    var queued: seq<int>
    var free: set<int>
    var content: seq<D>
    // PIPE_MTE3
    var mte3: seq<Mte3Op<R>>
    var posted: seq<nat>
    var stored: seq<Batch<R, D>>

    ghost function State(): RingState<R, D>
      reads this
    {
      RingState(busy, nextOutputSlot, outputSlot, readyOutputValid, readyOutputSlotId, readyRecord,
                queued, free, content, mte3, posted, stored)
    }

    ghost predicate Valid(owned: set<int>)
      reads this
    {
      State().Valid(owned)
    }

    /** Between batches: the slot to be used next is never the one held back, so at most the next
        slot is still copying. */
    ghost predicate Idle()
      reads this
    {
      && Valid({})
      && (readyOutputValid ==> readyOutputSlotId == 1 - nextOutputSlot)
      && !busy.Has(1 - nextOutputSlot)
    }

    // Everything handed to the ring so far, in order.
    ghost function All(): seq<Batch<R, D>>
      reads this
      requires CanRead(mte3, content, readyOutputValid, queued)
    {
      State().All()
    }

    constructor (record: R, data: D)
      ensures Idle() && All() == [] && stored == []
    {
      busy := BusySlots(false, false);
      nextOutputSlot := 0;
      outputSlot := [0, 0];
      readyOutputValid := false;
      readyOutputSlotId := 0;
      readyRecord := record;
      queued := [];
      free := {0, 1};
      content := [data, data];
      mte3 := [];
      posted := [0, 0];
      stored := [];
    }

    // One instruction of PIPE_MTE3 completes.
    method Mte3Step(ghost owned: set<int>)
      requires Valid(owned) && mte3 != []
      modifies this`mte3, this`posted, this`stored
      ensures Valid(owned) && All() == old(All())
      ensures mte3 == old(mte3)[1..]
      ensures posted == Fire(old(mte3)[0], old(posted))
    {
      StepKeeps(State(), owned);
      ghost var next := Stepped(State());
      var op := mte3[0];
      stored := AfterStep(stored, op, content);
      posted := Fire(op, posted);
      mte3 := mte3[1..];
      assert State() == next;
    }

    // PIPE_MTE3 makes any amount of progress.
    method Mte3Advance(ghost owned: set<int>)
      requires Valid(owned)
      modifies this`mte3, this`posted, this`stored
      ensures Valid(owned) && All() == old(All())
    {
      var steps: nat :| true;
      while steps > 0 && mte3 != []
        invariant Valid(owned) && All() == old(All())
        decreases steps
      {
        Mte3Step(owned);
        steps := steps - 1;
      }
    }

    // WaitFlag<MTE3_S> on a busy slot.  The wait ends: the event is posted or on its way.
    method WaitEvent(slot: int, ghost owned: set<int>)
      requires Valid(owned) && 0 <= slot <= 1 && busy.Has(slot)
      modifies this`mte3, this`posted, this`stored
      ensures Valid(owned) && All() == old(All())
      ensures posted[slot] >= 1
    {
      while posted[slot] == 0
        invariant Valid(owned) && All() == old(All())
        decreases |mte3|
      {
        Mte3Step(owned);
      }
    }

    // Wait for the slot's copy, then FreeOutputSlot.
    method RetireSlot(slot: int, ghost owned: set<int>)
      requires Valid(owned) && 0 <= slot <= 1 && busy.Has(slot)
      modifies this`mte3, this`posted, this`stored, this`busy, this`free
      ensures Valid(owned) && All() == old(All())
      ensures busy == old(busy).With(slot, false)
    {
      WaitEvent(slot, owned);
      RetireKeeps(State(), owned, slot);
      ghost var next := Retired(State(), slot);
      posted := posted[slot := posted[slot] - 1];
      free := free + {outputSlot[slot]};
      busy := busy.With(slot, false);
      assert State() == next;
    }

    // The slot for the next batch; waits only for that slot's own previous copy.
    method AcquireOutputSlot() returns (slot: int)
      requires Idle()
      modifies this`mte3, this`posted, this`stored, this`busy, this`free, this`nextOutputSlot
      ensures Valid({}) && All() == old(All())
      ensures slot == old(nextOutputSlot) && nextOutputSlot == 1 - slot
      ensures !busy.first && !busy.second
      ensures readyOutputValid ==> readyOutputSlotId == 1 - slot
    {
      slot := nextOutputSlot;
      if busy.Has(slot) {
        RetireSlot(slot, {});
      }
      nextOutputSlot := 1 - nextOutputSlot;
    }

    /** AllocTensor: any free buffer.  With nothing out for copying one is always free. */
    method AllocTensor() returns (buffer: int)
      requires Valid({}) && !busy.first && !busy.second
      modifies this`free
      ensures Valid({buffer}) && All() == old(All())
      ensures buffer in old(free) && free == old(free) - {buffer}
    {
      SomeFree(free, queued, outputSlot, busy);
      buffer :| buffer in free;
      free := free - {buffer};
    }

    // Hand the held-back batch to PIPE_MTE3.
    method LaunchHeld(ghost owned: set<int>)
      requires Valid(owned) && readyOutputValid
      modifies this`mte3, this`outputSlot, this`busy, this`queued, this`readyOutputValid
      ensures Valid(owned) && All() == old(All())
      ensures !readyOutputValid && busy == old(busy).With(readyOutputSlotId, true)
    {
      var slot := readyOutputSlotId;
      var buffer := queued[0];
      LaunchKeeps(State(), owned);
      ghost var next := LaunchedState(State());
      queued := queued[1..];
      mte3 := mte3 + [Copy(slot, readyRecord, buffer), Post(slot)];
      outputSlot := outputSlot[slot := buffer];
      busy := busy.With(slot, true);
      readyOutputValid := false;
      assert State() == next;
    }

    // Hand the held-back batch to PIPE_MTE3, if there is one.
    method LaunchReadyOutput(ghost owned: set<int>)
      requires Valid(owned)
      modifies this`mte3, this`outputSlot, this`busy, this`queued, this`readyOutputValid
      ensures Valid(owned) && All() == old(All())
      ensures !readyOutputValid
      ensures busy == if old(readyOutputValid) then old(busy).With(readyOutputSlotId, true) else old(busy)
    {
      if readyOutputValid {
        LaunchHeld(owned);
      }
    }

    /** A batch has its slot label and buffer; the previous one may still be held back. */
    ghost predicate Begun(slot: int, buffer: int)
      reads this
    {
      && Valid({buffer}) && 0 <= slot <= 1 && nextOutputSlot == 1 - slot
      && !busy.first && !busy.second && (readyOutputValid ==> readyOutputSlotId == 1 - slot)
    }

    /** The previous batch is launched; this one may be held back. */
    ghost predicate Launched(slot: int, buffer: int)
      reads this
    {
      && Valid({buffer}) && 0 <= slot <= 1 && nextOutputSlot == 1 - slot
      && !busy.Has(slot) && !readyOutputValid
    }

    // Acquire a slot label and allocate a buffer for the next batch.
    method BeginBatch() returns (slot: int, buffer: int)
      requires Idle()
      modifies this`mte3, this`posted, this`stored, this`busy, this`free, this`nextOutputSlot
      ensures Begun(slot, buffer) && All() == old(All())
    {
      Mte3Advance({});
      slot := AcquireOutputSlot();
      buffer := AllocTensor();
    }

    // PIPE_V has started on the batch: launch the previous one.
    method LaunchPrevious(slot: int, buffer: int)
      requires Begun(slot, buffer)
      modifies this`mte3, this`posted, this`stored, this`outputSlot, this`busy, this`queued, this`readyOutputValid
      ensures Launched(slot, buffer) && All() == old(All())
    {
      Mte3Advance({buffer});
      LaunchReadyOutput({buffer});
      Mte3Advance({buffer});
    }

    // Fill the allocated buffer, EnQue it and record it as the held-back batch.
    method HoldBack(slot: int, buffer: int, record: R, data: D)
      requires Launched(slot, buffer)
      modifies this`content, this`queued, this`readyOutputValid, this`readyOutputSlotId, this`readyRecord
      ensures Idle() && All() == old(All()) + [Batch(record, data)]
      ensures readyOutputValid && readyRecord == record && queued == old(queued) + [buffer] && mte3 == old(mte3)
    {
      HoldKeeps(State(), slot, buffer, record, data);
      ghost var next := HeldState(State(), slot, buffer, record, data);
      content := content[buffer := data];
      queued := queued + [buffer];
      readyOutputSlotId := slot;
      readyRecord := record;
      readyOutputValid := true;
      assert State() == next;
    }

    /** One vector batch: acquire and allocate, start PIPE_V, launch the previous batch, finish, hold
        back.  PIPE_MTE3 runs freely in between.  The batch itself stays held back. */
    method RunBatch(record: R, data: D)
      requires Idle()
      modifies this
      ensures Idle() && All() == old(All()) + [Batch(record, data)]
      ensures readyOutputValid && readyRecord == record
    {
      var slot, buffer := BeginBatch();
      LaunchPrevious(slot, buffer);
      HoldBack(slot, buffer, record, data);
    }

    // DrainAllOutputSlots: wait for both slots.
    method DrainAllOutputSlots()
      requires Valid({}) && !readyOutputValid
      modifies this`mte3, this`posted, this`stored, this`busy, this`free
      ensures Valid({}) && All() == old(All()) && !readyOutputValid
      ensures !busy.Has(0) && !busy.Has(1)
    {
      for slot := 0 to 2
        invariant Valid({}) && All() == old(All()) && !readyOutputValid
        invariant forall s :: 0 <= s < slot ==> !busy.Has(s)
      {
        if busy.Has(slot) {
          RetireSlot(slot, {});
        }
      }
    }

    /** The epilogue: launch what is held back and wait for both slots.  Everything handed to the ring
        is stored, in order, once, and both buffers are free again. */
    method Drain()
      requires Idle()
      modifies this
      ensures Idle() && stored == old(All())
      ensures free == {0, 1} && mte3 == [] && queued == [] && posted == [0, 0]
      ensures busy == BusySlots(false, false) && !readyOutputValid
    {
      LaunchReadyOutput({});
      DrainAllOutputSlots();
      DrainedIsStored(State());
    }

    /** A lane's whole output: any sequence of batches is stored completely, in order, once each. */
    method StoreAll(batches: seq<Batch<R, D>>)
      requires Idle() && All() == []
      modifies this
      ensures stored == batches && free == {0, 1} && mte3 == [] && busy == BusySlots(false, false)
    {
      for i := 0 to |batches|
        invariant Idle() && All() == batches[..i]
      {
        Prefix(batches, i);
        RunBatch(batches[i].record, batches[i].data);
      }
      assert batches[..|batches|] == batches;
      Drain();
    }
  }
}
