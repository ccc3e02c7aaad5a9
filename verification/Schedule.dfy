/** Which MIX group computes which (chunk, KV head) task, in which local round.

  The cube core finds its tasks by division (ScheduledTaskCount, ScheduledTaskId).  Each of the three
  modes is shown to be a bijection from {(group, round)} onto the task ids by giving its inverse. */
module Schedule {

  /** The tiling structure the host hands to the kernel. */
  datatype Tiling = Tiling(totalTaskCount: int, t: int, hg: int, blockDim: int, numRepeat: int)

  const CHAMP_GROUP_ALIGNED_CORE_COUNT := 16
  const CHAMP_SMALL_TASK_MAX := 32
  const CHAMP_SHALLOW_MANUAL_TASK_MIN := 80
  const CHAMP_DEEP_MANUAL_TASK_MAX := 400
  const CHAMP_SHORT_MANUAL_TASK_MAX := 256
  const CHAMP_MEDIUM_TASK_MAX := 512
  const CHAMP_GROUP_ALIGNED_LARGE_ROLLBACK := 400

  predicate UseChampionGroupAlignedSchedule(tiling: Tiling) {
    var taskCount, hg, blockDim, repeat :=
      tiling.totalTaskCount, tiling.hg, tiling.blockDim, tiling.numRepeat;
    if taskCount > CHAMP_GROUP_ALIGNED_LARGE_ROLLBACK then false
    else if (repeat != 3 && repeat != 4) || hg <= 0 || blockDim <= 0 || blockDim % hg != 0 then false
    else if hg == 2 && CHAMP_SMALL_TASK_MAX < taskCount <= CHAMP_MEDIUM_TASK_MAX then true
    else if blockDim != CHAMP_GROUP_ALIGNED_CORE_COUNT then false
    else if hg == 16 && CHAMP_SHALLOW_MANUAL_TASK_MIN < taskCount <= CHAMP_DEEP_MANUAL_TASK_MAX then true
    else (hg == 8 && repeat == 4 &&
          CHAMP_SHALLOW_MANUAL_TASK_MIN < taskCount <= CHAMP_SHORT_MANUAL_TASK_MAX)
  }

  datatype Mode = Cyclic | ChunkLocal | GroupAligned

  // The schedule a kernel instance runs.
  function ModeOf(tiling: Tiling): Mode {
    if UseChampionGroupAlignedSchedule(tiling) then GroupAligned
    else if tiling.numRepeat == 3 then ChunkLocal
    else Cyclic
  }

  /** What the schedule arithmetic relies on. */
  predicate Schedulable(total: int, hg: int, blockDim: int, mode: Mode) {
    && hg >= 1 && blockDim >= 1 && total >= 0 && total % hg == 0
    && (mode.GroupAligned? ==> blockDim % hg == 0)
  }

  // First chunk of a core inside its KV group, for any core index up to and including the last + 1.
  function ChunkStart(core: int, cores: int, numChunks: int): int
    requires cores >= 1
  {
    var chunksPerCore := numChunks / cores;
    var extraChunks := numChunks - chunksPerCore * cores;
    core * chunksPerCore + (if core < extraChunks then core else extraChunks)
  }

  function ScheduledTaskCount(group: int, total: int, hg: int, blockDim: int, mode: Mode): int
    requires Schedulable(total, hg, blockDim, mode) && 0 <= group < blockDim
  {
    match mode
    case GroupAligned =>
      var numChunks := total / hg;
      var cores := blockDim / hg;
      CoresDivide(hg, blockDim);
      var coreInKvGroup := group % cores;
      var chunksPerCore := numChunks / cores;
      var extraChunks := numChunks - chunksPerCore * cores;
      chunksPerCore + (if coreInKvGroup < extraChunks then 1 else 0)
    case Cyclic =>
      if group >= total then 0 else (total - 1 - group) / blockDim + 1
    case ChunkLocal =>
      total * (group + 1) / blockDim - total * group / blockDim
  }

  function ScheduledTaskId(group: int, round: int, total: int, hg: int, blockDim: int, mode: Mode): int
    requires Schedulable(total, hg, blockDim, mode) && 0 <= group < blockDim
    requires mode.ChunkLocal? ==> total > 0
  {
    var numChunks := total / hg;
    match mode
    case GroupAligned =>
      var cores := blockDim / hg;
      CoresDivide(hg, blockDim);
      var kvHeadId := group / cores;
      var coreInKvGroup := group - kvHeadId * cores;
      (ChunkStart(coreInKvGroup, cores, numChunks) + round) * hg + kvHeadId
    case Cyclic => group + round * blockDim
    case ChunkLocal =>
      ChunksPositive(total, hg);
      var ordinal := total * group / blockDim + round;
      var kvHeadId := ordinal / numChunks;
      var chunkId := ordinal - kvHeadId * numChunks;
      chunkId * hg + kvHeadId
  }

  // ---------------------------------------------------------------- division facts

  lemma CoresDivide(hg: int, blockDim: int)
    requires hg >= 1 && blockDim >= 1 && blockDim % hg == 0
    ensures blockDim / hg >= 1 && hg * (blockDim / hg) == blockDim
  {}

  lemma ChunksPositive(total: int, hg: int)
    requires hg >= 1 && total > 0 && total % hg == 0
    ensures total / hg >= 1 && hg * (total / hg) == total
  {}

  lemma DivUnique(q: int, d: int, r: int)
    requires d > 0 && 0 <= r < d
    ensures (q * d + r) / d == q && (q * d + r) % d == r
  {
    var x := q * d + r;
    var e := x / d - q;
    assert x == (x / d) * d + x % d;
    assert e * d == (x / d) * d - q * d;
    if e != 0 { FarMultiple(e, d); }
  }

  lemma FarMultiple(e: int, d: int)
    requires d > 0 && e != 0
    ensures e * d >= d || e * d <= -d
  {
    if e > 0 { assert (e - 1) * d >= 0; assert (e - 1) * d == e * d - d; }
    else { assert (-1 - e) * d >= 0; assert (-1 - e) * d == -d - e * d; }
  }

  lemma DivBetween(x: int, d: int, q: int)
    requires d > 0 && q * d <= x < (q + 1) * d
    ensures x / d == q
  {
    assert (q + 1) * d == q * d + d;
    DivUnique(q, d, x - q * d);
  }

  lemma DivBounds(x: int, d: int)
    requires d > 0
    ensures (x / d) * d <= x < (x / d + 1) * d
  {
    assert (x / d + 1) * d == (x / d) * d + d;
  }

  lemma MulMono(a: int, b: int, d: int)
    requires a <= b && d >= 0
    ensures a * d <= b * d
  {
    assert (b - a) * d >= 0;
    assert (b - a) * d == b * d - a * d;
  }

  lemma DivMono(x: int, y: int, d: int)
    requires d > 0 && x <= y
    ensures x / d <= y / d
  {
    DivBounds(x, d);
    DivBounds(y, d);
    if y / d < x / d { MulMono(y / d + 1, x / d, d); }
  }

  // q is the quotient exactly when x lies below (q + 1) * d and not below q * d.
  lemma DivGe(x: int, d: int, q: int)
    requires d > 0
    ensures x / d >= q <==> x >= q * d
  {
    DivBounds(x, d);
    if x / d >= q { MulMono(q, x / d, d); }
    if x / d < q { MulMono(x / d + 1, q, d); }
  }

  // ---------------------------------------------------------------- balanced ranges

  // The contiguous split used by the chunk-local stream: begin(g) = total * g / blockDim.
  function Begin(total: int, blockDim: int, group: int): int
    requires blockDim >= 1
  {
    total * group / blockDim
  }

  // The group whose range holds a position of the stream.
  function RangeOwner(total: int, blockDim: int, ordinal: int): int
    requires total > 0
  {
    (blockDim * (ordinal + 1) - 1) / total
  }

  lemma BeginLe(total: int, blockDim: int, group: int, ordinal: int)
    requires total > 0 && blockDim >= 1
    ensures Begin(total, blockDim, group) <= ordinal <==> group <= RangeOwner(total, blockDim, ordinal)
  {
    DivGe(total * group, blockDim, ordinal + 1);
    DivGe(blockDim * (ordinal + 1) - 1, total, group);
    assert (ordinal + 1) * blockDim == blockDim * (ordinal + 1);
    assert group * total == total * group;
  }

  lemma BeginEnds(total: int, blockDim: int)
    requires total >= 0 && blockDim >= 1
    ensures Begin(total, blockDim, 0) == 0 && Begin(total, blockDim, blockDim) == total
  {
    assert total * 0 == 0;
    DivUnique(total, blockDim, 0);
  }

  lemma BeginMono(total: int, blockDim: int, g: int, h: int)
    requires total >= 0 && blockDim >= 1 && g <= h
    ensures Begin(total, blockDim, g) <= Begin(total, blockDim, h)
  {
    MulMono(g, h, total);
    assert g * total == total * g && h * total == total * h;
    DivMono(total * g, total * h, blockDim);
  }

  /** Every position of the stream lies in the range of exactly one group, its owner. */
  lemma RangeOwnerOwns(total: int, blockDim: int, ordinal: int, group: int)
    requires total > 0 && blockDim >= 1 && 0 <= ordinal < total
    ensures 0 <= RangeOwner(total, blockDim, ordinal) < blockDim
    ensures Begin(total, blockDim, group) <= ordinal < Begin(total, blockDim, group + 1)
       <==> group == RangeOwner(total, blockDim, ordinal)
  {
    BeginEnds(total, blockDim);
    BeginLe(total, blockDim, 0, ordinal);
    BeginLe(total, blockDim, blockDim, ordinal);
    BeginLe(total, blockDim, group, ordinal);
    BeginLe(total, blockDim, group + 1, ordinal);
  }

  // ---------------------------------------------------------------- aligned ranges

  // The core of a KV group whose chunk range holds the chunk.
  function CoreOwner(chunk: int, cores: int, numChunks: int): int
    requires cores >= 1
  {
    var per := numChunks / cores;
    var extra := numChunks - per * cores;
    if chunk < extra * (per + 1) then (if per + 1 > 0 then chunk / (per + 1) else 0)
    else if per > 0 then extra + (chunk - extra * (per + 1)) / per
    else 0
  }

  function CoreCount(core: int, cores: int, numChunks: int): int
    requires cores >= 1
  {
    var per := numChunks / cores;
    per + (if core < numChunks - per * cores then 1 else 0)
  }

  lemma ChunkStartNext(core: int, cores: int, numChunks: int)
    requires cores >= 1 && numChunks >= 0
    ensures ChunkStart(core + 1, cores, numChunks)
         == ChunkStart(core, cores, numChunks) + CoreCount(core, cores, numChunks)
  {
    var per := numChunks / cores;
    assert (core + 1) * per == core * per + per;
  }

  lemma ChunkStartEnds(cores: int, numChunks: int)
    requires cores >= 1 && numChunks >= 0
    ensures ChunkStart(0, cores, numChunks) == 0
    ensures ChunkStart(cores, cores, numChunks) == numChunks
  {
    var per := numChunks / cores;
    DivBounds(numChunks, cores);
    assert (per + 1) * cores == per * cores + cores;
    assert 0 <= numChunks - per * cores < cores;
    assert cores * per == per * cores;
    assert 0 * per == 0;
  }

  lemma {:induction false} ChunkStartMono(a: int, b: int, cores: int, numChunks: int)
    requires cores >= 1 && numChunks >= 0 && a <= b
    ensures ChunkStart(a, cores, numChunks) <= ChunkStart(b, cores, numChunks)
    decreases b - a
  {
    if a < b {
      ChunkStartMono(a, b - 1, cores, numChunks);
      ChunkStartNext(b - 1, cores, numChunks);
      assert numChunks / cores >= 0 by { DivMono(0, numChunks, cores); }
    }
  }

  // A chunk among the first `extra` cores, which own one chunk more than the rest.
  lemma WideCore(chunk: int, per: int, extra: int)
    requires per >= 0 && 0 <= chunk < extra * (per + 1)
    ensures
      var core := chunk / (per + 1);
      0 <= core < extra && core * per + core <= chunk < (core + 1) * per + core + 1
  {
    var core := chunk / (per + 1);
    DivBounds(chunk, per + 1);
    DivGe(chunk, per + 1, extra);
    DivGe(chunk, per + 1, 0);
    assert core * (per + 1) == core * per + core;
    assert (core + 1) * (per + 1) == (core + 1) * per + core + 1;
  }

  lemma NarrowCore(rest: int, per: int, extra: int)
    requires per > 0 && rest >= 0
    ensures
      var core := extra + rest / per;
      core >= extra && core * per <= extra * per + rest < (core + 1) * per
  {
    var q := rest / per;
    DivBounds(rest, per);
    DivGe(rest, per, 0);
    assert (extra + q) * per == extra * per + q * per;
    assert (extra + q + 1) * per == extra * per + (q + 1) * per;
  }

  lemma CoreOwnerHolds(chunk: int, cores: int, numChunks: int)
    requires cores >= 1 && 0 <= chunk < numChunks
    ensures
      var core := CoreOwner(chunk, cores, numChunks);
      && 0 <= core
      && ChunkStart(core, cores, numChunks) <= chunk < ChunkStart(core + 1, cores, numChunks)
  {
    var per := numChunks / cores;
    var extra := numChunks - per * cores;
    DivBounds(numChunks, cores);
    DivGe(numChunks, cores, 0);
    assert extra * (per + 1) == extra * per + extra;
    if chunk < extra * (per + 1) {
      WideCore(chunk, per, extra);
    } else {
      NarrowCore(chunk - extra * (per + 1), per, extra);
    }
  }

  /** Every chunk lies in the range of exactly one core of the KV group. */
  lemma CoreOwnerOwns(chunk: int, cores: int, numChunks: int, core: int)
    requires cores >= 1 && 0 <= chunk < numChunks
    ensures 0 <= CoreOwner(chunk, cores, numChunks) < cores
    ensures ChunkStart(core, cores, numChunks) <= chunk < ChunkStart(core + 1, cores, numChunks)
       <==> core == CoreOwner(chunk, cores, numChunks)
  {
    var own := CoreOwner(chunk, cores, numChunks);
    CoreOwnerHolds(chunk, cores, numChunks);
    ChunkStartEnds(cores, numChunks);
    if own >= cores { ChunkStartMono(cores, own, cores, numChunks); }
    if core < own { ChunkStartMono(core + 1, own, cores, numChunks); }
    if own < core { ChunkStartMono(own + 1, core, cores, numChunks); }
  }

  // ---------------------------------------------------------------- the inverse

  function StreamOrdinal(task: int, total: int, hg: int): int
    requires hg >= 1
  {
    (task % hg) * (total / hg) + task / hg
  }

  // The group that runs a task.
  function OwnerGroup(task: int, total: int, hg: int, blockDim: int, mode: Mode): int
    requires Schedulable(total, hg, blockDim, mode) && 0 <= task < total
  {
    match mode
    case GroupAligned =>
      CoresDivide(hg, blockDim);
      (task % hg) * (blockDim / hg) + CoreOwner(task / hg, blockDim / hg, total / hg)
    case Cyclic => task % blockDim
    case ChunkLocal => RangeOwner(total, blockDim, StreamOrdinal(task, total, hg))
  }

  // The local round in which it runs it.
  function OwnerRound(task: int, total: int, hg: int, blockDim: int, mode: Mode): int
    requires Schedulable(total, hg, blockDim, mode) && 0 <= task < total
  {
    match mode
    case GroupAligned =>
      CoresDivide(hg, blockDim);
      var core := CoreOwner(task / hg, blockDim / hg, total / hg);
      task / hg - ChunkStart(core, blockDim / hg, total / hg)
    case Cyclic => task / blockDim
    case ChunkLocal =>
      var ordinal := StreamOrdinal(task, total, hg);
      ordinal - Begin(total, blockDim, RangeOwner(total, blockDim, ordinal))
  }

  lemma CyclicTask(group: int, round: int, total: int, blockDim: int)
    requires blockDim >= 1 && total >= 0 && 0 <= group < blockDim && round >= 0
    ensures (group + round * blockDim) / blockDim == round
    ensures (group + round * blockDim) % blockDim == group
    ensures round < (if group >= total then 0 else (total - 1 - group) / blockDim + 1)
       <==> group + round * blockDim < total
  {
    DivUnique(round, blockDim, group);
    if group < total { DivGe(total - 1 - group, blockDim, round); }
    else { assert round * blockDim >= 0; }
  }

  lemma ChunkOfTask(chunk: int, head: int, hg: int, numChunks: int)
    requires hg >= 1 && 0 <= head < hg && 0 <= chunk < numChunks
    ensures (chunk * hg + head) / hg == chunk && (chunk * hg + head) % hg == head
    ensures 0 <= chunk * hg + head < numChunks * hg
  {
    DivUnique(chunk, hg, head);
    MulMono(chunk + 1, numChunks, hg);
    assert (chunk + 1) * hg == chunk * hg + hg;
    assert 0 <= chunk * hg;
  }

  lemma TaskParts(task: int, total: int, hg: int)
    requires hg >= 1 && 0 <= task < total && total % hg == 0
    ensures 0 <= task / hg < total / hg && 0 <= task % hg < hg
    ensures (task / hg) * hg + task % hg == task
    ensures 0 <= StreamOrdinal(task, total, hg) < total
    ensures StreamOrdinal(task, total, hg) / (total / hg) == task % hg
    ensures StreamOrdinal(task, total, hg) % (total / hg) == task / hg
  {
    var n := total / hg;
    assert n * hg == total;
    DivGe(task, hg, 0);
    DivGe(task, hg, n);
    DivUnique(task % hg, n, task / hg);
    ChunkOfTask(task % hg, task / hg, n, hg);
    assert hg * n == n * hg;
  }

  lemma StreamParts(ordinal: int, n: int, hg: int)
    requires n >= 1 && hg >= 1 && 0 <= ordinal < n * hg
    ensures 0 <= ordinal / n < hg && 0 <= ordinal - ordinal / n * n < n
  {
    DivBounds(ordinal, n);
    assert (ordinal / n + 1) * n == ordinal / n * n + n;
    DivGe(ordinal, n, 0);
    DivGe(ordinal, n, hg);
    assert hg * n == n * hg;
  }

  lemma StreamTask(ordinal: int, total: int, hg: int)
    requires hg >= 1 && 0 <= ordinal < total && total % hg == 0
    ensures total / hg >= 1
    ensures
      var n := total / hg;
      var task := (ordinal - ordinal / n * n) * hg + ordinal / n;
      && 0 <= task < total && StreamOrdinal(task, total, hg) == ordinal
      && task % hg == ordinal / n && task / hg == ordinal % n
  {
    ChunksPositive(total, hg);
    var n := total / hg;
    assert n * hg == total by { assert hg * n == n * hg; }
    StreamParts(ordinal, n, hg);
    ChunkOfTask(ordinal - ordinal / n * n, ordinal / n, hg, n);
  }

  /** A scheduled (group, round) names a real task, and the task names it back. */
  lemma ScheduledTaskOwned(group: int, round: int, total: int, hg: int, blockDim: int, mode: Mode)
    requires Schedulable(total, hg, blockDim, mode) && 0 <= group < blockDim
    requires 0 <= round < ScheduledTaskCount(group, total, hg, blockDim, mode)
    ensures total > 0
    ensures
      var task := ScheduledTaskId(group, round, total, hg, blockDim, mode);
      && 0 <= task < total
      && OwnerGroup(task, total, hg, blockDim, mode) == group
      && OwnerRound(task, total, hg, blockDim, mode) == round
  {
    match mode
    case Cyclic =>
      CyclicTask(group, round, total, blockDim);
      assert round * blockDim >= 0;
    case ChunkLocal =>
      BeginEnds(total, blockDim);
      BeginMono(total, blockDim, 0, group);
      BeginMono(total, blockDim, group + 1, blockDim);
      var ordinal := Begin(total, blockDim, group) + round;
      StreamTask(ordinal, total, hg);
      RangeOwnerOwns(total, blockDim, ordinal, group);
    case GroupAligned =>
      AlignedTaskOwned(group, round, total, hg, blockDim);
  }

  lemma AlignedTaskOwned(group: int, round: int, total: int, hg: int, blockDim: int)
    requires Schedulable(total, hg, blockDim, GroupAligned) && 0 <= group < blockDim
    requires 0 <= round < ScheduledTaskCount(group, total, hg, blockDim, GroupAligned)
    ensures total > 0
    ensures
      var task := ScheduledTaskId(group, round, total, hg, blockDim, GroupAligned);
      && 0 <= task < total
      && OwnerGroup(task, total, hg, blockDim, GroupAligned) == group
      && OwnerRound(task, total, hg, blockDim, GroupAligned) == round
  {
    CoresDivide(hg, blockDim);
    var cores, n := blockDim / hg, total / hg;
    var head := group / cores;
    var core := group - head * cores;
    assert n * hg == total;
    assert hg * cores == cores * hg;
    DivBounds(group, cores);
    assert (head + 1) * cores == head * cores + cores;
    DivGe(group, cores, 0);
    DivGe(group, cores, hg);
    assert group % cores == core by { DivUnique(head, cores, core); }
    DivGe(total, hg, 0);
    ChunkStartEnds(cores, n);
    ChunkStartMono(0, core, cores, n);
    ChunkStartNext(core, cores, n);
    ChunkStartMono(core + 1, cores, cores, n);
    var chunk := ChunkStart(core, cores, n) + round;
    CoreOwnerOwns(chunk, cores, n, core);
    ChunkOfTask(chunk, head, hg, n);
  }

  // The owner is a group, and runs the task in one of its rounds.
  ghost predicate RunByOwner(task: int, total: int, hg: int, blockDim: int, mode: Mode)
    requires Schedulable(total, hg, blockDim, mode) && 0 <= task < total
  {
    var group := OwnerGroup(task, total, hg, blockDim, mode);
    var round := OwnerRound(task, total, hg, blockDim, mode);
    && 0 <= group < blockDim
    && 0 <= round < ScheduledTaskCount(group, total, hg, blockDim, mode)
    && ScheduledTaskId(group, round, total, hg, blockDim, mode) == task
  }

  lemma CyclicOwner(task: int, total: int, hg: int, blockDim: int)
    requires Schedulable(total, hg, blockDim, Cyclic) && 0 <= task < total
    ensures RunByOwner(task, total, hg, blockDim, Cyclic)
  {
    DivBounds(task, blockDim);
    DivGe(task, blockDim, 0);
    CyclicTask(task % blockDim, task / blockDim, total, blockDim);
  }

  lemma StreamOwner(task: int, total: int, hg: int, blockDim: int)
    requires Schedulable(total, hg, blockDim, ChunkLocal) && 0 <= task < total
    ensures RunByOwner(task, total, hg, blockDim, ChunkLocal)
  {
    TaskParts(task, total, hg);
    var ordinal := StreamOrdinal(task, total, hg);
    RangeOwnerOwns(total, blockDim, ordinal, RangeOwner(total, blockDim, ordinal));
    var n := total / hg;
    assert ordinal - ordinal / n * n == ordinal % n;
  }

  lemma AlignedGroup(head: int, core: int, cores: int, hg: int)
    requires cores >= 1 && 0 <= core < cores && 0 <= head < hg
    ensures
      var group := head * cores + core;
      0 <= group < hg * cores && group / cores == head && group % cores == core
  {
    ChunkOfTask(head, core, cores, hg);
  }

  lemma AlignedOwner(task: int, total: int, hg: int, blockDim: int)
    requires Schedulable(total, hg, blockDim, GroupAligned) && 0 <= task < total
    ensures RunByOwner(task, total, hg, blockDim, GroupAligned)
  {
    CoresDivide(hg, blockDim);
    TaskParts(task, total, hg);
    var cores, n := blockDim / hg, total / hg;
    var core := CoreOwner(task / hg, cores, n);
    CoreOwnerOwns(task / hg, cores, n, core);
    AlignedGroup(task % hg, core, cores, hg);
    ChunkStartNext(core, cores, n);
    var group := task % hg * cores + core;
    assert group - group / cores * cores == core;
  }

  /** Every task is scheduled: by its owner, in the owner's round. */
  lemma OwnerRunsTask(task: int, total: int, hg: int, blockDim: int, mode: Mode)
    requires Schedulable(total, hg, blockDim, mode) && 0 <= task < total
    ensures RunByOwner(task, total, hg, blockDim, mode)
  {
    match mode
    case Cyclic => CyclicOwner(task, total, hg, blockDim);
    case ChunkLocal => StreamOwner(task, total, hg, blockDim);
    case GroupAligned => AlignedOwner(task, total, hg, blockDim);
  }

  // ---------------------------------------------------------------- locality and balance

  lemma CountNatural(group: int, total: int, hg: int, blockDim: int, mode: Mode)
    requires Schedulable(total, hg, blockDim, mode) && 0 <= group < blockDim
    ensures ScheduledTaskCount(group, total, hg, blockDim, mode) >= 0
  {
    match mode
    case GroupAligned =>
      CoresDivide(hg, blockDim);
      DivGe(total, hg, 0);
      DivGe(total / hg, blockDim / hg, 0);
    case Cyclic =>
      if group < total { DivGe(total - 1 - group, blockDim, 0); }
    case ChunkLocal =>
      BeginMono(total, blockDim, group, group + 1);
  }

  lemma CyclicCount(group: int, total: int, blockDim: int)
    requires blockDim >= 1 && total >= 0 && 0 <= group < blockDim
    ensures total / blockDim
         <= (if group >= total then 0 else (total - 1 - group) / blockDim + 1)
         <= total / blockDim + 1
  {
    var q := total / blockDim;
    DivBounds(total, blockDim);
    assert (q + 1) * blockDim == q * blockDim + blockDim;
    if group >= total {
      DivBetween(total, blockDim, 0);
    } else {
      DivGe(total - 1 - group, blockDim, q - 1);
      DivGe(total - 1 - group, blockDim, q + 1);
      assert (q - 1) * blockDim == q * blockDim - blockDim;
    }
  }

  /** In every mode no two groups differ by more than one task. */
  lemma TaskCountsBalanced(g: int, h: int, total: int, hg: int, blockDim: int, mode: Mode)
    requires Schedulable(total, hg, blockDim, mode) && 0 <= g < blockDim && 0 <= h < blockDim
    ensures ScheduledTaskCount(g, total, hg, blockDim, mode)
         <= ScheduledTaskCount(h, total, hg, blockDim, mode) + 1
  {
    match mode
    case GroupAligned =>
    case Cyclic =>
      CyclicCount(g, total, blockDim);
      CyclicCount(h, total, blockDim);
    case ChunkLocal =>
      RangeCount(total, blockDim, g);
      RangeCount(total, blockDim, h);
  }

  lemma RangeCount(total: int, blockDim: int, group: int)
    requires total >= 0 && blockDim >= 1
    ensures total / blockDim
         <= Begin(total, blockDim, group + 1) - Begin(total, blockDim, group)
         <= total / blockDim + 1
  {
    var x, q := total * group, total / blockDim;
    assert total * (group + 1) == x + total;
    DivBounds(x, blockDim);
    DivBounds(total, blockDim);
    var b := x / blockDim;
    assert (b + q) * blockDim == b * blockDim + q * blockDim;
    assert (b + q + 2) * blockDim == (b + 1) * blockDim + (q + 1) * blockDim;
    DivGe(x + total, blockDim, b + q);
    DivGe(x + total, blockDim, b + q + 2);
  }

  // b is the next chunk of a's head, or the wrap to chunk 0 of the next head.
  predicate Follows(a: int, b: int, total: int, hg: int, mayWrap: bool)
    requires hg >= 1
  {
    || (b % hg == a % hg && b / hg == a / hg + 1)
    || (mayWrap && a / hg == total / hg - 1 && b / hg == 0 && b % hg == a % hg + 1)
  }

  lemma AlignedRounds(group: int, round: int, total: int, hg: int, blockDim: int)
    requires Schedulable(total, hg, blockDim, GroupAligned) && 0 <= group < blockDim
    ensures Follows(ScheduledTaskId(group, round, total, hg, blockDim, GroupAligned),
                    ScheduledTaskId(group, round + 1, total, hg, blockDim, GroupAligned),
                    total, hg, false)
  {
    CoresDivide(hg, blockDim);
    var cores := blockDim / hg;
    var chunk := ChunkStart(group - group / cores * cores, cores, total / hg) + round;
    assert (chunk + 1) * hg == chunk * hg + hg;
    AlignedStep(chunk * hg + group / cores, (chunk + 1) * hg + group / cores, hg);
  }

  lemma StreamRounds(group: int, round: int, total: int, hg: int, blockDim: int)
    requires Schedulable(total, hg, blockDim, ChunkLocal) && total > 0 && 0 <= group < blockDim
    requires 0 <= round && round + 1 < ScheduledTaskCount(group, total, hg, blockDim, ChunkLocal)
    ensures Follows(ScheduledTaskId(group, round, total, hg, blockDim, ChunkLocal),
                    ScheduledTaskId(group, round + 1, total, hg, blockDim, ChunkLocal),
                    total, hg, true)
  {
    var ordinal := Begin(total, blockDim, group) + round;
    BeginEnds(total, blockDim);
    BeginMono(total, blockDim, 0, group);
    BeginMono(total, blockDim, group + 1, blockDim);
    StreamTask(ordinal, total, hg);
    StreamTask(ordinal + 1, total, hg);
    StreamStep(ordinal, total / hg);
  }

  /** Consecutive rounds of a group stay in the KV head on the next chunk; only the chunk-local stream
      may instead wrap to chunk 0 of the next head. */
  lemma ConsecutiveRounds(group: int, round: int, total: int, hg: int, blockDim: int, mode: Mode)
    requires Schedulable(total, hg, blockDim, mode) && 0 <= group < blockDim && !mode.Cyclic?
    requires 0 <= round && round + 1 < ScheduledTaskCount(group, total, hg, blockDim, mode)
    ensures total > 0
    ensures Follows(ScheduledTaskId(group, round, total, hg, blockDim, mode),
                    ScheduledTaskId(group, round + 1, total, hg, blockDim, mode),
                    total, hg, mode.ChunkLocal?)
  {
    ScheduledTaskOwned(group, round, total, hg, blockDim, mode);
    if mode.GroupAligned? { AlignedRounds(group, round, total, hg, blockDim); }
    else { StreamRounds(group, round, total, hg, blockDim); }
  }

  lemma AlignedStep(a: int, b: int, hg: int)
    requires hg >= 1
    requires b == a + hg
    ensures b % hg == a % hg && b / hg == a / hg + 1
  {
    assert (a / hg + 1) * hg == (a / hg) * hg + hg;
    DivUnique(a / hg + 1, hg, a % hg);
  }

  lemma StreamStep(ordinal: int, n: int)
    requires n >= 1 && ordinal >= 0
    ensures ordinal % n + 1 < n ==>
      (ordinal + 1) / n == ordinal / n && (ordinal + 1) % n == ordinal % n + 1
    ensures ordinal % n + 1 == n ==>
      (ordinal + 1) / n == ordinal / n + 1 && (ordinal + 1) % n == 0
  {
    var q, r := ordinal / n, ordinal % n;
    assert q * n + r == ordinal;
    if r + 1 < n { DivUnique(q, n, r + 1); }
    else { assert (q + 1) * n == q * n + n; DivUnique(q + 1, n, 0); }
  }

  /** The cyclic walker's reuse test, in task ids, is the round test of the other walkers. */
  lemma CyclicReuse(group: int, round: int, total: int, hg: int, blockDim: int)
    requires Schedulable(total, hg, blockDim, Cyclic) && 0 <= group < blockDim && round >= 0
    ensures group + round * blockDim + 2 * blockDim < total
       <==> round + 2 < ScheduledTaskCount(group, total, hg, blockDim, Cyclic)
  {
    CyclicTask(group, round + 2, total, blockDim);
    assert (round + 2) * blockDim == round * blockDim + 2 * blockDim;
  }
}
