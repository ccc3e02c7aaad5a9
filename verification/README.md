# Verified model of ChunkScaledDotKkt

This Dafny project models the ChunkScaledDotKkt operator for Ascend 910B and proves that a launch
computes its formula.  For every 64-row chunk and KV head one cube core (AIC) computes a Gram tile;
the two vector lanes (AIV) of its group mask, scale and write that tile for every query head.  What
the proofs are about is everything around the arithmetic: which group runs which task, who owns which
buffer when, and what each reused buffer holds.

`dafny verify dfyconfig.toml` checks the whole project.

## How it fits together

- **Schedules** (`Schedule.dfy`): closed-form task counts and ids, with inverse functions that make
  each of the three modes a bijection onto the task ids.
- **Group protocol** (`GroupProgram.dfy`, `GroupFlags.dfy`, `GroupProgress.dfy`, `GroupWindows.dfy`,
  `GroupData.dfy`, `GroupTokens.dfy`, `PingPong.dfy`, `GroupRuns.dfy`): the eleven pipes of a group (scalar, MTE2,
  MTE1, M and FIX of the cube core; scalar, MTE2 and V of each lane) as in-order instruction streams
  over counting flags.  A state machine step is one instruction of any pipe, so every interleaving is
  a schedule of steps.  The same machine has the released K=128 and K=256 stages and v03's two-stage L1
  ping-pong with prefetch distance two.
- **Cube data path** (`CubeGram.dfy`): NZ packing, part loads and accumulation over arrays.
- **Vector data path** (`VectorArithmetic.dfy`, `VectorOps.dfy`, `TileLoad.dfy`, `Factor.dfy`, `FactorV03.dfy`,
  `HeadTiles.dfy`): padded loads, in-place factor construction and the KKT multiply over arrays.
- **Lane control** (`LaneOps.dfy`, `VectorLane.dfy`, `GatePrefetchV03.dfy`): the walkers, the task
  pipeline with its gate queues, the fused two-chunk step, and v03's cross-task prefetch.
- **Output** (`OutputRing.dfy`, `OutputWindow.dfy`, `CopyOut.dfy`, `OutputBatches.dfy`): the delayed
  two-buffer ring with asynchronous MTE3, v03's four-batch window, and the copy descriptors.
- **Host and reference** (`HostTiling.dfy`, `LaunchNumbers.dfy`, `Golden.dfy`, `Semantics.dfy`, `TensorForm.dfy`):
  shape validation and block count, the launch in numbers, the example program's reference, the formula on
  flat inputs, and the documented formula on nested tensors.
- **Joining them** (`Coverage.dfy`, `EndToEnd.dfy`, `Launches.dfy`, `GroupMachine.dfy`, `KernelRun.dfy`,
  `Operator.dfy`): every output row is written once, the pipes run on real buffers, and the final memory is the formula.

The main theorem is `Operator.RunOperator`: nested tensors in, the host's launch, the kernel, and the
documented values out, with positions and limits written in numbers.

The kernel theorem is `KernelRun.RunKernel`; its proof composes the released kernel's layers above.  It
takes the input tensors, one finished interleaving per group and the output memory.  `GroupMachine.RunProtocol`
executes the interleaving instruction by instruction on buffers with arbitrary contents; by
`GroupData.PlayKeepsData`, `GroupRuns.CompleteRun` and `GroupRuns.FullIsGram` each lane takes the Gram
tile of its own task in each of its working rounds.  `KernelRun.RunLane` walks the lane's schedule
(`VectorLane.VectorStage.Process`), fills every batch handed over (`OutputBatches`) and stores them through
the ring (`OutputRing.Ring.StoreAll`).  `KernelRun.PerformAll` performs all copies in an arbitrary order, and
`EndToEnd.KernelOutput` reads off the memory.  `KernelRun.RunAccepted` compares it with the example program's
expected values.  Its hypotheses are a well-formed launch, matching tensors, the arithmetic laws at the
gates, and the limits of the two hardware fields in the pitch and stride findings below.

## Preconditions and findings

- A launch has totalTaskCount = numChunks * hg >= 1, blockDim >= 1 and numRepeat >= 1;
  `HostTiling` proves this of every accepted input.
- Claims about which chunk a row belongs to need nondecreasing chunk offsets.  The kernel checks each
  chunk only locally.  That rows of no valid chunk keep their contents does not need them.
- The packed copy passes its row pitch through a 16-bit field and the host bounds neither hg nor the
  pitch.  The copied tile is right for every input exactly when hg*K <= 65535 or the chunk has one row
  (`CubeGram.CopiedRightIff`); hg = 512 with K = 128 breaks it (`CubeGram.RowPitchTruncated`).
- A two-head gate copy passes the gap between the heads through a 32-bit byte field.  The loaded batch is
  right for every input exactly with one head or while (t - chunkLen) * 4 < 2^32
  (`TileLoad.LoadedRightIff`); t = 2^30 + 64 breaks it (`TileLoad.SourceStrideTruncated`).  The 16-bit stride of
  the copy-out descriptor is guarded, and the guard is exact (`CopyOut.StrideFits`).
- PIPE_V's multiply and exponential are parameters (`VectorArithmetic.dfy`).  The factorised path only
  reorders products, absorbs zeros and needs `exp(a-b) = exp(a)*exp(-b)` at the gates; exact multiplication
  with a true exponential qualifies (`VectorArithmetic.RealLaws`).  v03's path also needs `exp` of its
  minus-infinity proxy to be zero.  A true exponential never is, unless it is zero everywhere
  (`FactorV03.NoUnderflowIsZero`); one that underflows at the proxy qualifies for all gates between half the
  proxy and its negative (`FactorV03.UnderflowLaws`, `HeadTiles.UnderflowGatesLaw`).
- MTE1_M is one event id for every K part.  "Never set twice without a wait" holds for it, in every
  interleaving and for K=128, K=256 and v03 alike, exactly when the group has no valid chunk
  (`GroupTokens.Mte1MBinaryIff`); every valid round has an interleaving in which it carries as many posts as
  there are parts (`GroupTokens.AllPartsPosted`), and never more (`GroupTokens.PartsPosted`).
- The K=128 stages open four M_MTE1 events per task and drain them at its end.  The drain is queued on
  MTE1 and the next opening on M, so with two or more rounds M can post an event a second time before
  MTE1 has consumed the first (`GroupTokens.L0EventsBinaryIff`).  No data hazard follows:
  `GroupData.PlayKeepsData` holds in those states too.
- The host asks for sixteen groups for some two-head shapes above 400 tasks; the kernel schedules those
  cyclically (`HostTiling.RolledBack`).
- docs/optimization.md, section 3, says each vector lane handles 32 rows.  The code splits the repeated
  heads when numRepeat >= 2 and rows only when numRepeat is 1; the model follows the code.  Its section 5
  says K=128 uses an L1 ping-pong; that is v03, the released K=128 stage has one packed tile.

## Model

| member | source | states |
|---|---|---|
| Schedule.ScheduledTaskOwned | op_kernel/chunk_scaled_dot_kkt.h:166-210 | every scheduled (group, round) is a task id below the total, and the inverse maps return that group and round: scheduling is injective |
| Schedule.OwnerRunsTask | op_kernel/chunk_scaled_dot_kkt.h:127-210 | every task id is scheduled, by its owner, in an existing round, in all three modes and also with more groups than tasks: scheduling is onto |
| Schedule.RangeOwnerOwns | op_kernel/chunk_scaled_dot_kkt.h:154-162 | each position of the head-major stream lies in exactly one group's range total*g/blockDim .. total*(g+1)/blockDim |
| Schedule.CoreOwnerOwns | op_kernel/chunk_scaled_dot_kkt.h:178-193 | each chunk lies in the range of exactly one core of its KV group |
| Schedule.TaskCountsBalanced | op_kernel/chunk_scaled_dot_kkt.h:127-163 | the task counts of any two groups differ by at most one |
| Schedule.ConsecutiveRounds | op_kernel/chunk_scaled_dot_kkt.h:166-210 | consecutive rounds stay in the KV head on the next chunk; only the chunk-local stream may wrap to chunk 0 of the next head |
| Schedule.CyclicReuse | op_kernel/chunk_scaled_dot_kkt.h:874-878 | the cyclic walker's reuse test on task ids is round + 2 < task count |
| LaunchNumbers.AlignedIff | op_kernel/chunk_scaled_dot_kkt.h:76-122 | a launch runs group-aligned exactly with three or four heads a KV group, groups a multiple of hg, and hg 2 with 33..400 tasks, 16 groups with hg 16 and 81..400, or 16 groups with hg 8, four heads and 81..256 |
| LaunchNumbers.ChunkLocalIff | op_kernel/chunk_scaled_dot_kkt.h:311-316 | chunk-local exactly with three heads otherwise |
| LaunchNumbers.CyclicIff | op_kernel/chunk_scaled_dot_kkt.h:784-816 | cyclic exactly in the remaining cases |
| LaunchNumbers.AlignedTasks | op_kernel/chunk_scaled_dot_kkt.h:166-193 | group-aligned: which KV head and which run of consecutive chunks a group gets, and how many, in the launch's numbers |
| LaunchNumbers.CyclicTasks | op_kernel/chunk_scaled_dot_kkt.h:195-198 | cyclic: round r of a group is task group + r * blockDim, as long as that is below the total |
| LaunchNumbers.ChunkLocalTasks | op_kernel/chunk_scaled_dot_kkt.h:200-210 | chunk-local: round r is the position total * group / blockDim + r of the head-major stream of chunks |
| GroupFlags.StepKeepsFlags | op_kernel/chunk_scaled_dot_kkt.h:352-424 | every enabled instruction of any pipe keeps the flag counts equal to the sets minus the waits executed, and non-negative |
| GroupProgress.FrontierEnabled | op_kernel/chunk_scaled_dot_kkt.h:406-419 | the pipe furthest behind in the sequential order always has its waits satisfied |
| GroupProgress.SomePipeEnabled | op_kernel/chunk_scaled_dot_kkt.h:406-419 | no reachable unfinished state is deadlocked |
| GroupProgress.StepShrinks | op_kernel/chunk_scaled_dot_kkt.h:352-424 | every step decreases the number of instructions left by one |
| GroupProgress.EveryRunCompletes | op_kernel/chunk_scaled_dot_kkt.h:352-424 | every interleaving is bounded, extends exactly while it is incomplete, and at full length has finished every pipe: termination for any number of rounds and any pattern of invalid chunks and idle lanes |
| GroupProgress.FlagsAtExit | op_kernel/chunk_scaled_dot_kkt.h:436-441 | at exit every flag is zero but the persistent tokens, which the final drain consumes |
| GroupWindows.L1Ownership | versions/v03_direct_mmad_stable/op_kernel/chunk_scaled_dot_kkt.h:2134-2239 | writable token, readable token, MTE2 filling and MTE1 reading each L1 stage add up to one; in v03 round r uses stage r % 2 |
| GroupWindows.AccumulatorOwnership | op_kernel/chunk_scaled_dot_kkt.h:576-608 | L0C belongs to M, to FIX or to one of the two tokens between them: no MMAD overwrites it while its commit is in flight |
| GroupWindows.TileOwnership | op_kernel/chunk_scaled_dot_kkt.h:1738-1793 | the lane's UB tile is written by MTE2 only while PIPE_V waits behind its clear |
| GroupWindows.FreeMeans | op_kernel/chunk_scaled_dot_kkt.h:406-409 | the cube passes its FREE wait of round r only after both lanes released round r - 2 |
| GroupWindows.ReadyMeans | op_kernel/chunk_scaled_dot_kkt.h:1500-1501 | a lane passes its READY wait of round r only after the cube posted it behind the commit of round r |
| GroupWindows.CommitLead | op_kernel/chunk_scaled_dot_kkt.h:406-416 | the commit pipe is never more than two rounds ahead of a lane's copy pipe |
| GroupWindows.CopyWindow | op_kernel/chunk_scaled_dot_kkt.h:1764-1793 | while a copy of round r is under way its slot was committed and no later commit to it has begun |
| GroupWindows.CommitWaitsForBothLanes | op_kernel/chunk_scaled_dot_kkt.h:406-416 | a commit starts only after both lanes finished or skipped the slot's previous tile |
| GroupWindows.ReadyAtMostOne | op_kernel/chunk_scaled_dot_kkt.h:418-419 | each READY counter stays in 0..1 per lane |
| GroupWindows.FreeAtMostOne | op_kernel/chunk_scaled_dot_kkt.h:1278-1281 | each FREE counter stays in 0..1 per lane |
| GroupTokens.BinaryFlags | op_kernel/chunk_scaled_dot_kkt.h:41-56 | all cross-core flags and ownership tokens are binary in every reachable state |
| GroupTokens.PartsPosted | op_kernel/chunk_scaled_dot_kkt.h:550-551 | the shared MTE1_M event never holds more posts than there are K parts |
| GroupTokens.AllPartsPosted | op_kernel/chunk_scaled_dot_kkt.h:538-561 | and holds that many in some interleaving of every valid round, already with a single round |
| GroupTokens.Mte1MBinaryIff | op_kernel/chunk_scaled_dot_kkt.h:550-551 | for K=128, K=256 and v03, MTE1_M is never posted twice without a wait, in every interleaving, exactly when the group has no valid chunk |
| GroupTokens.L0EventsBinaryIff | op_kernel/chunk_scaled_dot_kkt.h:2693-2713 | the K=128 task-local L0 events are never posted twice without a wait, in every interleaving, exactly when the group has at most one round |
| GroupTokens.PostedTwice | op_kernel/chunk_scaled_dot_kkt.h:2632-2676 | for every configuration with two or more rounds, a reachable state in which such an event holds two posts |
| GroupData.StageHoldsRound | versions/v03_direct_mmad_stable/op_kernel/chunk_scaled_dot_kkt.h:2321-2362 | whenever MTE1 reads for round r, stage r % 2 of v03, or the one stage of the released kernels, holds round r's tile |
| PingPong.LoadsFindStage | versions/v03_direct_mmad_stable/op_kernel/chunk_scaled_dot_kkt.h:2182-2200 | v03: in every interleaving, when MTE1 loads a part for round r, stage r % 2 holds round r's tile |
| PingPong.CopyFillsStage | versions/v03_direct_mmad_stable/op_kernel/chunk_scaled_dot_kkt.h:2141-2155 | v03: a copy of round r waits for the token of stage r % 2, fills it and leaves the other stage alone |
| PingPong.CopyOverlapsLoads | versions/v03_direct_mmad_stable/op_kernel/chunk_scaled_dot_kkt.h:2200-2215 | v03: for any two valid rounds in a row there is an interleaving in which MTE1 is about to load round r while the other stage already holds round r + 1 |
| GroupData.MmadReadsRound128 | op_kernel/chunk_scaled_dot_kkt.h:2826-2883 | each K=128 MMAD reads its own round's part from L0A and L0B |
| GroupData.MmadReadsRound256 | op_kernel/chunk_scaled_dot_kkt.h:538-561 | each K=256 MMAD reads its own round's part from its physical stage |
| GroupData.CommitReadsRound | op_kernel/chunk_scaled_dot_kkt.h:411-416 | the commit of round r reads the finished product of round r |
| GroupData.CopyReadsRound | op_kernel/chunk_scaled_dot_kkt.h:1749-1757 | a lane's copy reads the committed tile of its own round |
| GroupData.MultiplyReadsRound | op_kernel/chunk_scaled_dot_kkt.h:1264-1282 | PIPE_V multiplies with the tile of its own round |
| GroupData.StepKeepsData | op_kernel/chunk_scaled_dot_kkt.h:352-424 | every step keeps the description of what L1, L0A, L0B, L0C, both slots and both UB tiles hold |
| GroupData.PlayKeepsData | op_kernel/chunk_scaled_dot_kkt.h:352-424 | hence every reachable state satisfies it |
| GroupRuns.ProgramMatchesTrace | op_kernel/chunk_scaled_dot_kkt.h:1415-1530 | the protocol's lane program waits, posts, copies and multiplies exactly where the lane's operation trace does |
| GroupRuns.EveryCopyReadsItsRound | op_kernel/chunk_scaled_dot_kkt.h:1498-1517 | in every interleaving a working lane's copy of round r finds the complete tile of round r |
| GroupRuns.EveryLoadReadsItsRound | versions/v03_direct_mmad_stable/op_kernel/chunk_scaled_dot_kkt.h:2416-2476 | in every interleaving and for every validity pattern, round r computes from its own stage (r % 2 in v03) holding round r's tile |
| GroupRuns.EveryCommitWaits | op_kernel/chunk_scaled_dot_kkt.h:406-416 | in every interleaving a commit runs only after both lanes are past the slot's previous round |
| GroupRuns.CompleteRun | op_kernel/chunk_scaled_dot_kkt.h:1415-1530 | every complete run has multiplied, per lane, the complete tiles of exactly its working rounds, in order |
| GroupRuns.FullIsGram | op_kernel/chunk_scaled_dot_kkt.h:454-608 | over the tile the 16-bit-pitch copy really leaves in L1, the delivered tile of a valid round is the zero-padded Gram tile of the task the schedule gives that round (v03: the cyclic schedule), while the row pitch fits or the chunk has one row |
| CubeGram.NzInjective | op_kernel/chunk_scaled_dot_kkt.h:459-472 | the NZ address map is injective on the 64 x K tile |
| CubeGram.NzBackward | op_kernel/chunk_scaled_dot_kkt.h:459-472 | every L1 address is the image of its row and column |
| CubeGram.PartColumns | op_kernel/chunk_scaled_dot_kkt.h:496-497 | part p is exactly the columns [64p, 64p+64) |
| CubeGram.CopyOnePackedOperand | op_kernel/chunk_scaled_dot_kkt.h:454-473 | the packed copy writes the chunk's rows and leaves the other addresses |
| CubeGram.CopyPackedKToSharedL1 | op_kernel/chunk_scaled_dot_kkt.h:475-489 | clear-on-tail plus copy leaves the zero-padded tile packed through the 16-bit pitch, whatever L1 held |
| CubeGram.CopiedRightIff | op_kernel/chunk_scaled_dot_kkt.h:454-489 | that tile is K's own rows for every input exactly when hg*K <= 65535 or the chunk has one row |
| CubeGram.RowPitchFits | op_kernel/chunk_scaled_dot_kkt.h:466-467 | row by row, the 16-bit pitch addresses every row correctly exactly under that condition |
| CubeGram.RowPitchTruncated | op_kernel/chunk_scaled_dot_kkt.h:466-467 | hg = 512, K = 128 is misaddressed |
| CubeGram.LoadKPartToL0A | op_kernel/chunk_scaled_dot_kkt.h:491-508 | L0A receives the part's rows |
| CubeGram.LoadKPartToL0B | op_kernel/chunk_scaled_dot_kkt.h:510-536 | the four fractal copies move the whole part |
| CubeGram.Mmad | op_kernel/chunk_scaled_dot_kkt.h:553-560 | one MMAD initialises or accumulates 64 products per cell |
| CubeGram.ComputePart | op_kernel/chunk_scaled_dot_kkt.h:538-561 | one part adds the product of the tile's own part with itself |
| CubeGram.ComputeGram128 | op_kernel/chunk_scaled_dot_kkt.h:2885-2915 | two parts, the first initialising |
| CubeGram.ComputeGram256 | op_kernel/chunk_scaled_dot_kkt.h:563-608 | four parts, the first initialising |
| CubeGram.PartIsColumns | op_kernel/chunk_scaled_dot_kkt.h:491-561 | a part of a packed tile contributes the chunk rows' columns of that part |
| CubeGram.GramOfPacked | op_kernel/chunk_scaled_dot_kkt.h:563-608 | accumulated over all parts, a packed tile gives the full K.K^T with zeros beyond the chunk |
| TileLoad.LoadBatch | op_kernel/chunk_scaled_dot_kkt.h:1797-1969 | for every chunk length and one or two heads, load plus suffix zeroing gives the 64-stride layout, each head read at the 32-bit stride the copy uses, with zeros in all remaining columns |
| TileLoad.LoadedRightIff | op_kernel/chunk_scaled_dot_kkt.h:1797-1969 | the loaded batch is right for every input exactly with one head or while the byte stride is below 2^32 |
| TileLoad.CopyBatch | op_kernel/chunk_scaled_dot_kkt.h:1797-1926 | the padded strided copy alone is right up to the next 32-byte boundary |
| TileLoad.ZeroSuffix | op_kernel/chunk_scaled_dot_kkt.h:1930-1969 | zeroes exactly the columns beyond that boundary |
| TileLoad.SourceStrideFits | op_kernel/chunk_scaled_dot_kkt.h:1823-1830 | the stride the copy uses never exceeds the real one and equals it exactly while its byte count is below 2^32 |
| TileLoad.SourceStrideTruncated | op_kernel/chunk_scaled_dot_kkt.h:1823-1830 | t = 2^30 + 64 with full chunks reads the second head right behind the first |
| TileLoad.BeginLoadKktSlot | op_kernel/chunk_scaled_dot_kkt.h:1722-1795 | a lane's rows of the slot, with zero columns beyond the chunk, whatever the reused UB held |
| Factor.PrepareHeadFactor | op_kernel/chunk_scaled_dot_kkt.h:2245-2356 | one head's factor, built in place through reused scratch and output prefix |
| Factor.PrepareHeadPairFactor | op_kernel/chunk_scaled_dot_kkt.h:1972-2171 | two heads sharing scratch: each output tile holds its own head's factor |
| Factor.CellValue | op_kernel/chunk_scaled_dot_kkt.h:1972-2171 | a KKT value times the factor is the formula's product under the mask, although the factors are multiplied in another order |
| FactorV03.PrepareHeadFactor | versions/v03_direct_mmad_stable/op_kernel/chunk_scaled_dot_kkt.h:1726-1821 | v03's materialised-difference factor from an arbitrary first row |
| FactorV03.MaterialisedValue | versions/v03_direct_mmad_stable/op_kernel/chunk_scaled_dot_kkt.h:1726-1821 | a KKT value times v03's factor is the formula's product under the mask |
| FactorV03.PathsAgree | versions/v03_direct_mmad_stable/op_kernel/chunk_scaled_dot_kkt.h:1726-1821 | after the KKT multiply both factors agree at a position, on chunk and on padding columns |
| FactorV03.PrepareHeadPairFactor | versions/v03_direct_mmad_stable/op_kernel/chunk_scaled_dot_kkt.h:1482-1657 | v03's two heads share negated gates, scratch and mask; from any first row each output tile holds its own head's materialised factor |
| FactorV03.BroadcastPairRows | versions/v03_direct_mmad_stable/op_kernel/chunk_scaled_dot_kkt.h:1523-1550 | one instruction for all 128 rows of a full tile, one a head otherwise: the same row blocks |
| FactorV03.BothPairTiles | versions/v03_direct_mmad_stable/op_kernel/chunk_scaled_dot_kkt.h:1482-1693 | run over the same gates, betas and KKT tile, the released two-head path and v03's leave equal tiles on all 64 columns |
| FactorV03.ProxyIsLowest | versions/v03_direct_mmad_stable/op_kernel/chunk_scaled_dot_kkt.h:30 | the proxy of masked positions is the lowest FP32 value to within half a unit in the last place |
| FactorV03.UnderflowLaws | versions/v03_direct_mmad_stable/op_kernel/chunk_scaled_dot_kkt.h:1570-1592 | exact multiplication with a true exponential that underflows at v03's proxy satisfies every law v03's path asks for, at all gates in range |
| FactorV03.NoUnderflowIsZero | versions/v03_direct_mmad_stable/op_kernel/chunk_scaled_dot_kkt.h:1570-1592 | a true exponential that is zero at the proxy is zero everywhere, so the underflow is needed |
| FactorV03.PaddingFactorsDiffer | versions/v03_direct_mmad_stable/op_kernel/chunk_scaled_dot_kkt.h:1726-1821 | on a padding column the factors themselves differ exactly when g_i < 0 and beta_i*exp(g_i) is not zero |
| Semantics.GramIsDot | README.md:25-33 | the Gram tile at offset (start*hg+kv)*K with row pitch hg*K is the formula's dot product inside the chunk, zero beyond |
| TensorForm.KAt | README.md:17-23 | element d of a token's row of a KV head lies at (token * hg + kv) * K + d of the flat K |
| TensorForm.GateIs | README.md:17-23 | element (head, token) of g and beta lies at head * t + token |
| TensorForm.DotIsRows | README.md:25-33 | the flat dot product is that of the two tokens' K rows of one KV head, on the nested tensors |
| TensorForm.GramIsRows | README.md:25-33 | so is every cell of the Gram tile inside the chunk; zero beyond it |
| TensorForm.FormulaIsDocumented | README.md:23-33 | the flat formula is the documented one on the nested tensors, query head h using KV head floor(h / R) |
| TensorForm.ExactValue | README.md:25-33 | over exact arithmetic the documented value is beta * exp(g_i - g_j) * dot under the mask |
| TensorForm.EveryInput | README.md:17-23 | every flat input of the right size lays out some tensors, so nothing is lost by speaking of tensors |
| VectorArithmetic.RealLaws | README.md:25-33 | exact multiplication with a true exponential satisfies every law the released path asks of PIPE_V |
| Semantics.RealGatesLaw | README.md:25-33 | hence what the pipeline needs at the gates |
| HeadTiles.CellIsFormula | README.md:25-33 | Gram times factorised factor is the formula on all 64 columns |
| HeadTiles.SingleTile | op_kernel/chunk_scaled_dot_kkt.h:2387-2420 | one head from raw loads to finished tile: the formula at every active position, nothing else written |
| HeadTiles.PairTile | op_kernel/chunk_scaled_dot_kkt.h:2212-2243 | two heads at once: the formula in the first tile, and in the second while the stride between the heads fits |
| HeadTiles.SingleTileV03 | versions/v03_direct_mmad_stable/op_kernel/chunk_scaled_dot_kkt.h:1726-1850 | v03's path leaves the same values, although its factor differs on padding |
| HeadTiles.PairTileV03 | versions/v03_direct_mmad_stable/op_kernel/chunk_scaled_dot_kkt.h:1695-1724 | v03's two heads likewise, each in its own output tensor |
| HeadTiles.UnderflowGatesLaw | versions/v03_direct_mmad_stable/op_kernel/chunk_scaled_dot_kkt.h:1570-1592 | all gates in range meet what v03's path asks, with a true exponential that underflows at the proxy |
| HeadTiles.V03CellIsFormula | versions/v03_direct_mmad_stable/op_kernel/chunk_scaled_dot_kkt.h:1726-1821 | Gram times materialised factor is the formula on all 64 columns |
| OutputRing.Ring.AcquireOutputSlot | op_kernel/chunk_scaled_dot_kkt.h:835-851 | acquiring waits for the slot's own copy only and leaves nothing out for copying; everything handed over is kept in order |
| OutputRing.Ring.AllocTensor | op_kernel/chunk_scaled_dot_kkt.h:1325-1327 | a buffer that is free, never one that is copied, enqueued or held |
| OutputRing.Ring.LaunchReadyOutput | op_kernel/chunk_scaled_dot_kkt.h:1059-1198 | launches the held-back batch, once, from the buffer it was queued in |
| OutputRing.Ring.HoldBack | op_kernel/chunk_scaled_dot_kkt.h:1200-1262 | holds a batch back without overwriting an earlier one |
| OutputRing.Ring.RunBatch | op_kernel/chunk_scaled_dot_kkt.h:835-1262 | appends exactly one batch and holds it back, with MTE3 making any progress in between |
| OutputRing.Ring.Drain | op_kernel/chunk_scaled_dot_kkt.h:814-864 | launches the last batch and ends with everything stored in order, both buffers free and no event pending |
| OutputRing.Ring.StoreAll | op_kernel/chunk_scaled_dot_kkt.h:814-1262 | any sequence of batches is stored completely, once each, in FIFO order |
| OutputRing.PipeStep | op_kernel/chunk_scaled_dot_kkt.h:1188-1193 | completion events follow their copies in the MTE3 queue and match the busy mask |
| OutputRing.HandedHold | op_kernel/chunk_scaled_dot_kkt.h:1200-1262 | filling a buffer no pending copy reads changes nothing that will be stored |
| OutputWindow.Window.RetireSingleOutput | versions/v03_direct_mmad_stable/op_kernel/chunk_scaled_dot_kkt.h:692-703 | v03's window takes a single batch, in order, and is retired with every fourth batch |
| OutputWindow.Window.RetirePairOutput | versions/v03_direct_mmad_stable/op_kernel/chunk_scaled_dot_kkt.h:705-718 | v03's window takes a pair batch, in order, likewise |
| OutputWindow.Window.FlushPendingOutputs | versions/v03_direct_mmad_stable/op_kernel/chunk_scaled_dot_kkt.h:638-666 | one event retires the whole window; the pair mask frees exactly the buffers allocated |
| OutputWindow.Window.Drain | versions/v03_direct_mmad_stable/op_kernel/chunk_scaled_dot_kkt.h:608-610 | everything stored in order, all buffers free |
| OutputWindow.Window.StoreAll | versions/v03_direct_mmad_stable/op_kernel/chunk_scaled_dot_kkt.h:608-718 | any mixed sequence of single and pair batches is stored completely, once each, in order, and every buffer is free again |
| CopyOut.LaunchReadyOutput | op_kernel/chunk_scaled_dot_kkt.h:1059-1198 | every record kind, on every path, stores exactly the per-head tiles and nothing else |
| CopyOut.StrideFits | op_kernel/chunk_scaled_dot_kkt.h:1096-1107 | one strided descriptor is used exactly while its 16-bit stride is exact: t <= 8255 for pairs, 8319 for chunk pairs |
| CopyOut.QueuedFit | op_kernel/chunk_scaled_dot_kkt.h:1200-1262 | every queued record lies inside the output |
| CopyOut.ChunkPairIsTiles | op_kernel/chunk_scaled_dot_kkt.h:1238-1262 | a chunk-pair record writes what its two or four tiles would, one by one |
| CopyOut.PairIsSingles | op_kernel/chunk_scaled_dot_kkt.h:1219-1236 | a pair record writes what two single records would |
| VectorLane.BatchHeadsNext | op_kernel/chunk_scaled_dot_kkt.h:1532-1720 | each batch multiplies the next one or two heads of the task |
| VectorLane.TaskBatchAt | op_kernel/chunk_scaled_dot_kkt.h:1532-1720 | a task's batches carry its heads two by two, the last alone when their number is odd, under the matching copy record |
| LaneOps.RoundInOrder | op_kernel/chunk_scaled_dot_kkt.h:1480-1530 | a working round waits for the slot, copies the tile, gives the slot back if a round still needs it, then multiplies the heads in order |
| VectorLane.TaskTiles | op_kernel/chunk_scaled_dot_kkt.h:1532-1720 | a task's output batches hold exactly the heads it multiplies, in order |
| VectorLane.AccountTask | op_kernel/chunk_scaled_dot_kkt.h:1415-1530 | one task hands over exactly the tiles it multiplies, under fitting copy records |
| VectorLane.FusedTilesMatch | op_kernel/chunk_scaled_dot_kkt.h:1300-1413 | the fused supertile holds exactly the tiles of the two ordinary tasks, for the one-head and the two-head lane |
| VectorLane.FusedAccount | op_kernel/chunk_scaled_dot_kkt.h:1300-1413 | its copy record fits them |
| VectorLane.FusedWorks | op_kernel/chunk_scaled_dot_kkt.h:1284-1317 | the fused step's heads, chunks and rows are those of the two ordinary tasks |
| LaneOps.CyclicWalk | op_kernel/chunk_scaled_dot_kkt.h:866-887 | the cyclic walker's ids, bound and reuse test are the schedule's |
| VectorLane.AlignedWalk | op_kernel/chunk_scaled_dot_kkt.h:929-994 | the group-aligned walker's chunk walk is the schedule's ids |
| VectorLane.StreamWalk | op_kernel/chunk_scaled_dot_kkt.h:996-1057 | the wrapped (head, chunk) pair is the id the cube core finds by division |
| VectorLane.PathIsStepwise | op_kernel/chunk_scaled_dot_kkt.h:1052-1055 | the incremental wrap follows quotient and remainder of the stream position |
| VectorLane.StreamedRun | op_kernel/chunk_scaled_dot_kkt.h:996-1057 | every position of the group's range is the task the schedule gives that round |
| VectorLane.AdjacentChunks | op_kernel/chunk_scaled_dot_kkt.h:1284-1299 | the test on the offsets finds exactly the rounds of two full chunks, one right behind the other, of one KV head |
| VectorLane.WholeAccounted | op_kernel/chunk_scaled_dot_kkt.h:889-1057 | fused or not, a whole walk hands over exactly the tiles it multiplies |
| VectorLane.VectorStage.NextRounds | op_kernel/chunk_scaled_dot_kkt.h:951-984 | fuses exactly when the next round is the head's next chunk and both chunks are full |
| VectorLane.NextTwoRounds | op_kernel/chunk_scaled_dot_kkt.h:996-1057 | two adjacent full chunks of one head are the next two rounds |
| VectorLane.VectorStage.ProcessHeadRange | op_kernel/chunk_scaled_dot_kkt.h:1532-1720 | all heads in batches; every DeQue yields the batch being processed and at most two gate buffers are out |
| VectorLane.VectorStage.ProcessPipelineTask | op_kernel/chunk_scaled_dot_kkt.h:1415-1530 | exactly the round's operations, for working, idle and invalid tasks |
| VectorLane.VectorStage.ProcessAdjacentFullChunk | op_kernel/chunk_scaled_dot_kkt.h:1300-1413 | the fused step performs the operations of the two ordinary tasks, same order, slots and reuse decisions |
| VectorLane.VectorStage.ProcessCyclic | op_kernel/chunk_scaled_dot_kkt.h:866-887 | walks exactly the cube core's rounds |
| VectorLane.VectorStage.ProcessGroupAligned | op_kernel/chunk_scaled_dot_kkt.h:889-927 | walks exactly the cube core's rounds |
| VectorLane.VectorStage.ProcessGroupAlignedR3 | op_kernel/chunk_scaled_dot_kkt.h:929-994 | walks exactly the cube core's rounds, fusing where it can |
| VectorLane.VectorStage.ProcessChunkLocal | op_kernel/chunk_scaled_dot_kkt.h:996-1057 | walks exactly the cube core's rounds, fusing and wrapping |
| VectorLane.VectorStage.Process | op_kernel/chunk_scaled_dot_kkt.h:773-816 | in any mode: the scheduled rounds in order, and exactly the scheduled batches handed to the ring: with three heads a KV group every two adjacent full chunks as one supertile, every other round batch by batch |
| GatePrefetchV03.PrefetchingLane.TryPrefetchTaskFirstBatch | versions/v03_direct_mmad_stable/op_kernel/chunk_scaled_dot_kkt.h:1184-1230 | true exactly when the next task exists and takes the full-64 path; then exactly its first batch is in flight |
| GatePrefetchV03.PrefetchingLane.ProcessFull64HeadRange | versions/v03_direct_mmad_stable/op_kernel/chunk_scaled_dot_kkt.h:1084-1180 | every DeQue finds its pair; a prefetched batch is what the next task would request |
| GatePrefetchV03.PrefetchingLane.ProcessHeadRange | versions/v03_direct_mmad_stable/op_kernel/chunk_scaled_dot_kkt.h:884-1082 | both paths, same operations |
| GatePrefetchV03.PrefetchingLane.ProcessPipelineTask | versions/v03_direct_mmad_stable/op_kernel/chunk_scaled_dot_kkt.h:740-880 | prefetched or not, the same operations; the next task's first batch is requested exactly when both tasks take the full-64 path and this one has at least two pairs |
| GatePrefetchV03.PrefetchingLane.Process | versions/v03_direct_mmad_stable/op_kernel/chunk_scaled_dot_kkt.h:576-610 | the whole cyclic run, with no load left in flight; where the released kernel walks cyclically too, exactly the released lane's visible operations |
| HostTiling.ValidateAndReadShape | op_host/chunk_scaled_dot_kkt_tiling.cpp:39-142 | accepts exactly the inputs described by one valid shape and reads that shape |
| HostTiling.AcceptedIff | op_host/chunk_scaled_dot_kkt_tiling.cpp:39-142 | accepted exactly for k [1, T, Hg, K] with K 128 or 256, beta and g [1, H, T] with H a multiple of Hg, all positive, and at least two chunk boundaries |
| HostTiling.SelectBlockDim | op_host/chunk_scaled_dot_kkt_tiling.cpp:190-250 | 8 groups up to 32 tasks, 16 for the sixteen-group shapes, one a task otherwise, limited to the cores there are |
| HostTiling.SixteenGroupsIff | op_host/chunk_scaled_dot_kkt_tiling.cpp:204-236 | the sixteen-group shapes in numbers: K 128 with hg 16, 3 or 4 heads and 81..400 tasks, hg 8, 4 heads and 81..256, or hg 2, 4 heads, 401..512 and a chunk not full; K 256 with hg 2, 4 heads, 81..400 and all chunks full |
| HostTiling.ChunkScaledDotKktTiling | op_host/chunk_scaled_dot_kkt_tiling.cpp:147-302 | every accepted input gives a launchable tiling with the policy's group count and a workspace of two 64 x 64 FP32 tiles a group |
| HostTiling.TilingLaunches | op_host/chunk_scaled_dot_kkt_tiling.cpp:190-256 | work exists, offsets have the right length and the chosen schedule's divisibility holds |
| HostTiling.PolicyMeetsKernel | op_host/chunk_scaled_dot_kkt_tiling.cpp:199-250 | with sixteen cores or more, a sixteen-group shape runs group-aligned exactly when its task count is at most 400 |
| HostTiling.PolicyRunsAligned | op_host/chunk_scaled_dot_kkt_tiling.cpp:213-218 | conversely, with sixteen cores or more every K 128 shape with hg 16, 3 or 4 heads and 81..400 tasks, or hg 8, 4 heads and 81..256, gets sixteen groups and runs group-aligned |
| HostTiling.RolledBack | op_host/chunk_scaled_dot_kkt_tiling.cpp:219-250 | the shapes the kernel rolls back are exactly the two-head ones above 400 tasks |
| HostTiling.SlotsPartition | op_host/chunk_scaled_dot_kkt_tiling.cpp:288-299 | the slots partition the workspace: each element in one slot, each formed slot inside |
| Golden.BuildChunkOffsets | examples/test_aclnn_chunk_scaled_dot_kkt.cpp:245-258 | for any sequence lengths, the starts of all chunks and the last length |
| Golden.ChunksCut | examples/test_aclnn_chunk_scaled_dot_kkt.cpp:245-258 | for nondecreasing lengths every gap of the offsets is exactly 64 tokens, or 1 to 64 ending at a sequence boundary, and every boundary is among them |
| Golden.StartsEvery64 | examples/test_aclnn_chunk_scaled_dot_kkt.cpp:251-255 | chunk n of a sequence starts 64 * n tokens into it, as long as that is inside the sequence |
| Golden.ValidateCaseIff | examples/test_aclnn_chunk_scaled_dot_kkt.cpp:260-278 | accepted exactly when the dimensions are, the offsets run from 0 to t and the kernel's own chunk test accepts every chunk |
| Golden.ChunkLimits | examples/test_aclnn_chunk_scaled_dot_kkt.cpp:269-275 | a chunk passes the example's test, the kernel's test, and 0 <= start, end <= t, 1..64 tokens, all alike |
| Golden.CutIsValid | examples/test_aclnn_chunk_scaled_dot_kkt.cpp:260-278 | such offsets form an accepted case |
| Golden.FindChunkIndex | examples/test_aclnn_chunk_scaled_dot_kkt.cpp:362-371 | the chunk holding the token, or the offset count when there is none |
| Golden.ChunkUnique | examples/test_aclnn_chunk_scaled_dot_kkt.cpp:362-371 | no two chunks share a token |
| Golden.ComputeExpectedAt | examples/test_aclnn_chunk_scaled_dot_kkt.cpp:373-411 | on whatever tensors the flat inputs lay out, the expected value is the documented value of the token's chunk, zero for a token in no chunk |
| Golden.AcceptedCovers | examples/test_aclnn_chunk_scaled_dot_kkt.cpp:260-278 | in an accepted case every token lies in a chunk, and every such chunk is within the limits |
| Coverage.WorkCovers | op_kernel/chunk_scaled_dot_kkt.h:1446-1478 | a lane's work covers exactly its share of the task's heads and rows |
| Coverage.LaneShare | op_kernel/chunk_scaled_dot_kkt.h:1435-1478 | a lane's share in numbers: valid with 1..64 tokens inside [0, t); half of the heads each for all rows with two or more heads, rows 0..31 and 32.. with one |
| Coverage.WrittenOnce | op_kernel/chunk_scaled_dot_kkt.h:1415-1530 | every (head, row) of a valid chunk is written by exactly one group, lane and round; rows of invalid chunks by none |
| Coverage.NotWritten | op_kernel/chunk_scaled_dot_kkt.h:1435-1439 | rows outside every valid chunk are written by nobody |
| OutputBatches.SingleBatch | op_kernel/chunk_scaled_dot_kkt.h:2358-2385 | a single-head batch is a copy whose buffer holds the formula |
| OutputBatches.PairBatch | op_kernel/chunk_scaled_dot_kkt.h:2173-2210 | a two-head batch: the first tile holds the formula, and the copy is good while the head stride fits |
| OutputBatches.ChunkPairBatch | op_kernel/chunk_scaled_dot_kkt.h:1300-1413 | the one-head supertile likewise, through one KKT buffer |
| OutputBatches.HeavyChunkPairBatch | op_kernel/chunk_scaled_dot_kkt.h:1300-1413 | the two-head supertile: the first head's two tiles hold the formula, and the copy is good while the head stride fits |
| Launches.RoundTileFits | op_kernel/chunk_scaled_dot_kkt.h:1425-1478 | every tile of a round belongs to the KV head and chunk of the round's task |
| Launches.ReadFits | op_kernel/chunk_scaled_dot_kkt.h:1264-1282 | in a finished run, what a lane reads in a round is the Gram tile each of the round's output tiles needs |
| Launches.ReadIsGram | op_kernel/chunk_scaled_dot_kkt.h:1749-1757 | for every variant, v03 included, what a lane reads in a working round of a finished run is the Gram tile of the round's task |
| Launches.InterleavedIsSequential | op_kernel/chunk_scaled_dot_kkt.h:563-608 | and equals what the cube core computes when it runs its rounds one after the other |
| Launches.RunOn | op_kernel/chunk_scaled_dot_kkt.h:352-424 | every partial interleaving extends to a finished run, so finished runs exist |
| GroupMachine.MultiplyHolds | op_kernel/chunk_scaled_dot_kkt.h:553-560 | on real L0 contents one MMAD adds the value of its product to every cell |
| GroupMachine.Step | op_kernel/chunk_scaled_dot_kkt.h:352-424 | one instruction of any pipe on the real buffers keeps them at what the protocol state describes |
| GroupMachine.RunProtocol | op_kernel/chunk_scaled_dot_kkt.h:352-424 | in every finished interleaving, whatever the buffers held before, each lane has taken for every tile it multiplied that tile's values |
| EndToEnd.LaneTiles | op_kernel/chunk_scaled_dot_kkt.h:1532-1720 | the tiles of a lane's run are those of its rounds |
| EndToEnd.LaneTilesOnce | op_kernel/chunk_scaled_dot_kkt.h:1532-1720 | a lane produces each tile of its rounds exactly once and no other |
| EndToEnd.StoredCell | op_kernel/chunk_scaled_dot_kkt.h:1059-1198 | one copy puts the formula at the positions its tiles cover and leaves the rest |
| EndToEnd.FinalCell | op_kernel/chunk_scaled_dot_kkt.h:1059-1198 | copies whose covering tiles agree leave that value in any order |
| EndToEnd.Reordered | op_kernel/chunk_scaled_dot_kkt.h:1059-1198 | the copies of a launch remain complete in any other order |
| EndToEnd.KernelOutput | README.md:25-33 | copies that carry exactly the kernel's tiles, each filled with the formula, leave it at every position of a valid chunk and the old contents elsewhere (a step of the kernel theorem) |
| EndToEnd.Untouched | op_kernel/chunk_scaled_dot_kkt.h:1435-1439 | rows of no valid chunk keep their contents, also for offsets that are not monotone |
| KernelRun.CubeTiles | op_kernel/chunk_scaled_dot_kkt.h:352-424 | a cube core on its own: pack, load and accumulate round by round over reused buffers |
| KernelRun.FillBatch | op_kernel/chunk_scaled_dot_kkt.h:1264-1413 | every kind of handed batch is filled with the formula of exactly its tiles, under its own copy record |
| KernelRun.RunLane | op_kernel/chunk_scaled_dot_kkt.h:773-816 | one lane: it walks its schedule, fused steps included, fills every batch from the tiles it took, and its ring stores them; its copies carry exactly its tiles, each with the formula |
| KernelRun.RunGroup | op_kernel/chunk_scaled_dot_kkt.h:352-816 | one group through any finished interleaving: its copies carry exactly its lanes' tiles, each with the formula |
| KernelRun.RunGroups | op_kernel/chunk_scaled_dot_kkt.h:352-816 | all groups: the copies of a launch are complete |
| KernelRun.PerformAll | op_kernel/chunk_scaled_dot_kkt.h:1059-1198 | performing the copies on the output memory, in an arbitrary order |
| KernelRun.RunKernel | README.md:25-33 | the released kernel from input tensors to output memory, through any finished interleaving of every group and any order of the copies: every row of a valid chunk holds the formula in all 64 columns, and rows of no valid chunk keep their contents, the latter also for offsets that are not monotone |
| KernelRun.RunAccepted | examples/test_aclnn_chunk_scaled_dot_kkt.cpp:373-411 | on every case the example program accepts, within the stated pitch and stride limits, every position holds the documented value it expects |
| KernelRun.RunsExist | op_kernel/chunk_scaled_dot_kkt.h:352-424 | every launch has a finished interleaving in every group |
| Operator.RoundTileOnTensors | op_kernel/chunk_scaled_dot_kkt.h:376-396 | row n, column d of a round's L1 tile is element d of K's row of the task's KV head (task % hg) for token n of the task's chunk (task / hg), zero beyond the chunk, within the pitch limit |
| Operator.HostLaunch | op_host/chunk_scaled_dot_kkt_tiling.cpp:147-302 | the host launches tensors of any valid shape on any number of cores |
| Operator.RunOperator | README.md:17-35 | the whole operator on nested tensors, host and kernel: every row of a valid chunk holds the documented values in all 64 columns at ((head * t) + row) * 64 + j, and rows of no valid chunk keep their contents |

## Left out

- IEEE rounding, BF16 conversion and overflow of the exponentials: values are reals and BF16 widening is exact.
- Instruction internals beyond what the call parameters fix: the physical L0A and L0C layouts, Fixpipe conversion, UB allocation. L0A is given row by row.
- Overflow of int64 and int32 arithmetic: task id products, the int32 round counter and chunk length subtraction are unbounded integers.
- Versions v01, v02 and v04 of the kernel: a different formula, or earlier forms of the same code.
- Host plumbing: registration, tiling keys, schedule mode, system workspace, error logging.
- The example program's timing, device memory, input filling and tolerance checks.
- PIPE_V barriers and the MTE2-to-V dependency of the gate queues inside a lane: the array pipeline runs its instructions in program order.
- Clearing the UB tile before a copy is a step of every working round in the protocol machine, while the code clears only for tail chunks; the array model follows the code.
- The KKT tile is loaded once per task and shared by its batches in the code; the array pipeline methods load it for each batch.
- VectorLane.VectorStage.AcquireOutput: records only that one output buffer is held by the running batch; which buffer, and when its previous copy is waited for, is the ring's own model in OutputRing.
- KernelRun.RunKernel: groups run one after the other, since they share no flag and no buffer and the order of all copies is arbitrary; v03's lanes and output window are proved separately and not composed into it.
- KernelRun.RunLane: a lane fills its batches from the tiles it took in the group's run; the order of factor building and tile copy inside a round is the lane trace's, in VectorLane.
- GroupMachine.RunProtocol: a lane's UB tile holds the whole workspace slot; which rows are copied and how columns are padded is TileLoad.BeginLoadKktSlot, applied when a batch is filled.
