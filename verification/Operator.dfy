/** The whole operator on nested tensors: the host picks the launch, the kernel runs it, and the output holds
    the documented values.  Positions, limits and chunk conditions are written out in numbers. */
module Operator {
  import opened VectorArithmetic
  import opened TensorForm
  import opened Schedule
  import opened LaneOps
  import opened Semantics
  import opened GroupProgram
  import opened GroupRuns
  import opened Launches
  import opened KernelRun
  import Golden
  import HostTiling
  import CubeGram
  import Widths

  /** The L1 tile of a round, at row n and column d: K's element d of the task's KV head for token n of its
      chunk, zeros beyond the chunk, while the row pitch fits sixteen bits or the chunk has one row. */
  lemma RoundTileOnTensors(variant: Variant, x: Tensors, flat: Inputs, tiling: Tiling, offsets: seq<int>, group: int, r: int,
                           n: int, d: int)
    requires Flattens(x, flat) && Launch(tiling, offsets) && Matches(flat, tiling) && 0 <= group < tiling.blockDim
    requires 0 <= r < Rounds(variant, tiling, offsets, group) && GroupWork(variant, tiling, offsets, group, 0, r).valid
    requires 0 <= n < 64 && 0 <= d < x.kDim
    requires
      var c := GroupTask(variant, tiling, offsets, group, r) / tiling.hg;
      0 <= c && c + 1 < |offsets| && (x.hg * x.kDim <= 65535 || offsets[c + 1] - offsets[c] == 1)
    ensures
      var task := GroupTask(variant, tiling, offsets, group, r);
      var c, kv := task / x.hg, task % x.hg;
      var l1 := RoundL1(variant, flat, tiling, offsets, group, r);
      && 0 <= kv < x.hg && 0 <= offsets[c] && offsets[c + 1] <= x.t
      && 0 <= d / 16 * 1024 + n * 16 + d % 16 < |l1|
      && l1[d / 16 * 1024 + n * 16 + d % 16] == (if n < offsets[c + 1] - offsets[c] then x.k[offsets[c] + n][kv][d] else 0.0)
      && (n < offsets[c + 1] - offsets[c] ==>
            && 0 <= ((offsets[c] + n) * x.hg + kv) * x.kDim + d < |flat.k|
            && flat.k[((offsets[c] + n) * x.hg + kv) * x.kDim + d] == x.k[offsets[c] + n][kv][d])
  {
    var w := GroupWork(variant, tiling, offsets, group, 0, r);
    var kv := GroupTask(variant, tiling, offsets, group, r) % tiling.hg;
    RoundTask(variant, tiling, offsets, group, 0, r);
    RoundReadable(variant, flat, tiling, offsets, group, r);
    TileOnTensors(x, flat, w.start, w.chunkLen, kv, n, d);
  }

  lemma TileOnTensors(x: Tensors, flat: Inputs, start: int, chunkLen: int, kv: int, n: int, d: int)
    requires Flattens(x, flat) && 0 <= start && 1 <= chunkLen <= 64 && start + chunkLen <= x.t && 0 <= kv < x.hg
    requires 0 <= n < 64 && 0 <= d < x.kDim && CubeGram.PitchFits(x.hg * x.kDim, chunkLen)
    requires CubeGram.Readable(flat.k, KOffset(start, kv, x.hg, x.kDim), Widths.Uint16(x.hg * x.kDim), chunkLen, x.kDim)
    ensures
      var l1 := CubeGram.PackedTile(flat.k, KOffset(start, kv, x.hg, x.kDim), Widths.Uint16(x.hg * x.kDim), chunkLen, x.kDim);
      && 0 <= d / 16 * 1024 + n * 16 + d % 16 < |l1|
      && l1[d / 16 * 1024 + n * 16 + d % 16] == (if n < chunkLen then x.k[start + n][kv][d] else 0.0)
    ensures n < chunkLen ==>
      && 0 <= ((start + n) * x.hg + kv) * x.kDim + d < |flat.k|
      && flat.k[((start + n) * x.hg + kv) * x.kDim + d] == x.k[start + n][kv][d]
  {
    var kOffset, pitch := KOffset(start, kv, x.hg, x.kDim), x.hg * x.kDim;
    FlatShaped(x, flat);
    TileReadable(flat, start, chunkLen, kv);
    MulMono(0, x.hg, x.kDim);
    CubeGram.FittingPitch(flat.k, kOffset, pitch, chunkLen, x.kDim);
    CubeGram.PackedRowColumn(CubeGram.PackedTile(flat.k, kOffset, Widths.Uint16(pitch), chunkLen, x.kDim), flat.k, kOffset, pitch,
                             chunkLen, x.kDim, n, d);
    if n < chunkLen {
      RowStartIsKRow(start, n, kv, x.hg, x.kDim);
      KAt(x, flat, start + n, kv, d);
    }
  }

  // ---------------------------------------------------------------- the output tensor

  /** Element (head, row, j) of the flat output [H, T, 64]. */
  ghost function Element(x: Tensors, out: seq<real>, head: int, row: int, j: int): real
    requires x.Valid() && |out| == x.hg * x.numRepeat * x.t * 64
    requires 0 <= head < x.hg * x.numRepeat && 0 <= row < x.t && 0 <= j < 64
  {
    ElementInside(x, head, row, j);
    out[(head * x.t + row) * 64 + j]
  }

  lemma ElementInside(x: Tensors, head: int, row: int, j: int)
    requires x.Valid() && 0 <= head < x.hg * x.numRepeat && 0 <= row < x.t && 0 <= j < 64
    ensures 0 <= (head * x.t + row) * 64 + j < x.hg * x.numRepeat * x.t * 64
  {
    GateInside(head, row, x.t, x.hg * x.numRepeat);
  }

  /** Every row of a chunk of 1 to 64 tokens inside [0, t) holds the documented values in all 64 columns, and
      every row of another chunk what it held before. */
  ghost predicate HoldsDocumented(x: Tensors, A: Arithmetic, offsets: seq<int>, out: seq<real>, before: seq<real>)
    requires x.Valid() && |out| == |before| == x.hg * x.numRepeat * x.t * 64
  {
    forall head, row, j, c | 0 <= head < x.hg * x.numRepeat && 0 <= row < x.t && 0 <= j < 64
                             && 0 <= c && c + 1 < |offsets| && offsets[c] <= row < offsets[c + 1] ::
      Element(x, out, head, row, j)
      == if 0 <= offsets[c] && offsets[c + 1] <= x.t && offsets[c + 1] - offsets[c] <= 64
         then Documented(x, A, offsets[c], offsets[c + 1], head, row, j)
         else Element(x, before, head, row, j)
  }

  lemma WrittenIsDocumented(x: Tensors, A: Arithmetic, offsets: seq<int>, out: seq<real>, before: seq<real>)
    requires x.Valid() && |out| == |before| == x.hg * x.numRepeat * x.t * 64
    requires Semantics.Shaped(Flat(x, A)) && OutputSize(Flat(x, A)) == |out| && Written(Flat(x, A), offsets, out, before)
    ensures HoldsDocumented(x, A, offsets, out, before)
  {
    var flat := Flat(x, A);
    forall head, row, j, c | 0 <= head < x.hg * x.numRepeat && 0 <= row < x.t && 0 <= j < 64
                             && 0 <= c && c + 1 < |offsets| && offsets[c] <= row < offsets[c + 1]
      ensures Element(x, out, head, row, j)
           == if 0 <= offsets[c] && offsets[c + 1] <= x.t && offsets[c + 1] - offsets[c] <= 64
              then Documented(x, A, offsets[c], offsets[c + 1], head, row, j)
              else Element(x, before, head, row, j)
    {
      assert Golden.InChunk(offsets, c, row);
      assert Element(x, out, head, row, j) == At(flat, out, head, row, j);
      assert Element(x, before, head, row, j) == At(flat, before, head, row, j);
      if 0 <= offsets[c] && offsets[c + 1] <= x.t && offsets[c + 1] - offsets[c] <= 64 {
        FormulaIsDocumented(x, flat, head, offsets[c], offsets[c + 1], row - offsets[c], j);
      }
    }
  }

  // ---------------------------------------------------------------- the operator

  /** What the operator's hardware fields can carry: a row pitch of sixteen bits unless a chunk has one row,
      and with three or more heads a KV group a head stride of 32 bits in bytes. */
  predicate WithinLimits(x: Tensors, offsets: seq<int>) {
    forall c | 0 <= c && c + 1 < |offsets| && 0 <= offsets[c] && offsets[c + 1] <= x.t
               && 1 <= offsets[c + 1] - offsets[c] <= 64 ::
      && (x.hg * x.kDim <= 65535 || offsets[c + 1] - offsets[c] == 1)
      && (x.numRepeat >= 3 ==> (x.t - (offsets[c + 1] - offsets[c])) * 4 < 0x1_0000_0000)
  }

  /** The law of the exponential at the gates. */
  ghost predicate ExponentialAtGates(x: Tensors, A: Arithmetic) {
    && Laws(A)
    && forall h, i, l, j | 0 <= h < |x.g| && 0 <= i < |x.g[h]| && 0 <= l < |x.g| && 0 <= j < |x.g[l]| ::
         DifferenceLaw(A, x.g[h][i], x.g[l][j])
  }

  lemma {:induction false} InConcat<T>(rows: seq<seq<T>>, v: T)
    requires v in Concat(rows)
    ensures exists h, i :: 0 <= h < |rows| && 0 <= i < |rows[h]| && rows[h][i] == v
  {
    if v in rows[0] {
      var i :| 0 <= i < |rows[0]| && rows[0][i] == v;
    } else {
      assert Concat(rows) == rows[0] + Concat(rows[1..]);
      InConcat(rows[1..], v);
      var h, i :| 0 <= h < |rows[1..]| && 0 <= i < |rows[1..][h]| && rows[1..][h][i] == v;
      assert rows[h + 1][i] == v;
    }
  }

  lemma FlatGatesLaw(x: Tensors, A: Arithmetic)
    requires ExponentialAtGates(x, A)
    ensures GatesLaw(Flat(x, A))
  {
    forall a, b | a in Concat(x.g) && b in Concat(x.g)
      ensures DifferenceLaw(A, a, b)
    {
      InConcat(x.g, a);
      InConcat(x.g, b);
      var h, i :| 0 <= h < |x.g| && 0 <= i < |x.g[h]| && x.g[h][i] == a;
      var l, j :| 0 <= l < |x.g| && 0 <= j < |x.g[l]| && x.g[l][j] == b;
      assert DifferenceLaw(A, x.g[h][i], x.g[l][j]);
    }
  }

  lemma LimitsFit(x: Tensors, A: Arithmetic, tiling: Tiling, offsets: seq<int>)
    requires WithinLimits(x, offsets) && tiling.t == x.t && tiling.numRepeat == x.numRepeat
    ensures PitchesFit(Flat(x, A), tiling, offsets) && StridesFit(Flat(x, A), tiling, offsets)
  {}

  lemma Cancel(a: int, b: int, c: int)
    requires a * c == b * c && c >= 1
    ensures a == b
  {
    DivUnique(a, c, 0);
    DivUnique(b, c, 0);
  }

  // The kernel instance the host's tiling key selects.
  function KernelFor(kDim: int): Variant { if kDim == 128 then K128 else K256 }

  // The host's launch of these tensors.
  method HostLaunch(x: Tensors, offsets: seq<int>, aicNum: int) returns (tiling: Tiling)
    requires x.Valid() && aicNum >= 1 && |offsets| >= 2
    ensures Launch(tiling, offsets) && tiling.blockDim <= aicNum
    ensures tiling.t == x.t && tiling.hg == x.hg && tiling.numRepeat == x.numRepeat
  {
    var h := x.hg * x.numRepeat;
    var k, gates, offsetDims := [1, x.t, x.hg, x.kDim], [1, h, x.t], [|offsets|];
    DivUnique(x.numRepeat, x.hg, 0);
    MulMono(1, x.hg, x.numRepeat);
    HostTiling.AcceptedIff(k, gates, gates, offsetDims);
    var r, workspace := HostTiling.ChunkScaledDotKktTiling(aicNum, k, gates, gates, offsetDims, offsets);
    tiling := r.value;
    Cancel(tiling.numRepeat, x.numRepeat, x.hg);
  }

  /** The operator, end to end: on tensors of any accepted shape, any number of cores, any finished
      interleaving of every group of the launch the host picks and any order of the output copies.  With
      nondecreasing offsets the output holds the documented values; with any offsets rows of no valid chunk
      keep their contents. */
  method RunOperator(x: Tensors, A: Arithmetic, offsets: seq<int>, aicNum: int, runs: Tiling -> seq<seq<Pipe>>, out: array<real>)
    requires x.Valid() && aicNum >= 1 && |offsets| >= 2
    requires ExponentialAtGates(x, A) && WithinLimits(x, offsets)
    requires forall tiling | Launch(tiling, offsets) && tiling.t == x.t && tiling.hg == x.hg && tiling.numRepeat == x.numRepeat ::
      AllRan(KernelFor(x.kDim), tiling, offsets, runs(tiling))
    requires out.Length == x.hg * x.numRepeat * x.t * 64
    modifies out
    ensures (forall c | 0 <= c && c + 1 < |offsets| :: offsets[c] <= offsets[c + 1]) ==>
      HoldsDocumented(x, A, offsets, out[..], old(out[..]))
    ensures forall head, row, j | 0 <= head < x.hg * x.numRepeat && 0 <= row < x.t && 0 <= j < 64
      && (forall c | 0 <= c && c + 1 < |offsets| && offsets[c] <= row < offsets[c + 1] ::
            !(0 <= offsets[c] && offsets[c + 1] <= x.t && offsets[c + 1] - offsets[c] <= 64)) ::
      Element(x, out[..], head, row, j) == Element(x, old(out[..]), head, row, j)
  {
    var tiling := HostLaunch(x, offsets, aicNum);
    FlatShaped(x, Flat(x, A));
    FlatGatesLaw(x, A);
    LimitsFit(x, A, tiling, offsets);
    RunKernel(KernelFor(x.kDim), Flat(x, A), tiling, offsets, runs(tiling), out);
    if forall c | 0 <= c && c + 1 < |offsets| :: offsets[c] <= offsets[c + 1] {
      assert Golden.NonDecreasing(offsets);
      WrittenIsDocumented(x, A, offsets, out[..], old(out[..]));
    }
    KeptIsUntouched(x, A, offsets, out[..], old(out[..]));
  }

  lemma KeptIsUntouched(x: Tensors, A: Arithmetic, offsets: seq<int>, out: seq<real>, before: seq<real>)
    requires x.Valid() && |out| == |before| == x.hg * x.numRepeat * x.t * 64
    requires Semantics.Shaped(Flat(x, A)) && OutputSize(Flat(x, A)) == |out| && Kept(Flat(x, A), offsets, out, before)
    ensures forall head, row, j | 0 <= head < x.hg * x.numRepeat && 0 <= row < x.t && 0 <= j < 64
      && (forall c | 0 <= c && c + 1 < |offsets| && offsets[c] <= row < offsets[c + 1] ::
            !(0 <= offsets[c] && offsets[c + 1] <= x.t && offsets[c + 1] - offsets[c] <= 64)) ::
      Element(x, out, head, row, j) == Element(x, before, head, row, j)
  {
    var flat := Flat(x, A);
    forall head, row, j | 0 <= head < x.hg * x.numRepeat && 0 <= row < x.t && 0 <= j < 64
      && (forall c | 0 <= c && c + 1 < |offsets| && offsets[c] <= row < offsets[c + 1] ::
            !(0 <= offsets[c] && offsets[c + 1] <= x.t && offsets[c + 1] - offsets[c] <= 64))
      ensures Element(x, out, head, row, j) == Element(x, before, head, row, j)
    {
      assert forall c | Golden.InChunk(offsets, c, row) :: !ValidChunk(offsets[c], offsets[c + 1], x.t);
      assert At(flat, out, head, row, j) == At(flat, before, head, row, j);
    }
  }
}
