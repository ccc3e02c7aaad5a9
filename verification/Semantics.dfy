/** What the operator means: the README formula, over reals, with PIPE_V's multiply and exponential passed in. */
module Semantics {
  import CubeGram
  import opened Factor
  import opened VectorArithmetic
  import opened Schedule

  /** The tensors of one call, flattened: k [T, Hg, K], beta and g [H, T] with H = Hg * numRepeat. */
  datatype Inputs = Inputs(t: int, hg: int, numRepeat: int, kDim: int,
                           k: seq<real>, beta: seq<real>, g: seq<real>, A: Arithmetic)

  ghost predicate Shaped(x: Inputs) {
    && x.t >= 1 && x.hg >= 1 && x.numRepeat >= 1 && CubeGram.KDim(x.kDim)
    && |x.k| == x.t * x.hg * x.kDim
    && |x.beta| == |x.g| == x.hg * x.numRepeat * x.t
  }

  // The tensors of a launch.
  ghost predicate Matches(x: Inputs, tiling: Tiling) {
    Shaped(x) && x.t == tiling.t && x.hg == tiling.hg && x.numRepeat == tiling.numRepeat
  }

  /** What the factorised path uses of the arithmetic: the law of the exponential only at differences of
      the gates. */
  ghost predicate GatesLaw(x: Inputs) {
    && Laws(x.A)
    && forall a, b {:trigger DifferenceLaw(x.A, a, b)} :: a in x.g && b in x.g ==> DifferenceLaw(x.A, a, b)
  }

  lemma RealGatesLaw(x: Inputs, E: real -> real)
    requires Exponential(E) && x.A == RealArithmetic(E)
    ensures GatesLaw(x)
  {
    RealLaws(E, 0.0, 0.0);
    forall a, b | a in x.g && b in x.g
      ensures DifferenceLaw(x.A, a, b)
    {
      RealLaws(E, a, b);
    }
  }

  function Heads(x: Inputs): int { x.hg * x.numRepeat }

  // Index of (head, token) in beta and g.
  function GateAt(head: int, token: int, t: int): int { head * t + token }

  // Start of K's row for (token, KV head).
  function KRow(token: int, kv: int, hg: int, kDim: int): int { (token * hg + kv) * kDim }

  lemma GateInside(head: int, token: int, t: int, heads: int)
    requires 0 <= head < heads && 0 <= token < t
    ensures 0 <= GateAt(head, token, t) < heads * t
  {
    MulMono(0, head, t);
    MulMono(head + 1, heads, t);
    assert (head + 1) * t == head * t + t;
  }

  lemma KInside(token: int, kv: int, t: int, hg: int, kDim: int)
    requires 0 <= token < t && 0 <= kv < hg && kDim >= 1
    ensures 0 <= KRow(token, kv, hg, kDim) && KRow(token, kv, hg, kDim) + kDim <= t * hg * kDim
  {
    GateInside(token, kv, hg, t);
    var row := token * hg + kv;
    MulMono(0, row, kDim);
    MulMono(row + 1, t * hg, kDim);
    assert (row + 1) * kDim == row * kDim + kDim;
  }

  // The KV head a query head belongs to.
  lemma KvHeadInside(head: int, hg: int, numRepeat: int)
    requires 0 <= head < hg * numRepeat && numRepeat >= 1
    ensures 0 <= head / numRepeat < hg
  {
    DivGe(head, numRepeat, 0);
    DivGe(head, numRepeat, hg);
  }

  ghost function KvOf(x: Inputs, head: int): (kv: int)
    requires Shaped(x) && 0 <= head < Heads(x)
    ensures 0 <= kv < x.hg
  {
    KvHeadInside(head, x.hg, x.numRepeat);
    head / x.numRepeat
  }

  // Dot product of two tokens' K rows.
  ghost function Dot(x: Inputs, kv: int, i: int, j: int): real
    requires Shaped(x) && 0 <= kv < x.hg && 0 <= i < x.t && 0 <= j < x.t
  {
    KInside(i, kv, x.t, x.hg, x.kDim);
    KInside(j, kv, x.t, x.hg, x.kDim);
    CubeGram.Sum(CubeGram.RowTerms(x.k, KRow(i, kv, x.hg, x.kDim), KRow(j, kv, x.hg, x.kDim), x.kDim))
  }

  ghost function Gate(x: Inputs, head: int, token: int): real
    requires Shaped(x) && 0 <= head < Heads(x) && 0 <= token < x.t
  {
    GateInside(head, token, x.t, Heads(x));
    x.g[GateAt(head, token, x.t)]
  }

  ghost function Beta(x: Inputs, head: int, token: int): real
    requires Shaped(x) && 0 <= head < Heads(x) && 0 <= token < x.t
  {
    GateInside(head, token, x.t, Heads(x));
    x.beta[GateAt(head, token, x.t)]
  }

  predicate ChunkRow(t: int, s: int, e: int, i: int) { 0 <= s && e <= t && 0 <= i < e - s }

  /** A[h, s + i, j] for a chunk [s, e) of the input. */
  ghost function Formula(x: Inputs, head: int, s: int, e: int, i: int, j: int): real
    requires Shaped(x) && 0 <= head < Heads(x) && ChunkRow(x.t, s, e, i) && 0 <= j
  {
    if j < e - s && Gate(x, head, s + i) - Gate(x, head, s + j) < 0.0 then
      Scaled(x.A, Beta(x, head, s + i), x.A.exp(Gate(x, head, s + i) - Gate(x, head, s + j)), Dot(x, KvOf(x, head), s + i, s + j))
    else 0.0
  }

  // ---------------------------------------------------------------- the Gram tile of a task

  // Where the cube core's packed copy starts for a task.
  function KOffset(start: int, kv: int, hg: int, kDim: int): int { (start * hg + kv) * kDim }

  lemma RowStartIsKRow(start: int, n: int, kv: int, hg: int, kDim: int)
    ensures CubeGram.RowStart(KOffset(start, kv, hg, kDim), hg * kDim, n) == KRow(start + n, kv, hg, kDim)
  {
    assert ((start + n) * hg + kv) * kDim == (start * hg + kv) * kDim + (n * hg) * kDim by {
      assert (start + n) * hg == start * hg + n * hg;
      Distribute(start * hg + kv, n * hg, kDim);
    }
    assert (n * hg) * kDim == n * (hg * kDim);
  }

  lemma Distribute(a: int, b: int, c: int)
    ensures (a + b) * c == a * c + b * c
  {}

  lemma TileReadable(x: Inputs, start: int, chunkLen: int, kv: int)
    requires Shaped(x) && 0 <= start && start + chunkLen <= x.t && 0 <= kv < x.hg
    ensures CubeGram.Readable(x.k, KOffset(start, kv, x.hg, x.kDim), x.hg * x.kDim, chunkLen, x.kDim)
  {
    forall n | 0 <= n < chunkLen
      ensures 0 <= CubeGram.RowStart(KOffset(start, kv, x.hg, x.kDim), x.hg * x.kDim, n)
      ensures CubeGram.RowStart(KOffset(start, kv, x.hg, x.kDim), x.hg * x.kDim, n) + x.kDim <= |x.k|
    {
      RowStartIsKRow(start, n, kv, x.hg, x.kDim);
      KInside(start + n, kv, x.t, x.hg, x.kDim);
    }
  }

  /** The Gram tile of (chunk, KV head), as the cube core computes it. */
  ghost function Gram(x: Inputs, start: int, chunkLen: int, kv: int, m: int, n: int): real
    requires Shaped(x) && 0 <= start && start + chunkLen <= x.t && 0 <= kv < x.hg && 0 <= m && 0 <= n
  {
    TileReadable(x, start, chunkLen, kv);
    CubeGram.GramCell(x.k, KOffset(start, kv, x.hg, x.kDim), x.hg * x.kDim, chunkLen, x.kDim, m, n)
  }

  /** The cube core's Gram tile is the formula's dot product inside the chunk and zero beyond it. */
  lemma GramIsDot(x: Inputs, start: int, chunkLen: int, kv: int, m: int, n: int)
    requires Shaped(x) && 0 <= start && start + chunkLen <= x.t && 0 <= kv < x.hg && 0 <= m && 0 <= n
    ensures Gram(x, start, chunkLen, kv, m, n)
         == if m < chunkLen && n < chunkLen then Dot(x, kv, start + m, start + n) else 0.0
  {
    TileReadable(x, start, chunkLen, kv);
    RowStartIsKRow(start, m, kv, x.hg, x.kDim);
    RowStartIsKRow(start, n, kv, x.hg, x.kDim);
  }
}
