/** v03's factor path, which materialises the difference matrix, and its agreement with the released
    factorised path once the KKT tile has been multiplied in. */
module FactorV03 {
  import opened VectorOps
  import opened VectorArithmetic
  import opened Factor

  // Lowest finite FP32 value; its exponential underflows to zero.
  const NEGATIVE_INF_PROXY: real := -340282346600000000000000000000000000000.0

  // It lies within half a unit in the last place of the lowest FP32 value, -(2^24 - 1) * 2^104.
  lemma ProxyIsLowest()
    ensures -340282346638528859811704183484516925440.0 <= NEGATIVE_INF_PROXY
    ensures NEGATIVE_INF_PROXY < -340282346638528859811704183484516925440.0 + 10141204801825835211973625643008.0
  {}

  // An exponential that underflows to zero at the proxy and below.
  function Underflow(E: real -> real): real -> real { v => if v <= NEGATIVE_INF_PROXY then 0.0 else E(v) }

  // Gates whose differences stay above the proxy.
  predicate InGateRange(g: real) { NEGATIVE_INF_PROXY / 2.0 < g < -NEGATIVE_INF_PROXY / 2.0 }

  /** The arithmetic v03's path relies on exists: exact multiplication, with a true exponential that
      underflows at the proxy, obeys every law at gates in range and is that exponential above the
      proxy. */
  lemma UnderflowLaws(E: real -> real, gi: real, gj: real)
    requires Exponential(E) && InGateRange(gi) && InGateRange(gj)
    ensures
      var A := RealArithmetic(Underflow(E));
      Laws(A) && DifferenceLaw(A, gi, gj) && A.exp(NEGATIVE_INF_PROXY) == 0.0
      && forall v :: v > NEGATIVE_INF_PROXY ==> A.exp(v) == E(v)
  {
    MultiplyLaws(Underflow(E));
    assert gi - gj == gi + gj * -1.0;
  }

  /** Without the underflow it does not: a true exponential that is zero at the proxy is zero
      everywhere. */
  lemma NoUnderflowIsZero(E: real -> real, v: real)
    requires Exponential(E) && E(NEGATIVE_INF_PROXY) == 0.0
    ensures E(v) == 0.0
  {
    var rest := v - NEGATIVE_INF_PROXY;
    assert E(rest + NEGATIVE_INF_PROXY) == E(rest) * E(NEGATIVE_INF_PROXY);
    assert rest + NEGATIVE_INF_PROXY == v;
  }

  function Difference(gi: real, gj: real): real { gj * -1.0 + gi }

  /** v03's factor at one position. */
  function MaterialisedCell(A: Arithmetic, gi: real, gj: real, betai: real): real {
    A.times(A.exp(Masked(Difference(gi, gj), NEGATIVE_INF_PROXY)), betai)
  }

  // Position y of the tile of the head at offset h.
  function MaterialisedAt(A: Arithmetic, g: seq<real>, beta: seq<real>, h: int, rowStart: int, y: int): real
    requires 0 <= h && 0 <= rowStart && 0 <= y && rowStart + y / 64 < 64 && h + 64 <= |g| && h + 64 <= |beta|
  {
    MaterialisedCell(A, g[h + rowStart + y / 64], g[h + y % 64], beta[h + rowStart + y / 64])
  }

  // Rows [rowStart, rowStart + rowCount) of a head.
  predicate Rows(rowStart: int, rowCount: int) { 1 <= rowCount && 0 <= rowStart && rowStart + rowCount <= 64 }

  // Where the first active row's block lies: Brcb's source address is rounded down to eight rows.
  function First(rowStart: int): int { rowStart % 8 * 8 }

  // The active rows' scalars of the head at offset h, one block each.
  predicate RowBlocks(src: array<real>, h: int, rowStart: int, rowCount: int, scratch: array<real>, s: int)
    requires Rows(rowStart, rowCount) && Window(src, h, 64) && Window(scratch, s, 512)
    reads src, scratch
  {
    forall y :: s + First(rowStart) <= y < s + First(rowStart) + 8 * rowCount ==>
      scratch[y] == src[h + rowStart + (y - s - First(rowStart)) / 8]
  }

  // Each active row's scalar in its own block, from an arbitrary (unaligned) first row.
  method BroadcastRows(src: array<real>, h: int, rowStart: int, rowCount: int, scratch: array<real>, s: int)
    requires Rows(rowStart, rowCount) && Window(src, h, 64) && Window(scratch, s, 512) && src != scratch
    modifies scratch
    ensures RowBlocks(src, h, rowStart, rowCount, scratch, s)
    ensures forall y :: 0 <= y < scratch.Length && !(s <= y < s + 512) ==> scratch[y] == old(scratch[y])
  {
    var alignedRowStart := rowStart - rowStart % 8;
    var rowPrefix := rowStart - alignedRowStart;
    Brcb(scratch, s, src, h + alignedRowStart, (rowPrefix + rowCount + 7) / 8);
  }

  // The matrix g_i - g_j of the head at offset h.
  method DifferenceTile(g: array<real>, h: int, rowStart: int, rowCount: int, negG: array<real>,
                        scratch: array<real>, s: int, output: array<real>)
    requires Rows(rowStart, rowCount) && Window(g, h, 64) && Window(negG, h, 64) && Window(scratch, s, 512)
    requires Window(output, 0, KKT_ELEMS) && output != g && output != negG && output != scratch
    requires forall j :: h <= j < h + 64 ==> negG[j] == g[j] * -1.0
    requires RowBlocks(g, h, rowStart, rowCount, scratch, s)
    modifies output
    ensures forall x :: 0 <= x < 64 * rowCount ==> output[x] == Difference(g[h + rowStart + x / 64], g[h + x % 64])
    ensures forall x :: 64 * rowCount <= x < output.Length ==> output[x] == old(output[x])
  {
    var first := s + First(rowStart);
    AddRows(output, 0, negG, h, scratch, first, rowCount);
    forall x | 0 <= x < 64 * rowCount
      ensures output[x] == Difference(g[h + rowStart + x / 64], g[h + x % 64])
    {
      var i, e := x / 64, x % 8;
      assert (8 * i + e) / 8 == i;
      assert scratch[first + 8 * i + e] == g[h + rowStart + i];
    }
  }

  function Masked(d: real, proxy: real): real { if d < 0.0 then d else proxy }

  // Every non-negative position becomes the proxy, from the mask of the differences.
  method SelectNegative(count: int, proxy: real, mask: array<bool>, m: int, output: array<real>)
    requires 0 <= count <= KKT_ELEMS && 0 <= m && m + KKT_ELEMS <= mask.Length && Window(output, 0, KKT_ELEMS)
    requires forall x :: 0 <= x < count ==> mask[m + x] == (output[x] < 0.0)
    modifies output
    ensures forall x :: 0 <= x < count ==> output[x] == Masked(old(output[x]), proxy)
    ensures forall x :: count <= x < output.Length ==> output[x] == old(output[x])
  {
    Select(output, 0, mask, m, proxy, count);
    forall x | 0 <= x < count
      ensures output[x] == Masked(old(output[x]), proxy)
    {
      assert mask[m + (x - 0)] == (old(output[x]) < 0.0);
    }
  }

  method NegativeMask(count: int, mask: array<bool>, m: int, output: array<real>)
    requires 0 <= count <= KKT_ELEMS && 0 <= m && m + KKT_ELEMS <= mask.Length && Window(output, 0, KKT_ELEMS)
    modifies mask
    ensures forall x :: 0 <= x < count ==> mask[m + x] == (output[x] < 0.0)
    ensures forall x :: 0 <= x < mask.Length && !(m <= x < m + count) ==> mask[x] == old(mask[x])
  {
    CompareScalarLT(mask, m, output, 0, 0.0, count);
    forall x | 0 <= x < count
      ensures mask[m + x] == (output[x] < 0.0)
    {
      assert mask[m + x] == (output[0 + (m + x - m)] < 0.0);
    }
  }

  // exp of a tile, with every non-negative position replaced by the proxy first.
  method MaskedExp(count: int, A: Arithmetic, proxy: real, mask: array<bool>, output: array<real>)
    requires 0 <= count <= KKT_ELEMS && mask.Length >= KKT_ELEMS && Window(output, 0, KKT_ELEMS)
    modifies mask, output
    ensures forall x :: 0 <= x < count ==> output[x] == A.exp(Masked(old(output[x]), proxy))
    ensures forall x :: count <= x < output.Length ==> output[x] == old(output[x])
  {
    NegativeMask(count, mask, 0, output);
    SelectNegative(count, proxy, mask, 0, output);
    Exp(output, 0, output, 0, count, A);
  }

  // Every row times its own beta.
  method BetaRows(g: array<real>, beta: array<real>, h: int, rowStart: int, rowCount: int, A: Arithmetic,
                  castBeta: array<real>, scratch: array<real>, s: int, output: array<real>)
    requires Rows(rowStart, rowCount) && Distinct(g, beta, castBeta, scratch, output)
    requires Window(g, h, 64) && Window(beta, h, 64) && Window(castBeta, h, 64) && Window(scratch, s, 512)
    requires Window(output, 0, KKT_ELEMS)
    requires forall j :: h <= j < h + 64 ==> castBeta[j] == beta[j]
    requires RowBlocks(castBeta, h, rowStart, rowCount, scratch, s)
    requires forall x :: 0 <= x < 64 * rowCount ==>
      output[x] == A.exp(Masked(Difference(g[h + rowStart + x / 64], g[h + x % 64]), NEGATIVE_INF_PROXY))
    modifies output
    ensures forall x :: 0 <= x < 64 * rowCount ==>
      output[x] == MaterialisedCell(A, g[h + rowStart + x / 64], g[h + x % 64], beta[h + rowStart + x / 64])
    ensures forall x :: 64 * rowCount <= x < output.Length ==> output[x] == old(output[x])
  {
    var first := s + First(rowStart);
    ScaleRows(output, 0, scratch, first, rowCount, A);
    forall x | 0 <= x < 64 * rowCount
      ensures output[x] == MaterialisedCell(A, g[h + rowStart + x / 64], g[h + x % 64], beta[h + rowStart + x / 64])
    {
      var i, e := x / 64, x % 8;
      assert (8 * i + e) / 8 == i;
      assert scratch[first + 8 * i + e] == castBeta[h + rowStart + i] == beta[h + rowStart + i];
    }
  }

  method Differences(g: array<real>, rowStart: int, rowCount: int, negG: array<real>, scratch: array<real>, output: array<real>)
    requires Rows(rowStart, rowCount) && g != negG && g != scratch && negG != scratch
    requires output != g && output != negG && output != scratch
    requires Window(g, 0, 64) && Window(negG, 0, 64) && Window(scratch, 0, 512) && Window(output, 0, KKT_ELEMS)
    modifies negG, scratch, output
    ensures forall x :: 0 <= x < 64 * rowCount ==> output[x] == Difference(g[rowStart + x / 64], g[x % 64])
    ensures forall x :: 64 * rowCount <= x < output.Length ==> output[x] == old(output[x])
  {
    Muls(negG, g, 0, -1.0, ROW_ELEMS);
    BroadcastRows(g, 0, rowStart, rowCount, scratch, 0);
    DifferenceTile(g, 0, rowStart, rowCount, negG, scratch, 0, output);
  }

  /** v03's single-head factor; beta is cast into the buffer that held the negated gates. */
  method PrepareHeadFactor(g: array<real>, beta: array<real>, rowStart: int, rowCount: int, A: Arithmetic,
                           negG: array<real>, scratch: array<real>, mask: array<bool>, output: array<real>)
    requires Rows(rowStart, rowCount) && Distinct(g, beta, negG, scratch, output)
    requires Window(g, 0, 64) && Window(beta, 0, 64) && Window(negG, 0, 64) && Window(scratch, 0, 512)
    requires mask.Length >= KKT_ELEMS && Window(output, 0, KKT_ELEMS)
    modifies negG, scratch, mask, output
    ensures forall x :: 0 <= x < 64 * rowCount ==>
      output[x] == MaterialisedCell(A, g[rowStart + x / 64], g[x % 64], beta[rowStart + x / 64])
    ensures forall x :: 64 * rowCount <= x < output.Length ==> output[x] == old(output[x])
  {
    Differences(g, rowStart, rowCount, negG, scratch, output);
    MaskedExp(rowCount * ROW_ELEMS, A, NEGATIVE_INF_PROXY, mask, output);
    Cast(negG, 0, beta, 0, ROW_ELEMS);
    BroadcastRows(negG, 0, rowStart, rowCount, scratch, 0);
    BetaRows(g, beta, 0, rowStart, rowCount, A, negG, scratch, 0, output);
  }

  // ---------------------------------------------------------------- two heads at once

  // Both heads' row blocks, 512 elements apart: one instruction for all 128 rows of a full tile, one a
  // head otherwise.
  method BroadcastPairRows(src: array<real>, rowStart: int, rowCount: int, scratch: array<real>)
    requires Rows(rowStart, rowCount) && Window(src, 0, 128) && Window(scratch, 0, 1024) && src != scratch
    modifies scratch
    ensures RowBlocks(src, 0, rowStart, rowCount, scratch, 0)
    ensures RowBlocks(src, 64, rowStart, rowCount, scratch, 512)
  {
    if rowStart == 0 && rowCount == ROW_ELEMS {
      Brcb(scratch, 0, src, 0, 16);
      forall y | 512 <= y < 1024
        ensures scratch[y] == src[64 + (y - 512) / 8]
      {
        assert (y - 0) / 8 == 64 + (y - 512) / 8;
      }
    } else {
      BroadcastRows(src, 0, rowStart, rowCount, scratch, 0);
      BroadcastRows(src, 64, rowStart, rowCount, scratch, 512);
    }
  }

  method NegateAndBroadcastPair(g: array<real>, rowStart: int, rowCount: int, negG: array<real>, scratch: array<real>)
    requires Rows(rowStart, rowCount) && g != negG && g != scratch && negG != scratch
    requires Window(g, 0, 128) && Window(negG, 0, 128) && Window(scratch, 0, 1024)
    modifies negG, scratch
    ensures forall j :: 0 <= j < 128 ==> negG[j] == g[j] * -1.0
    ensures RowBlocks(g, 0, rowStart, rowCount, scratch, 0)
    ensures RowBlocks(g, 64, rowStart, rowCount, scratch, 512)
  {
    Muls(negG, g, 0, -1.0, 2 * ROW_ELEMS);
    BroadcastPairRows(g, rowStart, rowCount, scratch);
  }

  // The difference matrices of both heads.
  method PairDifferences(g: array<real>, rowStart: int, rowCount: int, negG: array<real>, scratch: array<real>,
                         output0: array<real>, output1: array<real>)
    requires Rows(rowStart, rowCount) && g != negG && g != scratch && negG != scratch
    requires output0 != g && output0 != negG && output0 != scratch && output0 != output1
    requires output1 != g && output1 != negG && output1 != scratch
    requires Window(g, 0, 128) && Window(negG, 0, 128) && Window(scratch, 0, 1024)
    requires Window(output0, 0, KKT_ELEMS) && Window(output1, 0, KKT_ELEMS)
    modifies negG, scratch, output0, output1
    ensures forall x :: 0 <= x < 64 * rowCount ==> output0[x] == Difference(g[rowStart + x / 64], g[x % 64])
    ensures forall x :: 0 <= x < 64 * rowCount ==>
      output1[x] == Difference(g[64 + rowStart + x / 64], g[64 + x % 64])
    ensures forall x :: 64 * rowCount <= x < output0.Length ==> output0[x] == old(output0[x])
    ensures forall x :: 64 * rowCount <= x < output1.Length ==> output1[x] == old(output1[x])
  {
    NegateAndBroadcastPair(g, rowStart, rowCount, negG, scratch);
    DifferenceTile(g, 0, rowStart, rowCount, negG, scratch, 0, output0);
    DifferenceTile(g, 64, rowStart, rowCount, negG, scratch, 512, output1);
  }

  // Mask, select and exponential of both tiles; the second mask starts 4096 bits on.
  method PairMaskedExp(count: int, A: Arithmetic, proxy: real, mask: array<bool>,
                       output0: array<real>, output1: array<real>)
    requires 0 <= count <= KKT_ELEMS && mask.Length >= 2 * KKT_ELEMS && output0 != output1
    requires Window(output0, 0, KKT_ELEMS) && Window(output1, 0, KKT_ELEMS)
    modifies mask, output0, output1
    ensures forall x :: 0 <= x < count ==> output0[x] == A.exp(Masked(old(output0[x]), proxy))
    ensures forall x :: 0 <= x < count ==> output1[x] == A.exp(Masked(old(output1[x]), proxy))
    ensures forall x :: count <= x < output0.Length ==> output0[x] == old(output0[x])
    ensures forall x :: count <= x < output1.Length ==> output1[x] == old(output1[x])
  {
    NegativeMask(count, mask, 0, output0);
    NegativeMask(count, mask, KKT_ELEMS, output1);
    SelectNegative(count, proxy, mask, 0, output0);
    SelectNegative(count, proxy, mask, KKT_ELEMS, output1);
    Exp(output0, 0, output0, 0, count, A);
    Exp(output1, 0, output1, 0, count, A);
  }

  // Both betas, cast over the negated gates, broadcast over the gates' blocks and multiplied in.
  method PairBetaRows(g: array<real>, beta: array<real>, rowStart: int, rowCount: int, A: Arithmetic,
                      negG: array<real>, scratch: array<real>, output0: array<real>, output1: array<real>)
    requires Rows(rowStart, rowCount) && output0 != output1
    requires Distinct(g, beta, negG, scratch, output0) && Distinct(g, beta, negG, scratch, output1)
    requires Window(g, 0, 128) && Window(beta, 0, 128) && Window(negG, 0, 128) && Window(scratch, 0, 1024)
    requires Window(output0, 0, KKT_ELEMS) && Window(output1, 0, KKT_ELEMS)
    requires forall x :: 0 <= x < 64 * rowCount ==>
      output0[x] == A.exp(Masked(Difference(g[rowStart + x / 64], g[x % 64]), NEGATIVE_INF_PROXY))
    requires forall x :: 0 <= x < 64 * rowCount ==>
      output1[x] == A.exp(Masked(Difference(g[64 + rowStart + x / 64], g[64 + x % 64]), NEGATIVE_INF_PROXY))
    modifies negG, scratch, output0, output1
    ensures forall x :: 0 <= x < 64 * rowCount ==>
      output0[x] == MaterialisedCell(A, g[rowStart + x / 64], g[x % 64], beta[rowStart + x / 64])
    ensures forall x :: 0 <= x < 64 * rowCount ==>
      output1[x] == MaterialisedCell(A, g[64 + rowStart + x / 64], g[64 + x % 64], beta[64 + rowStart + x / 64])
    ensures forall x :: 64 * rowCount <= x < output0.Length ==> output0[x] == old(output0[x])
    ensures forall x :: 64 * rowCount <= x < output1.Length ==> output1[x] == old(output1[x])
  {
    Cast(negG, 0, beta, 0, 2 * ROW_ELEMS);
    BroadcastPairRows(negG, rowStart, rowCount, scratch);
    BetaRows(g, beta, 0, rowStart, rowCount, A, negG, scratch, 0, output0);
    BetaRows(g, beta, 64, rowStart, rowCount, A, negG, scratch, 512, output1);
  }

  /** v03's two heads share the negated gates, the scratch and the mask buffer; from any first row each
      output tile holds its own head's materialised factor. */
  method PrepareHeadPairFactor(g: array<real>, beta: array<real>, rowStart: int, rowCount: int, A: Arithmetic,
                               negG: array<real>, scratch: array<real>, mask: array<bool>,
                               output0: array<real>, output1: array<real>)
    requires Rows(rowStart, rowCount) && output0 != output1
    requires Distinct(g, beta, negG, scratch, output0) && Distinct(g, beta, negG, scratch, output1)
    requires Window(g, 0, 128) && Window(beta, 0, 128) && Window(negG, 0, 128) && Window(scratch, 0, 1024)
    requires mask.Length >= 2 * KKT_ELEMS && Window(output0, 0, KKT_ELEMS) && Window(output1, 0, KKT_ELEMS)
    modifies negG, scratch, mask, output0, output1
    ensures forall x :: 0 <= x < 64 * rowCount ==>
      output0[x] == MaterialisedAt(A, g[..], beta[..], 0, rowStart, x)
    ensures forall x :: 0 <= x < 64 * rowCount ==>
      output1[x] == MaterialisedAt(A, g[..], beta[..], 64, rowStart, x)
    ensures forall x :: 64 * rowCount <= x < output0.Length ==> output0[x] == old(output0[x])
    ensures forall x :: 64 * rowCount <= x < output1.Length ==> output1[x] == old(output1[x])
  {
    PairDifferences(g, rowStart, rowCount, negG, scratch, output0, output1);
    PairMaskedExp(rowCount * ROW_ELEMS, A, NEGATIVE_INF_PROXY, mask, output0, output1);
    PairBetaRows(g, beta, rowStart, rowCount, A, negG, scratch, output0, output1);
  }

  /** v03's product is the formula's, inside the chunk. */
  lemma MaterialisedValue(A: Arithmetic, gi: real, gj: real, betai: real, dot: real, factor: real, value: real)
    requires Laws(A) && A.exp(NEGATIVE_INF_PROXY) == 0.0 && factor == MaterialisedCell(A, gi, gj, betai)
    requires value == if gi - gj < 0.0 then Scaled(A, betai, A.exp(gi - gj), dot) else 0.0
    ensures A.times(dot, factor) == value
  {
    assert Difference(gi, gj) == gi - gj;
    assert ReordersThree(A, dot, A.exp(gi - gj), betai);
    assert Absorbs(A, betai) && Absorbs(A, dot);
  }

  /** After the KKT multiply the two paths agree at every position: inside the chunk because the
      exponential of a difference factorises, on padding columns because KKT is zero there. */
  lemma PathsAgree(A: Arithmetic, gi: real, gj: real, betai: real, inChunk: bool, kkt: real)
    requires Laws(A) && A.exp(NEGATIVE_INF_PROXY) == 0.0
    requires inChunk ==> DifferenceLaw(A, gi, gj)
    requires inChunk || kkt == 0.0
    ensures A.times(kkt, Cell(A, gi, gj, betai, inChunk)) == A.times(kkt, MaterialisedCell(A, gi, gj, betai))
  {
    var factor, materialised := Cell(A, gi, gj, betai, inChunk), MaterialisedCell(A, gi, gj, betai);
    if inChunk {
      var value := if gi - gj < 0.0 then Scaled(A, betai, A.exp(gi - gj), kkt) else 0.0;
      CellValue(A, gi, gj, betai, kkt, factor, value);
      MaterialisedValue(A, gi, gj, betai, kkt, materialised, value);
    } else {
      assert Absorbs(A, factor) && Absorbs(A, materialised);
    }
  }

  // The gates of a head's chunk obey the law of the exponential.
  ghost predicate GatesObey(A: Arithmetic, g: seq<real>, h: int, chunkLen: int)
    requires 0 <= h && 0 <= chunkLen && h + chunkLen <= |g|
  {
    forall i, j :: h <= i < h + chunkLen && h <= j < h + chunkLen ==> DifferenceLaw(A, g[i], g[j])
  }

  // The KKT rows are zero beyond the chunk's columns.
  predicate ZeroPadded(kkt: seq<real>, chunkLen: int, rowCount: int)
    requires 64 * rowCount <= |kkt|
  {
    forall y :: 0 <= y < 64 * rowCount && y % 64 >= chunkLen ==> kkt[y] == 0.0
  }

  lemma ProductsAgree(A: Arithmetic, g: seq<real>, beta: seq<real>, h: int, chunkLen: int, rowCount: int, kkt: seq<real>)
    requires Laws(A) && A.exp(NEGATIVE_INF_PROXY) == 0.0 && 1 <= rowCount <= chunkLen <= 64
    requires 0 <= h && h + 64 <= |g| && h + 64 <= |beta| && GatesObey(A, g, h, chunkLen)
    requires 64 * rowCount <= |kkt| && ZeroPadded(kkt, chunkLen, rowCount)
    ensures forall y :: 0 <= y < 64 * rowCount ==>
      A.times(kkt[y], CellAt(A, g, beta, h, chunkLen, y)) == A.times(kkt[y], MaterialisedAt(A, g, beta, h, 0, y))
  {
    forall y | 0 <= y < 64 * rowCount
      ensures A.times(kkt[y], CellAt(A, g, beta, h, chunkLen, y)) == A.times(kkt[y], MaterialisedAt(A, g, beta, h, 0, y))
    {
      PathsAgree(A, g[h + y / 64], g[h + y % 64], beta[h + y / 64], y % 64 < chunkLen, kkt[y]);
    }
  }

  // Both versions' factors of two heads, one after the other over the same buffers.
  method BothFactors(g: array<real>, beta: array<real>, chunkLen: int, rowCount: int, A: Arithmetic,
                     negG: array<real>, scratch: array<real>, mask: array<bool>,
                     released: array<real>, o0: int, o1: int, output0: array<real>, output1: array<real>)
    requires 1 <= rowCount <= chunkLen <= 64 && Distinct(g, beta, negG, scratch, released)
    requires Distinct(g, beta, negG, scratch, output0) && Distinct(g, beta, negG, scratch, output1)
    requires released != output0 && released != output1 && output0 != output1
    requires Window(g, 0, 128) && Window(beta, 0, 128) && Window(negG, 0, 128) && Window(scratch, 0, 1024)
    requires mask.Length >= 2 * KKT_ELEMS && Window(output0, 0, KKT_ELEMS) && Window(output1, 0, KKT_ELEMS)
    requires Window(released, o0, KKT_ELEMS) && Window(released, o1, KKT_ELEMS)
    requires o0 + KKT_ELEMS <= o1 || o1 + KKT_ELEMS <= o0
    modifies negG, scratch, mask, released, output0, output1
    ensures forall y :: 0 <= y < 64 * rowCount ==> released[o0 + y] == CellAt(A, g[..], beta[..], 0, chunkLen, y)
    ensures forall y :: 0 <= y < 64 * rowCount ==> released[o1 + y] == CellAt(A, g[..], beta[..], 64, chunkLen, y)
    ensures forall y :: 0 <= y < 64 * rowCount ==> output0[y] == MaterialisedAt(A, g[..], beta[..], 0, 0, y)
    ensures forall y :: 0 <= y < 64 * rowCount ==> output1[y] == MaterialisedAt(A, g[..], beta[..], 64, 0, y)
  {
    ReleasedFactors(g, beta, chunkLen, rowCount, A, negG, scratch, mask, released, o0, o1);
    PrepareHeadPairFactor(g, beta, 0, rowCount, A, negG, scratch, mask, output0, output1);
  }

  method ReleasedFactors(g: array<real>, beta: array<real>, chunkLen: int, rowCount: int, A: Arithmetic,
                         negG: array<real>, scratch: array<real>, mask: array<bool>,
                         released: array<real>, o0: int, o1: int)
    requires 1 <= rowCount <= chunkLen <= 64 && Distinct(g, beta, negG, scratch, released)
    requires Window(g, 0, 128) && Window(beta, 0, 128) && Window(negG, 0, 128) && Window(scratch, 0, 1024)
    requires mask.Length >= 2 * KKT_ELEMS
    requires Window(released, o0, KKT_ELEMS) && Window(released, o1, KKT_ELEMS)
    requires o0 + KKT_ELEMS <= o1 || o1 + KKT_ELEMS <= o0
    modifies negG, scratch, mask, released
    ensures forall y :: 0 <= y < 64 * rowCount ==> released[o0 + y] == CellAt(A, g[..], beta[..], 0, chunkLen, y)
    ensures forall y :: 0 <= y < 64 * rowCount ==> released[o1 + y] == CellAt(A, g[..], beta[..], 64, chunkLen, y)
  {
    Factor.PrepareHeadPairFactor(g, beta, chunkLen, rowCount, A, negG, scratch, mask, released, o0, o1);
    forall y | 0 <= y < 64 * rowCount
      ensures released[o0 + y] == CellAt(A, g[..], beta[..], 0, chunkLen, y)
      ensures released[o1 + y] == CellAt(A, g[..], beta[..], 64, chunkLen, y)
    {
      assert (o0 + y) - o0 == y && (o1 + y) - o1 == y;
    }
  }

  // The KKT multiply of both versions' tiles of one head.
  method MultiplyBoth(kkt: array<real>, a: array<real>, o: int, b: array<real>, count: int, A: Arithmetic)
    requires 0 <= count && Window(kkt, 0, count) && Window(a, o, count) && Window(b, 0, count)
    requires kkt != a && kkt != b && a != b
    requires forall y :: 0 <= y < count ==> A.times(kkt[y], a[o + y]) == A.times(kkt[y], b[y])
    modifies a, b
    ensures forall y :: 0 <= y < count ==> a[o + y] == b[y]
    ensures forall z :: 0 <= z < a.Length && !(o <= z < o + count) ==> a[z] == old(a[z])
  {
    MulInto(a, o, kkt, 0, count, A);
    MulInto(b, 0, kkt, 0, count, A);
    forall y | 0 <= y < count
      ensures a[o + y] == b[y]
    {
      assert kkt[0 + (o + y - o)] == kkt[y] && kkt[0 + (y - 0)] == kkt[y];
    }
  }

  /** Two heads through the released factorised path and through v03's materialised one: after the KKT
      multiply their tiles are equal on all 64 columns, although the factors differ on padding. */
  method BothPairTiles(kkt: array<real>, g: array<real>, beta: array<real>, chunkLen: int, rowCount: int, A: Arithmetic,
                       negG: array<real>, scratch: array<real>, mask: array<bool>,
                       released: array<real>, o0: int, o1: int, output0: array<real>, output1: array<real>)
    requires Laws(A) && A.exp(NEGATIVE_INF_PROXY) == 0.0 && 1 <= rowCount <= chunkLen <= 64
    requires Distinct(g, beta, negG, scratch, released) && Distinct(g, beta, negG, scratch, output0)
    requires Distinct(g, beta, negG, scratch, output1)
    requires released != output0 && released != output1 && output0 != output1
    requires kkt != negG && kkt != scratch && kkt != released && kkt != output0 && kkt != output1
    requires Window(g, 0, 128) && Window(beta, 0, 128) && Window(negG, 0, 128) && Window(scratch, 0, 1024)
    requires mask.Length >= 2 * KKT_ELEMS && Window(output0, 0, KKT_ELEMS) && Window(output1, 0, KKT_ELEMS)
    requires Window(kkt, 0, KKT_ELEMS) && Window(released, o0, KKT_ELEMS) && Window(released, o1, KKT_ELEMS)
    requires o0 + KKT_ELEMS <= o1 || o1 + KKT_ELEMS <= o0
    requires GatesObey(A, g[..], 0, chunkLen) && GatesObey(A, g[..], 64, chunkLen)
    requires ZeroPadded(kkt[..], chunkLen, rowCount)
    modifies negG, scratch, mask, released, output0, output1
    ensures forall y :: 0 <= y < 64 * rowCount ==> released[o0 + y] == output0[y]
    ensures forall y :: 0 <= y < 64 * rowCount ==> released[o1 + y] == output1[y]
  {
    BothFactors(g, beta, chunkLen, rowCount, A, negG, scratch, mask, released, o0, o1, output0, output1);
    ProductsAgree(A, g[..], beta[..], 0, chunkLen, rowCount, kkt[..]);
    MultiplyBoth(kkt, released, o0, output0, 64 * rowCount, A);
    ProductsAgree(A, g[..], beta[..], 64, chunkLen, rowCount, kkt[..]);
    MultiplyBoth(kkt, released, o1, output1, 64 * rowCount, A);
  }

  /** The factors themselves differ on a zero-padded column exactly when the row's gate is negative and
      its own factor is not zero. */
  lemma PaddingFactorsDiffer(A: Arithmetic, gi: real, betai: real)
    requires Laws(A) && A.exp(NEGATIVE_INF_PROXY) == 0.0
    ensures Cell(A, gi, 0.0, betai, false) != MaterialisedCell(A, gi, 0.0, betai)
       <==> gi < 0.0 && A.times(A.exp(gi), betai) != 0.0
  {
    assert Difference(gi, 0.0) == gi;
    assert Absorbs(A, betai) && Absorbs(A, A.times(betai, A.exp(gi)));
  }
}
