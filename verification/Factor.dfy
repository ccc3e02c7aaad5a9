/** The KKT-independent factor of a head: mask, exponentials and beta, built in place.

  The released kernel factorises exp(g_i - g_j) = exp(g_i) * exp(-g_j) and reuses one scratch buffer
  for the broadcast g, then beta, then the row factors, and the output prefix for the compact row
  factors.  v03 materialises the difference matrix instead. */
module Factor {
  import opened VectorOps
  import opened VectorArithmetic

  // exp(-g_j) for the chunk's own columns; padded columns are never exponentiated.
  function Column(A: Arithmetic, gj: real, inChunk: bool): real {
    if inChunk then A.exp(gj * -1.0) else gj * -1.0
  }

  /** The factor at one (row, column) position. */
  function Cell(A: Arithmetic, gi: real, gj: real, betai: real, inChunk: bool): real {
    if gi < gj then A.times(Column(A, gj, inChunk), A.times(betai, A.exp(gi))) else 0.0
  }

  // Position y of the tile of the head at offset h.
  function CellAt(A: Arithmetic, g: seq<real>, beta: seq<real>, h: int, chunkLen: int, y: int): real
    requires 0 <= h && 0 <= y < KKT_ELEMS && h + 64 <= |g| && h + 64 <= |beta|
  {
    Cell(A, g[h + y / 64], g[h + y % 64], beta[h + y / 64], y % 64 < chunkLen)
  }

  // beta * exp * dot
  function Scaled(A: Arithmetic, betai: real, e: real, dot: real): real { A.times(A.times(betai, e), dot) }

  /** A dot product times the factor, inside the chunk. */
  lemma CellValue(A: Arithmetic, gi: real, gj: real, betai: real, dot: real, factor: real, value: real)
    requires Laws(A) && DifferenceLaw(A, gi, gj) && factor == Cell(A, gi, gj, betai, true)
    requires value == if gi - gj < 0.0 then Scaled(A, betai, A.exp(gi - gj), dot) else 0.0
    ensures A.times(dot, factor) == value
  {
    assert ReordersFour(A, dot, A.exp(gj * -1.0), betai, A.exp(gi));
    assert Absorbs(A, dot);
  }

  // The distinct buffers of one lane: gates, beta, negated gates, scratch, output.
  predicate Distinct(g: array<real>, beta: array<real>, negG: array<real>, scratch: array<real>, output: array<real>) {
    && g != beta && g != negG && g != scratch && g != output
    && beta != negG && beta != scratch && beta != output
    && negG != scratch && negG != output && scratch != output
  }

  predicate SingleShape(chunkLen: int, rowStart: int, rowCount: int) {
    1 <= rowCount && 0 <= rowStart && rowStart % 8 == 0 && rowStart + rowCount <= chunkLen <= 64
  }

  function Blocks(rowCount: int): int { (rowCount + 7) / 8 }

  // Every broadcast g_i against every g_j of the head at offset h.
  method CompareBroadcast(g: array<real>, h: int, rowStart: int, rowCount: int,
                          scratch: array<real>, s: int, mask: array<bool>, m: int)
    requires 0 <= rowStart && 1 <= rowCount && rowStart + rowCount <= 64
    requires Window(g, h, 64) && Window(scratch, s, 512) && 0 <= m && m + KKT_ELEMS <= mask.Length
    requires forall y :: s <= y < s + 8 * rowCount ==> scratch[y] == g[h + rowStart + (y - s) / 8]
    modifies mask
    ensures forall x :: m <= x < m + 64 * rowCount ==>
      mask[x] == (g[h + rowStart + (x - m) / 64] < g[h + (x - m) % 64])
    ensures forall x :: 0 <= x < mask.Length && !(m <= x < m + 64 * rowCount) ==> mask[x] == old(mask[x])
  {
    CompareRowsLT(mask, m, scratch, s, g, h, rowCount);
    forall x | m <= x < m + 64 * rowCount
      ensures mask[x] == (g[h + rowStart + (x - m) / 64] < g[h + (x - m) % 64])
    {
      var i, e := (x - m) / 64, (x - m) % 8;
      assert (8 * i + e) / 8 == i;
      assert scratch[s + 8 * i + e] == g[h + rowStart + i];
    }
  }

  method MaskAndColumns(g: array<real>, chunkLen: int, rowStart: int, rowCount: int, A: Arithmetic,
                        negG: array<real>, scratch: array<real>, mask: array<bool>)
    requires SingleShape(chunkLen, rowStart, rowCount)
    requires Window(g, 0, 64) && Window(negG, 0, 64) && Window(scratch, 0, 512) && mask.Length >= KKT_ELEMS
    requires g != negG && g != scratch && negG != scratch
    modifies negG, scratch, mask
    ensures forall j :: 0 <= j < 64 ==> negG[j] == Column(A, g[j], j < chunkLen)
    ensures forall x :: 0 <= x < 64 * rowCount ==> mask[x] == (g[rowStart + x / 64] < g[x % 64])
  {
    Muls(negG, g, 0, -1.0, ROW_ELEMS);
    Brcb(scratch, 0, g, rowStart, Blocks(rowCount));
    CompareBroadcast(g, 0, rowStart, rowCount, scratch, 0, mask, 0);
    Exp(negG, 0, negG, 0, chunkLen, A);
  }

  // beta_i * exp(g_i) for the active rows, compact in the output prefix.
  method CompactRows(g: array<real>, beta: array<real>, rowStart: int, rowCount: int, A: Arithmetic,
                     scratch: array<real>, output: array<real>, o: int)
    requires 1 <= rowCount && 0 <= rowStart && rowStart + rowCount <= 64
    requires Window(g, 0, 64) && Window(beta, 0, 64) && Window(scratch, 0, 512) && Window(output, o, 64)
    requires g != scratch && g != output && beta != scratch && beta != output && scratch != output
    modifies scratch, output
    ensures forall x :: o <= x < o + rowCount ==>
      output[x] == A.times(beta[rowStart + (x - o)], A.exp(g[rowStart + (x - o)]))
    ensures forall x :: 0 <= x < output.Length && !(o <= x < o + rowCount) ==> output[x] == old(output[x])
  {
    Exp(output, o, g, rowStart, rowCount, A);
    Cast(scratch, 0, beta, rowStart, rowCount);
    MulInto(output, o, scratch, 0, rowCount, A);
  }

  // The row factors, broadcast to one block per row.
  method RowFactors(g: array<real>, beta: array<real>, rowStart: int, rowCount: int, A: Arithmetic,
                    scratch: array<real>, output: array<real>, o: int)
    requires 1 <= rowCount && 0 <= rowStart && rowStart + rowCount <= 64
    requires Window(g, 0, 64) && Window(beta, 0, 64) && Window(scratch, 0, 512) && Window(output, o, 64)
    requires g != scratch && g != output && beta != scratch && beta != output && scratch != output
    modifies scratch, output
    ensures forall y :: 0 <= y < 8 * rowCount ==> scratch[y] == A.times(beta[rowStart + y / 8], A.exp(g[rowStart + y / 8]))
    ensures forall x :: 0 <= x < output.Length && !(o <= x < o + rowCount) ==> output[x] == old(output[x])
  {
    CompactRows(g, beta, rowStart, rowCount, A, scratch, output, o);
    Brcb(scratch, 0, output, o, Blocks(rowCount));
    assert forall y :: 0 <= y < 8 * rowCount ==> scratch[y] == output[o + y / 8];
  }

  // Negated and exponentiated columns, row blocks and mask of one head are in place.
  predicate Staged(g: array<real>, beta: array<real>, h: int, chunkLen: int, rowStart: int, rowCount: int,
                   A: Arithmetic, negG: array<real>, n: int, scratch: array<real>, s: int,
                   mask: array<bool>, m: int)
    requires 0 <= rowStart && 1 <= rowCount && rowStart + rowCount <= 64
    requires Window(g, h, 64) && Window(beta, h, 64) && Window(negG, n, 64) && Window(scratch, s, 512)
    requires 0 <= m && m + KKT_ELEMS <= mask.Length
    reads g, beta, negG, scratch, mask
  {
    && (forall x :: n <= x < n + 64 ==> negG[x] == Column(A, g[h + (x - n)], x - n < chunkLen))
    && (forall x :: s <= x < s + 8 * rowCount ==>
          scratch[x] == A.times(beta[h + rowStart + (x - s) / 8], A.exp(g[h + rowStart + (x - s) / 8])))
    && (forall x :: m <= x < m + 64 * rowCount ==>
          mask[x] == (g[h + rowStart + (x - m) / 64] < g[h + (x - m) % 64]))
  }

  // Column vector times row factors, then the mask.
  method ApplyFactors(g: array<real>, beta: array<real>, h: int, chunkLen: int, rowStart: int, rowCount: int,
                      A: Arithmetic, negG: array<real>, n: int, scratch: array<real>, s: int,
                      mask: array<bool>, m: int, output: array<real>, o: int)
    requires 0 <= rowStart && 1 <= rowCount && rowStart + rowCount <= 64
    requires Window(g, h, 64) && Window(beta, h, 64) && Window(negG, n, 64) && Window(scratch, s, 512)
    requires 0 <= m && m + KKT_ELEMS <= mask.Length && Window(output, o, KKT_ELEMS)
    requires output != g && output != beta && output != negG && output != scratch
    requires Staged(g, beta, h, chunkLen, rowStart, rowCount, A, negG, n, scratch, s, mask, m)
    modifies output
    ensures forall x :: o <= x < o + 64 * rowCount ==>
      output[x] == Cell(A, g[h + rowStart + (x - o) / 64], g[h + (x - o) % 64],
                        beta[h + rowStart + (x - o) / 64], (x - o) % 64 < chunkLen)
    ensures forall x :: 0 <= x < output.Length && !(o <= x < o + 64 * rowCount) ==> output[x] == old(output[x])
  {
    MulRows(output, o, negG, n, scratch, s, rowCount, A);
    Select(output, o, mask, m, 0.0, rowCount * ROW_ELEMS);
    forall x | o <= x < o + 64 * rowCount
      ensures output[x] == Cell(A, g[h + rowStart + (x - o) / 64], g[h + (x - o) % 64],
                                beta[h + rowStart + (x - o) / 64], (x - o) % 64 < chunkLen)
    {
      var i, j := (x - o) / 64, (x - o) % 64;
      assert mask[m + (x - o)] == (g[h + rowStart + i] < g[h + j]);
      assert (8 * i + j % 8) / 8 == i;
      assert scratch[s + 8 * i + (x - o) % 8] == A.times(beta[h + rowStart + i], A.exp(g[h + rowStart + i]));
      assert negG[n + j] == Column(A, g[h + j], j < chunkLen);
    }
  }

  /** One head: every active position of the output tile holds its factor. */
  method PrepareHeadFactor(g: array<real>, beta: array<real>, chunkLen: int, rowStart: int, rowCount: int,
                           A: Arithmetic, negG: array<real>, scratch: array<real>, mask: array<bool>,
                           output: array<real>, o: int)
    requires SingleShape(chunkLen, rowStart, rowCount) && Distinct(g, beta, negG, scratch, output)
    requires Window(g, 0, 64) && Window(beta, 0, 64) && Window(negG, 0, 64) && Window(scratch, 0, 512)
    requires mask.Length >= KKT_ELEMS && Window(output, o, KKT_ELEMS)
    modifies negG, scratch, mask, output
    ensures forall x :: o <= x < o + 64 * rowCount ==>
      output[x] == Cell(A, g[rowStart + (x - o) / 64], g[(x - o) % 64], beta[rowStart + (x - o) / 64],
                        (x - o) % 64 < chunkLen)
    ensures forall x :: 0 <= x < output.Length && !(o <= x < o + 64 * rowCount) ==> output[x] == old(output[x])
  {
    MaskAndColumns(g, chunkLen, rowStart, rowCount, A, negG, scratch, mask);
    RowFactors(g, beta, rowStart, rowCount, A, scratch, output, o);
    ApplyFactors(g, beta, 0, chunkLen, rowStart, rowCount, A, negG, 0, scratch, 0, mask, 0, output, o);
  }

  // ---------------------------------------------------------------- two heads at once

  method PairBroadcast(g: array<real>, rowCount: int, negG: array<real>, scratch: array<real>)
    requires 1 <= rowCount <= 64 && Window(g, 0, 128) && Window(negG, 0, 128) && Window(scratch, 0, 1024)
    requires g != negG && g != scratch && negG != scratch
    modifies negG, scratch
    ensures forall j :: 0 <= j < 128 ==> negG[j] == g[j] * -1.0
    ensures forall y :: 0 <= y < 8 * rowCount ==> scratch[y] == g[y / 8]
    ensures forall y :: 512 <= y < 512 + 8 * rowCount ==> scratch[y] == g[64 + (y - 512) / 8]
  {
    Muls(negG, g, 0, -1.0, 2 * ROW_ELEMS);
    BroadcastPair(g, rowCount, scratch);
  }

  method BroadcastPair(g: array<real>, rowCount: int, scratch: array<real>)
    requires 1 <= rowCount <= 64 && Window(g, 0, 128) && Window(scratch, 0, 1024) && g != scratch
    modifies scratch
    ensures forall y :: 0 <= y < 8 * rowCount ==> scratch[y] == g[y / 8]
    ensures forall y :: 512 <= y < 512 + 8 * rowCount ==> scratch[y] == g[64 + (y - 512) / 8]
  {
    if rowCount == ROW_ELEMS {
      Brcb(scratch, 0, g, 0, 16);
      forall y | 512 <= y < 1024
        ensures scratch[y] == g[64 + (y - 512) / 8]
      {
        assert (y - 0) / 8 == 64 + (y - 512) / 8;
      }
    } else {
      Brcb(scratch, 0, g, 0, Blocks(rowCount));
      Brcb(scratch, 512, g, 64, Blocks(rowCount));
    }
  }

  method PairCompare(g: array<real>, rowCount: int, scratch: array<real>, mask: array<bool>)
    requires 1 <= rowCount <= 64 && Window(g, 0, 128) && Window(scratch, 0, 1024)
    requires mask.Length >= 2 * KKT_ELEMS && g != scratch
    requires forall y :: 0 <= y < 8 * rowCount ==> scratch[y] == g[y / 8]
    requires forall y :: 512 <= y < 512 + 8 * rowCount ==> scratch[y] == g[64 + (y - 512) / 8]
    modifies mask
    ensures forall x :: 0 <= x < 64 * rowCount ==> mask[x] == (g[x / 64] < g[x % 64])
    ensures forall x :: 4096 <= x < 4096 + 64 * rowCount ==>
      mask[x] == (g[64 + (x - 4096) / 64] < g[64 + (x - 4096) % 64])
  {
    CompareBroadcast(g, 0, 0, rowCount, scratch, 0, mask, 0);
    CompareBroadcast(g, 64, 0, rowCount, scratch, 512, mask, 4096);
  }

  method PairColumns(g: array<real>, chunkLen: int, A: Arithmetic, negG: array<real>)
    requires 1 <= chunkLen <= 64 && Window(g, 0, 128) && Window(negG, 0, 128) && g != negG
    requires forall j :: 0 <= j < 128 ==> negG[j] == g[j] * -1.0
    modifies negG
    ensures forall j :: 0 <= j < 64 ==> negG[j] == Column(A, g[j], j < chunkLen)
    ensures forall j :: 64 <= j < 128 ==> negG[j] == Column(A, g[j], j - 64 < chunkLen)
  {
    Exp(negG, 0, negG, 0, chunkLen, A);
    Exp(negG, 64, negG, 64, chunkLen, A);
  }

  method PairMasksAndColumns(g: array<real>, chunkLen: int, rowCount: int, A: Arithmetic,
                             negG: array<real>, scratch: array<real>, mask: array<bool>)
    requires 1 <= rowCount <= chunkLen <= 64
    requires Window(g, 0, 128) && Window(negG, 0, 128) && Window(scratch, 0, 1024)
    requires mask.Length >= 2 * KKT_ELEMS && g != negG && g != scratch && negG != scratch
    modifies negG, scratch, mask
    ensures forall j :: 0 <= j < 64 ==> negG[j] == Column(A, g[j], j < chunkLen)
    ensures forall j :: 64 <= j < 128 ==> negG[j] == Column(A, g[j], j - 64 < chunkLen)
    ensures forall x :: 0 <= x < 64 * rowCount ==> mask[x] == (g[x / 64] < g[x % 64])
    ensures forall x :: 4096 <= x < 4096 + 64 * rowCount ==>
      mask[x] == (g[64 + (x - 4096) / 64] < g[64 + (x - 4096) % 64])
  {
    PairBroadcast(g, rowCount, negG, scratch);
    PairCompare(g, rowCount, scratch, mask);
    PairColumns(g, chunkLen, A, negG);
  }

  // The compact row factors of both heads, in the two output prefixes; scratch holds beta meanwhile.
  method PairCompact(g: array<real>, beta: array<real>, rowCount: int, A: Arithmetic,
                     scratch: array<real>, output: array<real>, o0: int, o1: int)
    requires 1 <= rowCount <= 64
    requires Window(g, 0, 128) && Window(beta, 0, 128) && Window(scratch, 0, 1024)
    requires Window(output, o0, 64) && Window(output, o1, 64) && (o0 + 64 <= o1 || o1 + 64 <= o0)
    requires g != scratch && g != output && beta != scratch && beta != output && scratch != output
    modifies scratch, output
    ensures forall x :: o0 <= x < o0 + rowCount ==> output[x] == A.times(beta[x - o0], A.exp(g[x - o0]))
    ensures forall x :: o1 <= x < o1 + rowCount ==> output[x] == A.times(beta[64 + x - o1], A.exp(g[64 + x - o1]))
    ensures forall x :: 0 <= x < output.Length && !(o0 <= x < o0 + rowCount) && !(o1 <= x < o1 + rowCount) ==>
      output[x] == old(output[x])
  {
    Cast(scratch, 0, beta, 0, 2 * ROW_ELEMS);
    Exp(output, o0, g, 0, rowCount, A);
    Exp(output, o1, g, 64, rowCount, A);
    MulInto(output, o0, scratch, 0, rowCount, A);
    MulInto(output, o1, scratch, 64, rowCount, A);
  }

  method PairRowFactors(g: array<real>, beta: array<real>, rowCount: int, A: Arithmetic,
                        scratch: array<real>, output: array<real>, o0: int, o1: int)
    requires 1 <= rowCount <= 64
    requires Window(g, 0, 128) && Window(beta, 0, 128) && Window(scratch, 0, 1024)
    requires Window(output, o0, 64) && Window(output, o1, 64) && (o0 + 64 <= o1 || o1 + 64 <= o0)
    requires g != scratch && g != output && beta != scratch && beta != output && scratch != output
    modifies scratch, output
    ensures forall y :: 0 <= y < 8 * rowCount ==> scratch[y] == A.times(beta[y / 8], A.exp(g[y / 8]))
    ensures forall y :: 512 <= y < 512 + 8 * rowCount ==>
      scratch[y] == A.times(beta[64 + (y - 512) / 8], A.exp(g[64 + (y - 512) / 8]))
    ensures forall x :: 0 <= x < output.Length && !(o0 <= x < o0 + 64) && !(o1 <= x < o1 + 64) ==>
      output[x] == old(output[x])
  {
    PairCompact(g, beta, rowCount, A, scratch, output, o0, o1);
    Brcb(scratch, 0, output, o0, Blocks(rowCount));
    assert forall y :: 0 <= y < 8 * rowCount ==> scratch[y] == output[o0 + y / 8];
    Brcb(scratch, 512, output, o1, Blocks(rowCount));
    assert forall y :: 512 <= y < 512 + 8 * rowCount ==> scratch[y] == output[o1 + (y - 512) / 8];
  }

  /** Two heads sharing the scratch buffer: each tile holds its own head's factors. */
  method PrepareHeadPairFactor(g: array<real>, beta: array<real>, chunkLen: int, rowCount: int,
                               A: Arithmetic, negG: array<real>, scratch: array<real>, mask: array<bool>,
                               output: array<real>, o0: int, o1: int)
    requires 1 <= rowCount <= chunkLen <= 64 && Distinct(g, beta, negG, scratch, output)
    requires Window(g, 0, 128) && Window(beta, 0, 128) && Window(negG, 0, 128) && Window(scratch, 0, 1024)
    requires mask.Length >= 2 * KKT_ELEMS && Window(output, o0, KKT_ELEMS) && Window(output, o1, KKT_ELEMS)
    requires o0 + KKT_ELEMS <= o1 || o1 + KKT_ELEMS <= o0
    modifies negG, scratch, mask, output
    ensures forall x :: o0 <= x < o0 + 64 * rowCount ==> output[x] == CellAt(A, g[..], beta[..], 0, chunkLen, x - o0)
    ensures forall x :: o1 <= x < o1 + 64 * rowCount ==> output[x] == CellAt(A, g[..], beta[..], 64, chunkLen, x - o1)
    ensures forall x :: 0 <= x < output.Length ==>
      output[x] == old(output[x]) || o0 <= x < o0 + 64 * rowCount || o1 <= x < o1 + 64 * rowCount
  {
    PairMasksAndColumns(g, chunkLen, rowCount, A, negG, scratch, mask);
    PairRowFactors(g, beta, rowCount, A, scratch, output, o0, o1);
    ApplyFactors(g, beta, 0, chunkLen, 0, rowCount, A, negG, 0, scratch, 0, mask, 0, output, o0);
    ApplyFactors(g, beta, 64, chunkLen, 0, rowCount, A, negG, 64, scratch, 512, mask, 4096, output, o1);
  }
}
