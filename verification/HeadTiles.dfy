/** From loads to a finished output tile: the vector lane's array pipeline for one head or two, against
    the formula. */
module HeadTiles {
  import opened VectorOps
  import opened VectorArithmetic
  import opened Factor
  import opened TileLoad
  import opened Semantics
  import opened Schedule
  import FactorV03

  // A chunk of the input and a head (or two) of it.
  ghost predicate Batch(x: Inputs, head: int, heads: int, start: int, chunkLen: int) {
    && Shaped(x) && 0 <= head && 1 <= heads <= 2 && head + heads <= Heads(x)
    && 0 <= start && start + chunkLen <= x.t && 1 <= chunkLen <= 64
  }

  /** The gates of head h (0 or 1) of a batch, padded to 64 columns. */
  ghost function Padded(x: Inputs, head: int, start: int, chunkLen: int, j: int, beta: bool): real
    requires Batch(x, head, 1, start, chunkLen) && 0 <= j
  {
    if j >= chunkLen then 0.0 else if beta then Beta(x, head, start + j) else Gate(x, head, start + j)
  }

  lemma BatchReadable(x: Inputs, head: int, heads: int, start: int, chunkLen: int, src: seq<real>)
    requires Batch(x, head, heads, start, chunkLen) && (src == x.g || src == x.beta)
    ensures BatchShape(src, GateAt(head, start, x.t), x.t, chunkLen, heads)
  {
    forall b | 0 <= b < heads
      ensures 0 <= Source(GateAt(head, start, x.t), x.t, b)
      ensures Source(GateAt(head, start, x.t), x.t, b) + chunkLen <= |src|
    {
      GateInside(head + b, start, x.t, Heads(x));
      GateInside(head + b, start + chunkLen - 1, x.t, Heads(x));
      assert (head + b) * x.t == head * x.t + b * x.t;
    }
  }

  // Position y of a loaded batch: 64 columns a head.
  ghost function BatchCell(x: Inputs, head: int, heads: int, start: int, chunkLen: int, y: int, beta: bool): real
    requires Batch(x, head, heads, start, chunkLen) && 0 <= y < 64 * heads
  {
    Padded(x, head + y / 64, start, chunkLen, y % 64, beta)
  }

  // The loaded batch holds the padded gates of each of its heads.
  lemma LoadedGates(x: Inputs, head: int, heads: int, start: int, chunkLen: int, y: int, beta: bool)
    requires Batch(x, head, heads, start, chunkLen) && 0 <= y < 64 * heads
    ensures
      var src, base := if beta then x.beta else x.g, GateAt(head, start, x.t);
      && InSource(src, base, x.t, y / 64 + 1, chunkLen)
      && GateCell(src, base, x.t, chunkLen, y) == BatchCell(x, head, heads, start, chunkLen, y, beta)
  {
    var h, j := y / 64, y % 64;
    BatchReadable(x, head, heads, start, chunkLen, if beta then x.beta else x.g);
    assert (head + h) * x.t == head * x.t + h * x.t;
    if j < chunkLen {
      GateInside(head + h, start + j, x.t, Heads(x));
    }
  }

  /** Head h of a batch reaches the lane: the second head's gates do while the stride between two heads
      fits its 32-bit byte field, which four-byte gates fill first. */
  predicate Arrives(x: Inputs, chunkLen: int, h: int) { h == 0 || StrideFits(x.t, chunkLen, 4) }

  // Position y as the copy reads it: gates are four bytes wide, betas two.
  ghost function ReadCell(x: Inputs, head: int, heads: int, start: int, chunkLen: int, y: int, beta: bool): real
    requires Batch(x, head, heads, start, chunkLen) && 0 <= y < 64 * heads
  {
    var src, bytes := if beta then x.beta else x.g, if beta then 2 else 4;
    BatchReadable(x, head, heads, start, chunkLen, src);
    TruncatedInSource(src, GateAt(head, start, x.t), x.t, chunkLen, heads, bytes);
    GateCell(src, GateAt(head, start, x.t), HeadStride(x.t, chunkLen, bytes), chunkLen, y)
  }

  method LoadOne(dst: array<real>, x: Inputs, head: int, heads: int, start: int, chunkLen: int, beta: bool)
    requires Batch(x, head, heads, start, chunkLen) && Window(dst, 0, 128)
    modifies dst
    ensures forall y :: 0 <= y < 64 * heads ==> dst[y] == ReadCell(x, head, heads, start, chunkLen, y, beta)
    ensures forall y :: 0 <= y < 64 * heads && Arrives(x, chunkLen, y / 64) ==>
      dst[y] == BatchCell(x, head, heads, start, chunkLen, y, beta)
  {
    ghost var src := if beta then x.beta else x.g;
    ghost var bytes := if beta then 2 else 4;
    BatchReadable(x, head, heads, start, chunkLen, src);
    TruncatedInSource(src, GateAt(head, start, x.t), x.t, chunkLen, heads, bytes);
    if beta {
      LoadBatch(dst, x.beta, GateAt(head, start, x.t), x.t, chunkLen, heads, 2, 16);
    } else {
      LoadBatch(dst, x.g, GateAt(head, start, x.t), x.t, chunkLen, heads, 4, 8);
    }
    forall y | 0 <= y < 64 * heads && Arrives(x, chunkLen, y / 64)
      ensures dst[y] == BatchCell(x, head, heads, start, chunkLen, y, beta)
    {
      RightHead(src, GateAt(head, start, x.t), x.t, chunkLen, heads, bytes, y);
      LoadedGates(x, head, heads, start, chunkLen, y, beta);
    }
  }

  // The factor of row i, column j before the KKT multiply.
  ghost function RawCell(x: Inputs, head: int, start: int, chunkLen: int, i: int, j: int): real
    requires Batch(x, head, 1, start, chunkLen) && 0 <= i && 0 <= j
  {
    Cell(x.A, Padded(x, head, start, chunkLen, i, false), Padded(x, head, start, chunkLen, j, false),
         Padded(x, head, start, chunkLen, i, true), j < chunkLen)
  }

  /** KKT times the factorised factor is the formula: inside the chunk by the law of the exponential, beyond it
      because the Gram tile is zero there. */
  lemma CellIsFormula(x: Inputs, head: int, start: int, chunkLen: int, i: int, j: int, kkt: real, factor: real, value: real)
    requires Batch(x, head, 1, start, chunkLen) && GatesLaw(x) && 0 <= i < chunkLen && 0 <= j < 64
    requires kkt == Gram(x, start, chunkLen, KvOf(x, head), i, j)
    requires factor == RawCell(x, head, start, chunkLen, i, j)
    requires value == Formula(x, head, start, start + chunkLen, i, j)
    ensures x.A.times(kkt, factor) == value
  {
    GramIsDot(x, start, chunkLen, KvOf(x, head), i, j);
    if j < chunkLen {
      LawAt(x, head, start + i, start + j);
      CellValue(x.A, Gate(x, head, start + i), Gate(x, head, start + j), Beta(x, head, start + i), kkt, factor, value);
    } else {
      assert Absorbs(x.A, factor);
    }
  }

  lemma LawAt(x: Inputs, head: int, i: int, j: int)
    requires Shaped(x) && GatesLaw(x) && 0 <= head < Heads(x) && 0 <= i < x.t && 0 <= j < x.t
    ensures DifferenceLaw(x.A, Gate(x, head, i), Gate(x, head, j))
  {
    GateInside(head, i, x.t, Heads(x));
    GateInside(head, j, x.t, Heads(x));
    assert Gate(x, head, i) in x.g && Gate(x, head, j) in x.g;
  }

  // A tile's shape.
  ghost predicate TileShape(x: Inputs, head: int, start: int, chunkLen: int, rowStart: int, rowCount: int) {
    Batch(x, head, 1, start, chunkLen) && 0 <= rowStart && 1 <= rowCount && rowStart + rowCount <= chunkLen
  }

  // Position y of the tile: its KKT value, its factor before the multiply, ...
  ghost function GramAt(x: Inputs, head: int, start: int, chunkLen: int, rowStart: int, rowCount: int, y: int): real
    requires TileShape(x, head, start, chunkLen, rowStart, rowCount) && 0 <= y < 64 * rowCount
  {
    Gram(x, start, chunkLen, KvOf(x, head), rowStart + y / 64, y % 64)
  }

  ghost function RawAt(x: Inputs, head: int, start: int, chunkLen: int, rowStart: int, rowCount: int, y: int): real
    requires TileShape(x, head, start, chunkLen, rowStart, rowCount) && 0 <= y < 64 * rowCount
  {
    RawCell(x, head, start, chunkLen, rowStart + y / 64, y % 64)
  }

  /** ... and its finished value. */
  ghost function TileCell(x: Inputs, head: int, start: int, chunkLen: int, rowStart: int, rowCount: int, y: int): real
    requires TileShape(x, head, start, chunkLen, rowStart, rowCount) && 0 <= y < 64 * rowCount
  {
    Formula(x, head, start, start + chunkLen, rowStart + y / 64, y % 64)
  }

  // The workspace slot holds the Gram tile of the task.
  ghost predicate HoldsGram(slot: seq<real>, x: Inputs, start: int, chunkLen: int, kv: int)
    requires Shaped(x) && 0 <= start && start + chunkLen <= x.t && 0 <= kv < x.hg
  {
    |slot| == KKT_ELEMS
    && forall y :: 0 <= y < KKT_ELEMS ==> slot[y] == Gram(x, start, chunkLen, kv, y / 64, y % 64)
  }

  // Whatever the UB tile held, its active rows now hold the slot's rows.
  method LoadTile(kkt: array<real>, slot: seq<real>, x: Inputs, head: int, start: int, chunkLen: int, rowStart: int, rowCount: int)
    requires Batch(x, head, 1, start, chunkLen) && SingleShape(chunkLen, rowStart, rowCount)
    requires HoldsGram(slot, x, start, chunkLen, KvOf(x, head)) && Window(kkt, 0, KKT_ELEMS)
    modifies kkt
    ensures forall y :: 0 <= y < 64 * rowCount ==>
      kkt[y] == GramAt(x, head, start, chunkLen, rowStart, rowCount, y)
  {
    BeginLoadKktSlot(kkt, slot, chunkLen, rowStart, rowCount);
    forall y | 0 <= y < 64 * rowCount
      ensures kkt[y] == GramAt(x, head, start, chunkLen, rowStart, rowCount, y)
    {
      var z := 64 * rowStart + y;
      assert z / 64 == rowStart + y / 64 && z % 64 == y % 64;
      assert slot[z] == Gram(x, start, chunkLen, KvOf(x, head), z / 64, z % 64);
      GramIsDot(x, start, chunkLen, KvOf(x, head), z / 64, z % 64);
    }
  }

  // The distinct buffers of a lane, all but the output.
  predicate Buffers(kkt: array<real>, g: array<real>, beta: array<real>, negG: array<real>, scratch: array<real>,
                    mask: array<bool>, output: array<real>)
  {
    && Distinct(g, beta, negG, scratch, output)
    && kkt != g && kkt != beta && kkt != negG && kkt != scratch && kkt != output
    && Window(kkt, 0, KKT_ELEMS) && Window(g, 0, 128) && Window(beta, 0, 128) && Window(negG, 0, 128)
    && Window(scratch, 0, 1024) && mask.Length >= 2 * KKT_ELEMS && output.Length == 4 * KKT_ELEMS
  }

  ghost predicate GatesLoaded(x: Inputs, head: int, heads: int, start: int, chunkLen: int, g: seq<real>, beta: seq<real>)
    requires Batch(x, head, heads, start, chunkLen)
  {
    && |g| >= 128 && |beta| >= 128
    && (forall y :: 0 <= y < 64 * heads && Arrives(x, chunkLen, y / 64) ==>
          g[y] == BatchCell(x, head, heads, start, chunkLen, y, false))
    && (forall y :: 0 <= y < 64 * heads && Arrives(x, chunkLen, y / 64) ==>
          beta[y] == BatchCell(x, head, heads, start, chunkLen, y, true))
  }

  // A factor built from the loaded gates of head h of the batch.
  lemma FactorIsRaw(x: Inputs, head: int, heads: int, h: int, start: int, chunkLen: int, g: seq<real>, beta: seq<real>,
                    i: int, j: int)
    requires Batch(x, head, heads, start, chunkLen) && GatesLoaded(x, head, heads, start, chunkLen, g, beta)
    requires 0 <= h < heads && Arrives(x, chunkLen, h) && 0 <= i < 64 && 0 <= j < 64
    ensures Cell(x.A, g[64 * h + i], g[64 * h + j], beta[64 * h + i], j < chunkLen)
         == RawCell(x, head + h, start, chunkLen, i, j)
  {
    assert (64 * h + i) / 64 == h && (64 * h + i) % 64 == i;
    assert (64 * h + j) / 64 == h && (64 * h + j) % 64 == j;
  }

  method LoadGates(x: Inputs, head: int, heads: int, start: int, chunkLen: int, g: array<real>, beta: array<real>)
    requires Batch(x, head, heads, start, chunkLen) && Window(g, 0, 128) && Window(beta, 0, 128) && g != beta
    modifies g, beta
    ensures GatesLoaded(x, head, heads, start, chunkLen, g[..], beta[..])
  {
    LoadOne(g, x, head, heads, start, chunkLen, false);
    LoadOne(beta, x, head, heads, start, chunkLen, true);
  }

  // The final multiply: where the two factors' products are known, so is the result, if the factors are
  // right.
  method FinalMul(kkt: array<real>, output: array<real>, o: int, count: int,
                  A: Arithmetic, ghost right: bool,
                  ghost gram: seq<real>, ghost factor: seq<real>, ghost value: seq<real>)
    requires 0 <= count <= KKT_ELEMS && Window(kkt, 0, KKT_ELEMS) && Window(output, o, KKT_ELEMS) && kkt != output
    requires |gram| == |factor| == |value| == count
    requires forall y :: 0 <= y < count ==> kkt[y] == gram[y]
    requires right ==> forall z :: o <= z < o + count ==> output[z] == factor[z - o]
    requires forall y :: 0 <= y < count ==> A.times(gram[y], factor[y]) == value[y]
    modifies output
    ensures right ==> forall z :: o <= z < o + count ==> output[z] == value[z - o]
    ensures forall z :: 0 <= z < output.Length && !(o <= z < o + count) ==> output[z] == old(output[z])
  {
    MulInto(output, o, kkt, 0, count, A);
    forall z | right && o <= z < o + count
      ensures output[z] == value[z - o]
    {
      var y := z - o;
      assert kkt[0 + y] == gram[y] && A.times(gram[y], factor[y]) == value[y];
    }
  }

  // The tile's KKT rows, its factors and its finished values, position by position.
  ghost function GramSeq(x: Inputs, head: int, start: int, chunkLen: int, rowStart: int, rowCount: int): (s: seq<real>)
    requires TileShape(x, head, start, chunkLen, rowStart, rowCount)
    ensures |s| == 64 * rowCount
    ensures forall y :: 0 <= y < |s| ==> s[y] == GramAt(x, head, start, chunkLen, rowStart, rowCount, y)
  {
    seq(64 * rowCount, y requires 0 <= y < 64 * rowCount => GramAt(x, head, start, chunkLen, rowStart, rowCount, y))
  }

  ghost function RawSeq(x: Inputs, head: int, start: int, chunkLen: int, rowStart: int, rowCount: int): (s: seq<real>)
    requires TileShape(x, head, start, chunkLen, rowStart, rowCount)
    ensures |s| == 64 * rowCount
    ensures forall y :: 0 <= y < |s| ==> s[y] == RawAt(x, head, start, chunkLen, rowStart, rowCount, y)
  {
    seq(64 * rowCount, y requires 0 <= y < 64 * rowCount => RawAt(x, head, start, chunkLen, rowStart, rowCount, y))
  }

  ghost function TileSeq(x: Inputs, head: int, start: int, chunkLen: int, rowStart: int, rowCount: int): (s: seq<real>)
    requires TileShape(x, head, start, chunkLen, rowStart, rowCount)
    ensures |s| == 64 * rowCount
    ensures forall y :: 0 <= y < |s| ==> s[y] == TileCell(x, head, start, chunkLen, rowStart, rowCount, y)
  {
    seq(64 * rowCount, y requires 0 <= y < 64 * rowCount => TileCell(x, head, start, chunkLen, rowStart, rowCount, y))
  }

  lemma ProductIsTile(x: Inputs, head: int, start: int, chunkLen: int, rowStart: int, rowCount: int,
                      gram: seq<real>, factor: seq<real>, value: seq<real>)
    requires TileShape(x, head, start, chunkLen, rowStart, rowCount) && GatesLaw(x)
    requires |gram| == |factor| == |value| == 64 * rowCount
    requires forall y :: 0 <= y < |gram| ==> gram[y] == GramAt(x, head, start, chunkLen, rowStart, rowCount, y)
    requires forall y :: 0 <= y < |factor| ==> factor[y] == RawAt(x, head, start, chunkLen, rowStart, rowCount, y)
    requires forall y :: 0 <= y < |value| ==> value[y] == TileCell(x, head, start, chunkLen, rowStart, rowCount, y)
    ensures forall y :: 0 <= y < 64 * rowCount ==> x.A.times(gram[y], factor[y]) == value[y]
  {
    forall y | 0 <= y < 64 * rowCount
      ensures x.A.times(gram[y], factor[y]) == value[y]
    {
      ProductAt(x, head, start, chunkLen, rowStart, rowCount, y, gram[y], factor[y], value[y]);
    }
  }

  lemma RowColumn(y: int, rowCount: int)
    requires 0 <= y < 64 * rowCount
    ensures 0 <= y / 64 < rowCount && 0 <= y % 64 < 64
  {}

  lemma ProductAt(x: Inputs, head: int, start: int, chunkLen: int, rowStart: int, rowCount: int, y: int,
                  kkt: real, factor: real, value: real)
    requires TileShape(x, head, start, chunkLen, rowStart, rowCount) && GatesLaw(x) && 0 <= y < 64 * rowCount
    requires kkt == GramAt(x, head, start, chunkLen, rowStart, rowCount, y)
    requires factor == RawAt(x, head, start, chunkLen, rowStart, rowCount, y)
    requires value == TileCell(x, head, start, chunkLen, rowStart, rowCount, y)
    ensures x.A.times(kkt, factor) == value
  {
    RowColumn(y, rowCount);
    CellIsFormula(x, head, start, chunkLen, rowStart + y / 64, y % 64, kkt, factor, value);
  }

  // FinalMul on one head's tile.
  method FinishTile(x: Inputs, head: int, start: int, chunkLen: int, rowStart: int, rowCount: int,
                    kkt: array<real>, output: array<real>, o: int, ghost right: bool)
    requires TileShape(x, head, start, chunkLen, rowStart, rowCount) && GatesLaw(x)
    requires Window(kkt, 0, KKT_ELEMS) && Window(output, o, KKT_ELEMS) && kkt != output
    requires forall y :: 0 <= y < 64 * rowCount ==>
      kkt[y] == GramAt(x, head, start, chunkLen, rowStart, rowCount, y)
    requires right ==> forall z :: o <= z < o + 64 * rowCount ==>
      output[z] == RawAt(x, head, start, chunkLen, rowStart, rowCount, z - o)
    modifies output
    ensures right ==> forall z :: o <= z < o + 64 * rowCount ==>
      output[z] == TileCell(x, head, start, chunkLen, rowStart, rowCount, z - o)
    ensures forall z :: 0 <= z < output.Length && !(o <= z < o + 64 * rowCount) ==> output[z] == old(output[z])
  {
    ghost var gram := GramSeq(x, head, start, chunkLen, rowStart, rowCount);
    ghost var raw := RawSeq(x, head, start, chunkLen, rowStart, rowCount);
    ghost var value := TileSeq(x, head, start, chunkLen, rowStart, rowCount);
    ProductIsTile(x, head, start, chunkLen, rowStart, rowCount, gram, raw, value);
    FinalMul(kkt, output, o, rowCount * ROW_ELEMS, x.A, right, gram, raw, value);
  }

  method SingleFactor(x: Inputs, head: int, start: int, chunkLen: int, rowStart: int, rowCount: int,
                      g: array<real>, beta: array<real>, negG: array<real>, scratch: array<real>, mask: array<bool>,
                      output: array<real>, o: int)
    requires Batch(x, head, 1, start, chunkLen) && SingleShape(chunkLen, rowStart, rowCount)
    requires GatesLoaded(x, head, 1, start, chunkLen, g[..], beta[..]) && Distinct(g, beta, negG, scratch, output)
    requires Window(negG, 0, 64) && Window(scratch, 0, 512) && mask.Length >= KKT_ELEMS && Window(output, o, KKT_ELEMS)
    modifies negG, scratch, mask, output
    ensures forall z :: o <= z < o + 64 * rowCount ==>
      output[z] == RawAt(x, head, start, chunkLen, rowStart, rowCount, z - o)
    ensures forall z :: 0 <= z < output.Length && !(o <= z < o + 64 * rowCount) ==> output[z] == old(output[z])
  {
    PrepareHeadFactor(g, beta, chunkLen, rowStart, rowCount, x.A, negG, scratch, mask, output, o);
    forall z | o <= z < o + 64 * rowCount
      ensures output[z] == RawAt(x, head, start, chunkLen, rowStart, rowCount, z - o)
    {
      FactorIsRaw(x, head, 1, 0, start, chunkLen, g[..], beta[..], rowStart + (z - o) / 64, (z - o) % 64);
    }
  }

  /** One head, end to end over the lane's buffers: whatever they held, the output tile holds the
      formula. */
  method SingleTile(x: Inputs, slot: seq<real>, head: int, start: int, chunkLen: int, rowStart: int, rowCount: int,
                    kkt: array<real>, g: array<real>, beta: array<real>, negG: array<real>, scratch: array<real>,
                    mask: array<bool>, output: array<real>, o: int)
    requires Batch(x, head, 1, start, chunkLen) && GatesLaw(x) && SingleShape(chunkLen, rowStart, rowCount)
    requires HoldsGram(slot, x, start, chunkLen, KvOf(x, head))
    requires Buffers(kkt, g, beta, negG, scratch, mask, output) && Window(output, o, KKT_ELEMS)
    modifies kkt, g, beta, negG, scratch, mask, output
    ensures forall z :: o <= z < o + 64 * rowCount ==>
      output[z] == TileCell(x, head, start, chunkLen, rowStart, rowCount, z - o)
    ensures forall z :: 0 <= z < output.Length && !(o <= z < o + 64 * rowCount) ==> output[z] == old(output[z])
  {
    LoadGates(x, head, 1, start, chunkLen, g, beta);
    LoadTile(kkt, slot, x, head, start, chunkLen, rowStart, rowCount);
    SingleFactor(x, head, start, chunkLen, rowStart, rowCount, g, beta, negG, scratch, mask, output, o);
    FinishTile(x, head, start, chunkLen, rowStart, rowCount, kkt, output, o, true);
  }

  method PairFactor(x: Inputs, head: int, start: int, chunkLen: int, rowCount: int,
                    g: array<real>, beta: array<real>, negG: array<real>, scratch: array<real>, mask: array<bool>,
                    output: array<real>, o0: int, o1: int)
    requires Batch(x, head, 2, start, chunkLen) && 1 <= rowCount <= chunkLen
    requires GatesLoaded(x, head, 2, start, chunkLen, g[..], beta[..]) && Distinct(g, beta, negG, scratch, output)
    requires Window(negG, 0, 128) && Window(scratch, 0, 1024) && mask.Length >= 2 * KKT_ELEMS
    requires Window(output, o0, KKT_ELEMS) && Window(output, o1, KKT_ELEMS)
    requires o0 + KKT_ELEMS <= o1 || o1 + KKT_ELEMS <= o0
    modifies negG, scratch, mask, output
    ensures forall z :: o0 <= z < o0 + 64 * rowCount ==>
      output[z] == RawAt(x, head, start, chunkLen, 0, rowCount, z - o0)
    ensures Arrives(x, chunkLen, 1) ==> forall z :: o1 <= z < o1 + 64 * rowCount ==>
      output[z] == RawAt(x, head + 1, start, chunkLen, 0, rowCount, z - o1)
    ensures forall z :: 0 <= z < output.Length ==>
      output[z] == old(output[z]) || o0 <= z < o0 + 64 * rowCount || o1 <= z < o1 + 64 * rowCount
  {
    PrepareHeadPairFactor(g, beta, chunkLen, rowCount, x.A, negG, scratch, mask, output, o0, o1);
    RawTileIs(x, head, 2, 0, start, chunkLen, rowCount, g[..], beta[..], output[..], o0);
    if Arrives(x, chunkLen, 1) {
      RawTileIs(x, head, 2, 1, start, chunkLen, rowCount, g[..], beta[..], output[..], o1);
    }
  }

  lemma RawTileIs(x: Inputs, head: int, heads: int, h: int, start: int, chunkLen: int, rowCount: int,
                  g: seq<real>, beta: seq<real>, output: seq<real>, o: int)
    requires Batch(x, head, heads, start, chunkLen) && 1 <= rowCount <= chunkLen
    requires GatesLoaded(x, head, heads, start, chunkLen, g, beta)
    requires 0 <= h < heads && Arrives(x, chunkLen, h) && 0 <= o && o + 64 * rowCount <= |output|
    requires forall z :: o <= z < o + 64 * rowCount ==> output[z] == CellAt(x.A, g, beta, 64 * h, chunkLen, z - o)
    ensures forall z :: o <= z < o + 64 * rowCount ==>
      output[z] == RawAt(x, head + h, start, chunkLen, 0, rowCount, z - o)
  {
    forall z | o <= z < o + 64 * rowCount
      ensures output[z] == RawAt(x, head + h, start, chunkLen, 0, rowCount, z - o)
    {
      FactorIsRaw(x, head, heads, h, start, chunkLen, g, beta, (z - o) / 64, (z - o) % 64);
    }
  }

  /** Two heads of one KV group sharing the KKT tile and the scratch buffers: each output tile holds its
      own head's formula, the second one while the stride between the two heads fits. */
  method PairTile(x: Inputs, slot: seq<real>, head: int, start: int, chunkLen: int, rowCount: int,
                  kkt: array<real>, g: array<real>, beta: array<real>, negG: array<real>, scratch: array<real>,
                  mask: array<bool>, output: array<real>, o0: int, o1: int)
    requires Batch(x, head, 2, start, chunkLen) && GatesLaw(x) && 1 <= rowCount <= chunkLen
    requires KvOf(x, head) == KvOf(x, head + 1) && HoldsGram(slot, x, start, chunkLen, KvOf(x, head))
    requires Buffers(kkt, g, beta, negG, scratch, mask, output)
    requires Window(output, o0, KKT_ELEMS) && Window(output, o1, KKT_ELEMS)
    requires o0 + KKT_ELEMS <= o1 || o1 + KKT_ELEMS <= o0
    modifies kkt, g, beta, negG, scratch, mask, output
    ensures forall z :: o0 <= z < o0 + 64 * rowCount ==>
      output[z] == TileCell(x, head, start, chunkLen, 0, rowCount, z - o0)
    ensures Arrives(x, chunkLen, 1) ==> forall z :: o1 <= z < o1 + 64 * rowCount ==>
      output[z] == TileCell(x, head + 1, start, chunkLen, 0, rowCount, z - o1)
    ensures forall z :: 0 <= z < output.Length ==>
      output[z] == old(output[z]) || o0 <= z < o0 + 64 * rowCount || o1 <= z < o1 + 64 * rowCount
  {
    LoadGates(x, head, 2, start, chunkLen, g, beta);
    LoadTile(kkt, slot, x, head, start, chunkLen, 0, rowCount);
    PairFactor(x, head, start, chunkLen, rowCount, g, beta, negG, scratch, mask, output, o0, o1);
    FinishTile(x, head, start, chunkLen, 0, rowCount, kkt, output, o0, true);
    FinishTile(x, head + 1, start, chunkLen, 0, rowCount, kkt, output, o1, Arrives(x, chunkLen, 1));
  }

  // ---------------------------------------------------------------- v03's factor path

  /** What v03's path uses of the arithmetic: the released path's laws, and an exponential that is zero at
      the proxy of masked positions. */
  ghost predicate GatesLawV03(x: Inputs) { GatesLaw(x) && x.A.exp(FactorV03.NEGATIVE_INF_PROXY) == 0.0 }

  /** A true exponential that underflows at the proxy qualifies for all gates in range. */
  lemma UnderflowGatesLaw(x: Inputs, E: real -> real)
    requires Exponential(E) && x.A == RealArithmetic(FactorV03.Underflow(E))
    requires forall g :: g in x.g ==> FactorV03.InGateRange(g)
    ensures GatesLawV03(x)
  {
    FactorV03.UnderflowLaws(E, 0.0, 0.0);
    forall a, b | a in x.g && b in x.g
      ensures DifferenceLaw(x.A, a, b)
    {
      FactorV03.UnderflowLaws(E, a, b);
    }
  }

  /** The materialised-difference factor times KKT is the formula too, although the two factors disagree
      on padding columns. */
  lemma V03CellIsFormula(x: Inputs, head: int, start: int, chunkLen: int, i: int, j: int, kkt: real, factor: real, value: real)
    requires Batch(x, head, 1, start, chunkLen) && GatesLawV03(x)
    requires 0 <= i < chunkLen && 0 <= j < 64
    requires kkt == Gram(x, start, chunkLen, KvOf(x, head), i, j)
    requires factor == V03Cell(x, head, start, chunkLen, i, j)
    requires value == Formula(x, head, start, start + chunkLen, i, j)
    ensures x.A.times(kkt, factor) == value
  {
    GramIsDot(x, start, chunkLen, KvOf(x, head), i, j);
    if j < chunkLen {
      FactorV03.MaterialisedValue(x.A, Gate(x, head, start + i), Gate(x, head, start + j), Beta(x, head, start + i),
                                  kkt, factor, value);
    } else {
      assert Absorbs(x.A, factor);
    }
  }

  /** v03's single-head tile over the same buffers holds the same values as the released one. */
  method SingleTileV03(x: Inputs, slot: seq<real>, head: int, start: int, chunkLen: int, rowStart: int, rowCount: int,
                       kkt: array<real>, g: array<real>, beta: array<real>, negG: array<real>, scratch: array<real>,
                       mask: array<bool>, output: array<real>)
    requires Batch(x, head, 1, start, chunkLen) && GatesLawV03(x)
    requires SingleShape(chunkLen, rowStart, rowCount) && HoldsGram(slot, x, start, chunkLen, KvOf(x, head))
    requires Buffers(kkt, g, beta, negG, scratch, mask, output)
    modifies kkt, g, beta, negG, scratch, mask, output
    ensures forall z :: 0 <= z < 64 * rowCount ==>
      output[z] == TileCell(x, head, start, chunkLen, rowStart, rowCount, z)
  {
    LoadGates(x, head, 1, start, chunkLen, g, beta);
    LoadTile(kkt, slot, x, head, start, chunkLen, rowStart, rowCount);
    FactorStageV03(x, head, start, chunkLen, rowStart, rowCount, g, beta, negG, scratch, mask, output);
    FinishV03(x, head, start, chunkLen, rowStart, rowCount, kkt, output, true);
  }

  // v03 keeps each head's output in a queue of its own.
  predicate BuffersV03(kkt: array<real>, g: array<real>, beta: array<real>, negG: array<real>, scratch: array<real>,
                       mask: array<bool>, output0: array<real>, output1: array<real>)
  {
    && Distinct(g, beta, negG, scratch, output0) && Distinct(g, beta, negG, scratch, output1) && output0 != output1
    && kkt != g && kkt != beta && kkt != negG && kkt != scratch && kkt != output0 && kkt != output1
    && Window(kkt, 0, KKT_ELEMS) && Window(g, 0, 128) && Window(beta, 0, 128) && Window(negG, 0, 128)
    && Window(scratch, 0, 1024) && mask.Length >= 2 * KKT_ELEMS
    && Window(output0, 0, KKT_ELEMS) && Window(output1, 0, KKT_ELEMS)
  }

  /** v03's two heads of one KV group: each output tile holds its own head's formula, the second one while
      the stride between the two heads fits. */
  method PairTileV03(x: Inputs, slot: seq<real>, head: int, start: int, chunkLen: int, rowStart: int, rowCount: int,
                     kkt: array<real>, g: array<real>, beta: array<real>, negG: array<real>, scratch: array<real>,
                     mask: array<bool>, output0: array<real>, output1: array<real>)
    requires Batch(x, head, 2, start, chunkLen) && GatesLawV03(x) && SingleShape(chunkLen, rowStart, rowCount)
    requires KvOf(x, head) == KvOf(x, head + 1) && HoldsGram(slot, x, start, chunkLen, KvOf(x, head))
    requires BuffersV03(kkt, g, beta, negG, scratch, mask, output0, output1)
    modifies kkt, g, beta, negG, scratch, mask, output0, output1
    ensures forall z :: 0 <= z < 64 * rowCount ==>
      output0[z] == TileCell(x, head, start, chunkLen, rowStart, rowCount, z)
    ensures Arrives(x, chunkLen, 1) ==> forall z :: 0 <= z < 64 * rowCount ==>
      output1[z] == TileCell(x, head + 1, start, chunkLen, rowStart, rowCount, z)
  {
    LoadGates(x, head, 2, start, chunkLen, g, beta);
    LoadTile(kkt, slot, x, head, start, chunkLen, rowStart, rowCount);
    PairFactorV03(x, head, start, chunkLen, rowStart, rowCount, g, beta, negG, scratch, mask, output0, output1);
    FinishV03(x, head, start, chunkLen, rowStart, rowCount, kkt, output0, true);
    FinishV03(x, head + 1, start, chunkLen, rowStart, rowCount, kkt, output1, Arrives(x, chunkLen, 1));
  }

  method PairFactorV03(x: Inputs, head: int, start: int, chunkLen: int, rowStart: int, rowCount: int,
                       g: array<real>, beta: array<real>, negG: array<real>, scratch: array<real>, mask: array<bool>,
                       output0: array<real>, output1: array<real>)
    requires Batch(x, head, 2, start, chunkLen) && SingleShape(chunkLen, rowStart, rowCount)
    requires GatesLoaded(x, head, 2, start, chunkLen, g[..], beta[..]) && output0 != output1
    requires Distinct(g, beta, negG, scratch, output0) && Distinct(g, beta, negG, scratch, output1)
    requires Window(negG, 0, 128) && Window(scratch, 0, 1024) && mask.Length >= 2 * KKT_ELEMS
    requires Window(output0, 0, KKT_ELEMS) && Window(output1, 0, KKT_ELEMS)
    modifies negG, scratch, mask, output0, output1
    ensures forall z :: 0 <= z < 64 * rowCount ==>
      output0[z] == V03At(x, head, start, chunkLen, rowStart, rowCount, z)
    ensures Arrives(x, chunkLen, 1) ==> forall z :: 0 <= z < 64 * rowCount ==>
      output1[z] == V03At(x, head + 1, start, chunkLen, rowStart, rowCount, z)
  {
    FactorV03.PrepareHeadPairFactor(g, beta, rowStart, rowCount, x.A, negG, scratch, mask, output0, output1);
    V03TileIs(x, head, 2, 0, start, chunkLen, rowStart, rowCount, g[..], beta[..], output0[..]);
    if Arrives(x, chunkLen, 1) {
      V03TileIs(x, head, 2, 1, start, chunkLen, rowStart, rowCount, g[..], beta[..], output1[..]);
    }
  }

  method FactorStageV03(x: Inputs, head: int, start: int, chunkLen: int, rowStart: int, rowCount: int,
                        g: array<real>, beta: array<real>, negG: array<real>, scratch: array<real>,
                        mask: array<bool>, output: array<real>)
    requires Batch(x, head, 1, start, chunkLen) && SingleShape(chunkLen, rowStart, rowCount)
    requires GatesLoaded(x, head, 1, start, chunkLen, g[..], beta[..]) && Distinct(g, beta, negG, scratch, output)
    requires Window(negG, 0, 64) && Window(scratch, 0, 512) && mask.Length >= KKT_ELEMS && Window(output, 0, KKT_ELEMS)
    modifies negG, scratch, mask, output
    ensures forall z :: 0 <= z < 64 * rowCount ==>
      output[z] == V03At(x, head, start, chunkLen, rowStart, rowCount, z)
  {
    FactorV03.PrepareHeadFactor(g, beta, rowStart, rowCount, x.A, negG, scratch, mask, output);
    V03TileIs(x, head, 1, 0, start, chunkLen, rowStart, rowCount, g[..], beta[..], output[..]);
  }

  method FinishV03(x: Inputs, head: int, start: int, chunkLen: int, rowStart: int, rowCount: int,
                   kkt: array<real>, output: array<real>, ghost right: bool)
    requires TileShape(x, head, start, chunkLen, rowStart, rowCount)
    requires GatesLawV03(x)
    requires Window(kkt, 0, KKT_ELEMS) && Window(output, 0, KKT_ELEMS) && kkt != output
    requires forall y :: 0 <= y < 64 * rowCount ==>
      kkt[y] == GramAt(x, head, start, chunkLen, rowStart, rowCount, y)
    requires right ==> forall z :: 0 <= z < 64 * rowCount ==>
      output[z] == V03At(x, head, start, chunkLen, rowStart, rowCount, z)
    modifies output
    ensures right ==> forall z :: 0 <= z < 64 * rowCount ==>
      output[z] == TileCell(x, head, start, chunkLen, rowStart, rowCount, z)
  {
    ghost var gram := GramSeq(x, head, start, chunkLen, rowStart, rowCount);
    ghost var factor := V03Seq(x, head, start, chunkLen, rowStart, rowCount);
    ghost var value := TileSeq(x, head, start, chunkLen, rowStart, rowCount);
    V03ProductIsTile(x, head, start, chunkLen, rowStart, rowCount, gram, factor, value);
    FinalMul(kkt, output, 0, rowCount * ROW_ELEMS, x.A, right, gram, factor, value);
  }

  ghost function V03Seq(x: Inputs, head: int, start: int, chunkLen: int, rowStart: int, rowCount: int): (s: seq<real>)
    requires TileShape(x, head, start, chunkLen, rowStart, rowCount)
    ensures |s| == 64 * rowCount
    ensures forall y :: 0 <= y < |s| ==> s[y] == V03At(x, head, start, chunkLen, rowStart, rowCount, y)
  {
    seq(64 * rowCount, y requires 0 <= y < 64 * rowCount => V03At(x, head, start, chunkLen, rowStart, rowCount, y))
  }

  lemma V03ProductIsTile(x: Inputs, head: int, start: int, chunkLen: int, rowStart: int, rowCount: int,
                         gram: seq<real>, factor: seq<real>, value: seq<real>)
    requires TileShape(x, head, start, chunkLen, rowStart, rowCount)
    requires GatesLawV03(x)
    requires |gram| == |factor| == |value| == 64 * rowCount
    requires forall y :: 0 <= y < |gram| ==> gram[y] == GramAt(x, head, start, chunkLen, rowStart, rowCount, y)
    requires forall y :: 0 <= y < |factor| ==> factor[y] == V03At(x, head, start, chunkLen, rowStart, rowCount, y)
    requires forall y :: 0 <= y < |value| ==> value[y] == TileCell(x, head, start, chunkLen, rowStart, rowCount, y)
    ensures forall y :: 0 <= y < 64 * rowCount ==> x.A.times(gram[y], factor[y]) == value[y]
  {
    forall y | 0 <= y < 64 * rowCount
      ensures x.A.times(gram[y], factor[y]) == value[y]
    {
      V03ProductAt(x, head, start, chunkLen, rowStart, rowCount, y, gram[y], factor[y], value[y]);
    }
  }

  ghost function V03At(x: Inputs, head: int, start: int, chunkLen: int, rowStart: int, rowCount: int, y: int): real
    requires TileShape(x, head, start, chunkLen, rowStart, rowCount) && 0 <= y < 64 * rowCount
  {
    V03Cell(x, head, start, chunkLen, rowStart + y / 64, y % 64)
  }

  ghost function V03Cell(x: Inputs, head: int, start: int, chunkLen: int, i: int, j: int): real
    requires Batch(x, head, 1, start, chunkLen) && 0 <= i && 0 <= j
  {
    FactorV03.MaterialisedCell(x.A, Padded(x, head, start, chunkLen, i, false),
                               Padded(x, head, start, chunkLen, j, false),
                               Padded(x, head, start, chunkLen, i, true))
  }

  lemma V03FactorIs(x: Inputs, head: int, heads: int, h: int, start: int, chunkLen: int, g: seq<real>, beta: seq<real>,
                    i: int, j: int)
    requires Batch(x, head, heads, start, chunkLen) && GatesLoaded(x, head, heads, start, chunkLen, g, beta)
    requires 0 <= h < heads && Arrives(x, chunkLen, h) && 0 <= i < 64 && 0 <= j < 64
    ensures FactorV03.MaterialisedCell(x.A, g[64 * h + i], g[64 * h + j], beta[64 * h + i])
         == V03Cell(x, head + h, start, chunkLen, i, j)
  {
    assert (64 * h + i) / 64 == h && (64 * h + i) % 64 == i;
    assert (64 * h + j) / 64 == h && (64 * h + j) % 64 == j;
    assert g[64 * h + i] == BatchCell(x, head, heads, start, chunkLen, 64 * h + i, false);
    assert g[64 * h + j] == BatchCell(x, head, heads, start, chunkLen, 64 * h + j, false);
    assert beta[64 * h + i] == BatchCell(x, head, heads, start, chunkLen, 64 * h + i, true);
  }

  lemma V03TileIs(x: Inputs, head: int, heads: int, h: int, start: int, chunkLen: int, rowStart: int, rowCount: int,
                  g: seq<real>, beta: seq<real>, output: seq<real>)
    requires Batch(x, head, heads, start, chunkLen) && SingleShape(chunkLen, rowStart, rowCount)
    requires GatesLoaded(x, head, heads, start, chunkLen, g, beta)
    requires 0 <= h < heads && Arrives(x, chunkLen, h) && |output| >= 64 * rowCount
    requires forall z :: 0 <= z < 64 * rowCount ==>
      output[z] == FactorV03.MaterialisedAt(x.A, g, beta, 64 * h, rowStart, z)
    ensures forall z :: 0 <= z < 64 * rowCount ==>
      output[z] == V03At(x, head + h, start, chunkLen, rowStart, rowCount, z)
  {
    forall z | 0 <= z < 64 * rowCount
      ensures output[z] == V03At(x, head + h, start, chunkLen, rowStart, rowCount, z)
    {
      V03FactorIs(x, head, heads, h, start, chunkLen, g, beta, rowStart + z / 64, z % 64);
    }
  }

  lemma V03ProductAt(x: Inputs, head: int, start: int, chunkLen: int, rowStart: int, rowCount: int, y: int,
                     kkt: real, factor: real, value: real)
    requires TileShape(x, head, start, chunkLen, rowStart, rowCount) && 0 <= y < 64 * rowCount
    requires GatesLawV03(x)
    requires kkt == GramAt(x, head, start, chunkLen, rowStart, rowCount, y)
    requires factor == V03At(x, head, start, chunkLen, rowStart, rowCount, y)
    requires value == TileCell(x, head, start, chunkLen, rowStart, rowCount, y)
    ensures x.A.times(kkt, factor) == value
  {
    RowColumn(y, rowCount);
    V03CellIsFormula(x, head, start, chunkLen, rowStart + y / 64, y % 64, kkt, factor, value);
  }
}
