/** The cube core's data path: packing 64 rows of K into NZ fractals, loading 64-wide K parts and
    accumulating their products into the Gram tile. */
module CubeGram {
  import opened Widths

  const TILE_ROWS := 64
  const K_STEP := 64

  predicate KDim(kDim: int) { kDim == 128 || kDim == 256 }

  // ---------------------------------------------------------------- NZ layout

  // Address of row n, column d: 16-column blocks of 64 rows.
  function NzAddr(n: int, d: int): (a: int)
    ensures 0 <= n < 64 && 0 <= d < 64 ==> 0 <= a < 4096
  {
    d / 16 * 1024 + n * 16 + d % 16
  }

  function NzRow(a: int): (n: int)
    ensures 0 <= n < 64
  {
    a % 1024 / 16
  }

  function NzCol(a: int): (d: int)
    requires 0 <= a
    ensures 0 <= d
    ensures a < 64 * 128 ==> d < 128
    ensures a < 64 * 256 ==> d < 256
  {
    a / 1024 * 16 + a % 16
  }

  /** The address map sends the 64 x kDim tile into its L1 buffer, and row and column recover ... */
  lemma NzForward(n: int, d: int, kDim: int)
    requires KDim(kDim) && 0 <= n < 64 && 0 <= d < kDim
    ensures 0 <= NzAddr(n, d) < 64 * kDim && NzRow(NzAddr(n, d)) == n && NzCol(NzAddr(n, d)) == d
  {
    var q, r, a := d / 16, d % 16, NzAddr(n, d);
    assert a == 1024 * q + (16 * n + r) && 0 <= 16 * n + r < 1024;
    assert a / 1024 == q && a % 1024 == 16 * n + r;
    assert a % 16 == r by { assert a == 16 * (64 * q + n) + r; }
  }

  /** ... every address, so the map is a bijection. */
  lemma NzBackward(a: int, kDim: int)
    requires KDim(kDim) && 0 <= a < 64 * kDim
    ensures 0 <= NzRow(a) < 64 && 0 <= NzCol(a) < kDim && NzAddr(NzRow(a), NzCol(a)) == a
  {}

  /** Two positions of the tile never share an address. */
  lemma NzInjective(m: int, c: int, n: int, d: int, kDim: int)
    requires KDim(kDim) && 0 <= m < 64 && 0 <= c < kDim && 0 <= n < 64 && 0 <= d < kDim
    ensures NzAddr(m, c) == NzAddr(n, d) <==> m == n && c == d
  {
    NzForward(m, c, kDim);
    NzForward(n, d, kDim);
  }

  /** K part p occupies exactly the 4096 addresses starting at 4096 * p: columns [64p, 64p + 64). */
  lemma PartColumns(a: int, part: int)
    requires a >= 0
    ensures 4096 * part <= a < 4096 * (part + 1) <==> 64 * part <= NzCol(a) < 64 * (part + 1)
  {}

  /** What row n, column d of the packed tile must hold: K inside the chunk, zero beyond it. */
  function PackedCell(k: seq<real>, kOffset: int, stride: int, chunkLen: int, kDim: int, n: int, d: int): real
    requires 0 <= n && 0 <= d < kDim && Readable(k, kOffset, stride, chunkLen, kDim)
  {
    if n < chunkLen then k[RowStart(kOffset, stride, n) + d] else 0.0
  }

  function RowStart(kOffset: int, stride: int, n: int): int { kOffset + n * stride }

  predicate Readable(k: seq<real>, kOffset: int, stride: int, rows: int, columns: int) {
    forall n :: 0 <= n < rows ==>
      0 <= RowStart(kOffset, stride, n) && RowStart(kOffset, stride, n) + columns <= |k|
  }

  method ClearSharedL1(l1: array<real>)
    modifies l1
    ensures forall a :: 0 <= a < l1.Length ==> l1[a] == 0.0
  {
    for a := 0 to l1.Length
      invariant forall b :: 0 <= b < a ==> l1[b] == 0.0
    {
      l1[a] := 0.0;
    }
  }

  // The ND-to-NZ copy; the source row stride is passed through a 16-bit field.
  method CopyOnePackedOperand(l1: array<real>, k: seq<real>, kOffset: int, chunkLen: int, hg: int, kDim: int)
    requires KDim(kDim) && l1.Length == 64 * kDim && 1 <= chunkLen <= 64
    requires Readable(k, kOffset, Uint16(hg * kDim), chunkLen, kDim)
    modifies l1
    ensures forall a :: 0 <= a < l1.Length && NzRow(a) < chunkLen ==>
      l1[a] == k[RowStart(kOffset, Uint16(hg * kDim), NzRow(a)) + NzCol(a)]
    ensures forall a :: 0 <= a < l1.Length && NzRow(a) >= chunkLen ==> l1[a] == old(l1[a])
  {
    var stride := Uint16(hg * kDim);
    for a := 0 to l1.Length
      invariant forall b :: 0 <= b < a && NzRow(b) < chunkLen ==>
        l1[b] == k[RowStart(kOffset, stride, NzRow(b)) + NzCol(b)]
      invariant forall b :: 0 <= b < l1.Length && (a <= b || NzRow(b) >= chunkLen) ==> l1[b] == old(l1[b])
    {
      if NzRow(a) < chunkLen {
        l1[a] := k[RowStart(kOffset, stride, NzRow(a)) + NzCol(a)];
      }
    }
  }

  /** The tile the copy leaves in L1 through a row pitch. */
  function PackedTile(k: seq<real>, kOffset: int, stride: int, chunkLen: int, kDim: int): (l1: seq<real>)
    requires KDim(kDim) && Readable(k, kOffset, stride, chunkLen, kDim)
    ensures |l1| == 64 * kDim
    ensures forall a :: 0 <= a < |l1| ==> l1[a] == PackedCell(k, kOffset, stride, chunkLen, kDim, NzRow(a), NzCol(a))
  {
    seq(64 * kDim, a requires 0 <= a < 64 * kDim => PackedCell(k, kOffset, stride, chunkLen, kDim, NzRow(a), NzCol(a)))
  }

  /** The packed tile, independent of what the L1 buffer held before. */
  method CopyPackedKToSharedL1(l1: array<real>, k: seq<real>, kOffset: int, chunkLen: int, hg: int, kDim: int)
    requires KDim(kDim) && l1.Length == 64 * kDim && 1 <= chunkLen <= 64
    requires Readable(k, kOffset, Uint16(hg * kDim), chunkLen, kDim)
    modifies l1
    ensures l1[..] == PackedTile(k, kOffset, Uint16(hg * kDim), chunkLen, kDim)
  {
    if chunkLen < TILE_ROWS {
      ClearSharedL1(l1);
    }
    CopyOnePackedOperand(l1, k, kOffset, chunkLen, hg, kDim);
  }

  /** Every copied row starts where the input has it exactly when the row pitch fits the 16-bit field
      or the chunk has a single row.  The host bounds neither hg nor the pitch. */
  lemma RowPitchFits(kOffset: int, chunkLen: int, hg: int, kDim: int)
    requires KDim(kDim) && hg >= 1 && 1 <= chunkLen <= 64
    ensures (forall n :: 0 <= n < chunkLen ==>
               RowStart(kOffset, Uint16(hg * kDim), n) == RowStart(kOffset, hg * kDim, n))
       <==> hg * kDim <= 65535 || chunkLen == 1
  {
    var pitch := hg * kDim;
    if pitch > 65535 && chunkLen > 1 {
      assert Uint16(pitch) != pitch;
      assert RowStart(kOffset, Uint16(pitch), 1) != RowStart(kOffset, pitch, 1);
    }
    if pitch <= 65535 {
      assert Uint16(pitch) == pitch;
    }
  }

  // The smallest head count the truncation breaks for K = 128.
  lemma RowPitchTruncated()
    ensures RowStart(0, Uint16(512 * 128), 1) != RowStart(0, 512 * 128, 1)
  {
    assert Uint16(512 * 128) == 0;
  }

  lemma TruncatedReadable(k: seq<real>, kOffset: int, pitch: int, chunkLen: int, kDim: int)
    requires 0 <= pitch && Readable(k, kOffset, pitch, chunkLen, kDim)
    ensures Readable(k, kOffset, Uint16(pitch), chunkLen, kDim)
  {
    forall n | 0 <= n < chunkLen
      ensures 0 <= RowStart(kOffset, Uint16(pitch), n)
      ensures RowStart(kOffset, Uint16(pitch), n) + kDim <= |k|
    {
      assert RowStart(kOffset, pitch, 0) == kOffset >= 0;
      assert RowStart(kOffset, pitch, n) + kDim <= |k|;
      NoFurther(n, Uint16(pitch), pitch);
    }
  }

  lemma NoFurther(n: int, a: int, b: int)
    requires 0 <= n && 0 <= a <= b
    ensures 0 <= n * a <= n * b
  {
    assert n * (b - a) == n * b - n * a;
  }

  // The copied tile is K's own rows.
  ghost predicate CopiedRight(k: seq<real>, kOffset: int, pitch: int, chunkLen: int, kDim: int)
    requires KDim(kDim) && 0 <= pitch && Readable(k, kOffset, pitch, chunkLen, kDim)
  {
    TruncatedReadable(k, kOffset, pitch, chunkLen, kDim);
    Packed(PackedTile(k, kOffset, Uint16(pitch), chunkLen, kDim), k, kOffset, pitch, chunkLen, kDim)
  }

  predicate PitchFits(pitch: int, chunkLen: int) { pitch <= 65535 || chunkLen == 1 }

  lemma FittingPitch(k: seq<real>, kOffset: int, pitch: int, chunkLen: int, kDim: int)
    requires KDim(kDim) && 0 <= pitch && 1 <= chunkLen <= 64 && Readable(k, kOffset, pitch, chunkLen, kDim)
    requires PitchFits(pitch, chunkLen)
    ensures CopiedRight(k, kOffset, pitch, chunkLen, kDim)
  {
    TruncatedReadable(k, kOffset, pitch, chunkLen, kDim);
    assert chunkLen > 1 ==> Uint16(pitch) == pitch;
    assert forall n :: 0 <= n < chunkLen ==> RowStart(kOffset, Uint16(pitch), n) == RowStart(kOffset, pitch, n);
  }

  // Row 1, column 0 of an input whose elements all differ lands wrongly.
  lemma TruncatedPitch(kOffset: int, pitch: int, chunkLen: int, kDim: int) returns (k: seq<real>)
    requires KDim(kDim) && 0 <= kOffset && 0 <= pitch && 1 <= chunkLen <= 64 && !PitchFits(pitch, chunkLen)
    ensures Readable(k, kOffset, pitch, chunkLen, kDim) && !CopiedRight(k, kOffset, pitch, chunkLen, kDim)
  {
    k := seq(kOffset + 64 * pitch + kDim, i => i as real);
    forall n | 0 <= n < chunkLen
      ensures 0 <= RowStart(kOffset, pitch, n) && RowStart(kOffset, pitch, n) + kDim <= |k|
    {
      assert 0 <= n * pitch;
      assert (64 - n) * pitch == 64 * pitch - n * pitch && (64 - n) * pitch >= 0;
    }
    TruncatedReadable(k, kOffset, pitch, chunkLen, kDim);
    var l1 := PackedTile(k, kOffset, Uint16(pitch), chunkLen, kDim);
    assert NzRow(16) == 1 && NzCol(16) == 0;
    assert l1[16] == PackedCell(k, kOffset, Uint16(pitch), chunkLen, kDim, 1, 0);
    assert l1[16] != PackedCell(k, kOffset, pitch, chunkLen, kDim, 1, 0);
  }

  /** On the tile itself: the copy is right for every input exactly when the pitch fits sixteen bits or
      the chunk has one row. */
  lemma CopiedRightIff(kOffset: int, pitch: int, chunkLen: int, kDim: int)
    requires KDim(kDim) && 0 <= kOffset && 0 <= pitch && 1 <= chunkLen <= 64
    ensures (forall k: seq<real> | Readable(k, kOffset, pitch, chunkLen, kDim) ::
               CopiedRight(k, kOffset, pitch, chunkLen, kDim))
       <==> PitchFits(pitch, chunkLen)
  {
    if PitchFits(pitch, chunkLen) {
      forall k: seq<real> | Readable(k, kOffset, pitch, chunkLen, kDim)
        ensures CopiedRight(k, kOffset, pitch, chunkLen, kDim)
      {
        FittingPitch(k, kOffset, pitch, chunkLen, kDim);
      }
    } else {
      var k := TruncatedPitch(kOffset, pitch, chunkLen, kDim);
    }
  }

  // ---------------------------------------------------------------- products

  // A dot product, as the sequence of factor pairs it multiplies and adds up.
  type Pairs = seq<(real, real)>

  function Sum(terms: Pairs): real {
    if terms == [] then 0.0 else Sum(terms[..|terms| - 1]) + terms[|terms| - 1].0 * terms[|terms| - 1].1
  }

  lemma {:induction false} SumConcat(s: Pairs, t: Pairs)
    ensures Sum(s + t) == Sum(s) + Sum(t)
  {
    if t == [] {
      assert s + t == s;
    } else {
      assert (s + t)[..|s + t| - 1] == s + t[..|t| - 1];
      SumConcat(s, t[..|t| - 1]);
    }
  }

  lemma {:induction false} SumZero(s: Pairs)
    requires forall i :: 0 <= i < |s| ==> s[i].0 == 0.0 || s[i].1 == 0.0
    ensures Sum(s) == 0.0
  {
    if s != [] { SumZero(s[..|s| - 1]); }
  }

  predicate PartOf(x: seq<real>, part: int) { 0 <= part && 4096 * (part + 1) <= |x| }

  // Row n, column d of a part of a packed tile.
  function Elem(x: seq<real>, part: int, n: int, d: int): real
    requires PartOf(x, part) && 0 <= n < 64 && 0 <= d < 64
  {
    x[4096 * part + NzAddr(n, d)]
  }

  // Row m of a 64-column part of one packed tile times row n of a part of another.
  function PartTerms(xa: seq<real>, aPart: int, xb: seq<real>, bPart: int, m: int, n: int): (terms: Pairs)
    requires PartOf(xa, aPart) && PartOf(xb, bPart) && 0 <= m < 64 && 0 <= n < 64
    ensures |terms| == 64
  {
    seq(64, d requires 0 <= d < 64 => (Elem(xa, aPart, m, d), Elem(xb, bPart, n, d)))
  }

  // The products of the first `parts` parts of one packed tile with itself.
  function GramParts(x: seq<real>, m: int, n: int, parts: int): real
    requires 0 <= parts && 4096 * parts <= |x| && 0 <= m < 64 && 0 <= n < 64
    decreases parts
  {
    if parts == 0 then 0.0
    else GramParts(x, m, n, parts - 1) + Sum(PartTerms(x, parts - 1, x, parts - 1, m, n))
  }

  // L0A receives the part row by row.
  method LoadKPartToL0A(a2: array<real>, a1: array<real>, kPart: int)
    requires a2.Length == 4096 && 0 <= kPart && 4096 * (kPart + 1) <= a1.Length && a1 != a2
    modifies a2
    ensures forall m, k :: 0 <= m < 64 && 0 <= k < 64 ==> a2[m * 64 + k] == a1[4096 * kPart + NzAddr(m, k)]
  {
    var srcAddr := kPart * K_STEP * TILE_ROWS;
    for y := 0 to 4096
      invariant forall z :: 0 <= z < y ==> a2[z] == a1[4096 * kPart + NzAddr(z / 64, z % 64)]
    {
      a2[y] := a1[srcAddr + NzAddr(y / 64, y % 64)];
    }
    forall m, k | 0 <= m < 64 && 0 <= k < 64
      ensures a2[m * 64 + k] == a1[4096 * kPart + NzAddr(m, k)]
    {
      assert (m * 64 + k) / 64 == m && (m * 64 + k) % 64 == k;
    }
  }

  // One LoadData: four 16 x 16 fractals, copied as they are.
  method LoadFractals(b2: array<real>, b1: array<real>, d: int, s: int)
    requires 0 <= d && d + 1024 <= b2.Length && 0 <= s && s + 1024 <= b1.Length && b1 != b2
    modifies b2
    ensures forall y :: d <= y < d + 1024 ==> b2[y] == b1[s + (y - d)]
    ensures forall y :: 0 <= y < b2.Length && !(d <= y < d + 1024) ==> b2[y] == old(b2[y])
  {
    for y := d to d + 1024
      invariant forall z :: d <= z < y ==> b2[z] == b1[s + (z - d)]
      invariant forall z :: 0 <= z < b2.Length && !(d <= z < y) ==> b2[z] == old(b2[z])
    {
      b2[y] := b1[s + (y - d)];
    }
  }

  // L0B receives the part as packed.
  method LoadKPartToL0B(b2: array<real>, b1: array<real>, kPart: int)
    requires b2.Length == 4096 && 0 <= kPart && 4096 * (kPart + 1) <= b1.Length && b1 != b2
    modifies b2
    ensures forall y :: 0 <= y < 4096 ==> b2[y] == b1[4096 * kPart + y]
  {
    var srcAddr := kPart * K_STEP * TILE_ROWS;
    LoadFractals(b2, b1, 0, srcAddr);
    LoadFractals(b2, b1, 1024, srcAddr + 1024);
    LoadFractals(b2, b1, 2048, srcAddr + 2048);
    LoadFractals(b2, b1, 3072, srcAddr + 3072);
  }

  // What the MMAD adds up from L0A (row by row) and L0B (as packed).
  function L0Terms(a2: seq<real>, b2: seq<real>, m: int, n: int): (terms: Pairs)
    requires |a2| == |b2| == 4096 && 0 <= m < 64 && 0 <= n < 64
    ensures |terms| == 64
  {
    seq(64, d requires 0 <= d < 64 => (a2[m * 64 + d], b2[NzAddr(n, d)]))
  }

  lemma L0IsPart(x: seq<real>, part: int, a2: seq<real>, b2: seq<real>, m: int, n: int)
    requires PartOf(x, part) && |a2| == |b2| == 4096 && 0 <= m < 64 && 0 <= n < 64
    requires forall k :: 0 <= k < 64 ==> a2[m * 64 + k] == x[4096 * part + NzAddr(m, k)]
    requires forall y :: 0 <= y < 4096 ==> b2[y] == x[4096 * part + y]
    ensures L0Terms(a2, b2, m, n) == PartTerms(x, part, x, part, m, n)
  {
    forall d | 0 <= d < 64
      ensures L0Terms(a2, b2, m, n)[d] == PartTerms(x, part, x, part, m, n)[d]
    {
      assert a2[m * 64 + d] == Elem(x, part, m, d) && b2[NzAddr(n, d)] == Elem(x, part, n, d);
    }
  }

  lemma SumStep(terms: Pairs, k: int, x: real, y: real)
    requires 0 <= k < |terms| && terms[k] == (x, y)
    ensures Sum(terms[..k + 1]) == Sum(terms[..k]) + x * y
  {
    assert terms[..k + 1][..k] == terms[..k];
  }

  // One output cell of the MMAD.
  method Dot(a2: seq<real>, b2: seq<real>, m: int, n: int) returns (sum: real)
    requires |a2| == |b2| == 4096 && 0 <= m < 64 && 0 <= n < 64
    ensures sum == Sum(L0Terms(a2, b2, m, n))
  {
    ghost var terms := L0Terms(a2, b2, m, n);
    sum := 0.0;
    for k := 0 to 64
      invariant sum == Sum(terms[..k])
    {
      var x, y := a2[m * 64 + k], b2[NzAddr(n, k)];
      SumStep(terms, k, x, y);
      sum := sum + x * y;
    }
    assert terms[..64] == terms;
  }

  method Mmad(c1: array<real>, a2: array<real>, b2: array<real>, initializeC: bool)
    requires c1.Length == a2.Length == b2.Length == 4096 && c1 != a2 && c1 != b2
    modifies c1
    ensures forall y :: 0 <= y < 4096 ==>
      c1[y] == (if initializeC then 0.0 else old(c1[y])) + Sum(L0Terms(a2[..], b2[..], y / 64, y % 64))
  {
    var a, b := a2[..], b2[..];
    for y := 0 to 4096
      invariant a == a2[..] && b == b2[..]
      invariant forall z :: 0 <= z < y ==>
        c1[z] == (if initializeC then 0.0 else old(c1[z])) + Sum(L0Terms(a, b, z / 64, z % 64))
      invariant forall z :: y <= z < 4096 ==> c1[z] == old(c1[z])
    {
      var sum := Dot(a, b, y / 64, y % 64);
      c1[y] := (if initializeC then 0.0 else c1[y]) + sum;
    }
  }

  method ComputePart(l1: array<real>, a2: array<real>, b2: array<real>, c1: array<real>, kPart: int, initializeC: bool)
    requires a2.Length == b2.Length == c1.Length == 4096 && 0 <= kPart && 4096 * (kPart + 1) <= l1.Length
    requires a2 != b2 && a2 != c1 && b2 != c1 && l1 != a2 && l1 != b2 && l1 != c1
    modifies a2, b2, c1
    ensures forall y :: 0 <= y < 4096 ==>
      c1[y] == (if initializeC then 0.0 else old(c1[y]))
               + Sum(PartTerms(l1[..], kPart, l1[..], kPart, y / 64, y % 64))
  {
    LoadKPartToL0A(a2, l1, kPart);
    LoadKPartToL0B(b2, l1, kPart);
    AllTermsArePart(l1[..], kPart, a2[..], b2[..]);
    Mmad(c1, a2, b2, initializeC);
  }

  lemma AllTermsArePart(x: seq<real>, part: int, a2: seq<real>, b2: seq<real>)
    requires PartOf(x, part) && |a2| == |b2| == 4096
    requires forall m, k :: 0 <= m < 64 && 0 <= k < 64 ==> a2[m * 64 + k] == x[4096 * part + NzAddr(m, k)]
    requires forall y :: 0 <= y < 4096 ==> b2[y] == x[4096 * part + y]
    ensures forall y :: 0 <= y < 4096 ==>
      L0Terms(a2, b2, y / 64, y % 64) == PartTerms(x, part, x, part, y / 64, y % 64)
  {
    forall y | 0 <= y < 4096
      ensures L0Terms(a2, b2, y / 64, y % 64) == PartTerms(x, part, x, part, y / 64, y % 64)
    {
      L0IsPart(x, part, a2, b2, y / 64, y % 64);
    }
  }

  /** K = 128: two parts, the first initialises the accumulator. */
  method ComputeGram128(l1: array<real>, a2: array<real>, b2: array<real>, c1: array<real>)
    requires l1.Length == 64 * 128 && a2.Length == b2.Length == c1.Length == 4096
    requires a2 != b2 && a2 != c1 && b2 != c1 && l1 != a2 && l1 != b2 && l1 != c1
    modifies a2, b2, c1
    ensures forall y :: 0 <= y < 4096 ==> c1[y] == GramParts(l1[..], y / 64, y % 64, 2)
  {
    ComputePart(l1, a2, b2, c1, 0, true);
    assert forall y :: 0 <= y < 4096 ==> c1[y] == GramParts(l1[..], y / 64, y % 64, 1);
    ComputePart(l1, a2, b2, c1, 1, false);
  }

  /** K = 256: four parts. */
  method ComputeGram256(l1: array<real>, a2: array<real>, b2: array<real>, c1: array<real>)
    requires l1.Length == 64 * 256 && a2.Length == b2.Length == c1.Length == 4096
    requires a2 != b2 && a2 != c1 && b2 != c1 && l1 != a2 && l1 != b2 && l1 != c1
    modifies a2, b2, c1
    ensures forall y :: 0 <= y < 4096 ==> c1[y] == GramParts(l1[..], y / 64, y % 64, 4)
  {
    ComputePart(l1, a2, b2, c1, 0, true);
    assert forall y :: 0 <= y < 4096 ==> c1[y] == GramParts(l1[..], y / 64, y % 64, 1);
    ComputePart(l1, a2, b2, c1, 1, false);
    assert forall y :: 0 <= y < 4096 ==> c1[y] == GramParts(l1[..], y / 64, y % 64, 2);
    ComputePart(l1, a2, b2, c1, 2, false);
    assert forall y :: 0 <= y < 4096 ==> c1[y] == GramParts(l1[..], y / 64, y % 64, 3);
    ComputePart(l1, a2, b2, c1, 3, false);
  }

  // ---------------------------------------------------------------- the Gram tile

  // Two rows of K over d columns, pair by pair.
  function RowTerms(k: seq<real>, a: int, b: int, d: int): (terms: Pairs)
    requires 0 <= a && 0 <= b && 0 <= d && a + d <= |k| && b + d <= |k|
    ensures |terms| == d
  {
    seq(d, j requires 0 <= j < d => (k[a + j], k[b + j]))
  }

  /** The zero-padded Gram tile: K . K^T on the chunk's rows, zero beyond them. */
  function GramCell(k: seq<real>, kOffset: int, stride: int, chunkLen: int, kDim: int, m: int, n: int): real
    requires kDim >= 0 && Readable(k, kOffset, stride, chunkLen, kDim) && 0 <= m && 0 <= n
  {
    if m < chunkLen && n < chunkLen
    then Sum(RowTerms(k, RowStart(kOffset, stride, m), RowStart(kOffset, stride, n), kDim))
    else 0.0
  }

  // A packed tile, as a sequence.
  predicate Packed(x: seq<real>, k: seq<real>, kOffset: int, stride: int, chunkLen: int, kDim: int) {
    && KDim(kDim) && |x| == 64 * kDim && 1 <= chunkLen <= 64 && Readable(k, kOffset, stride, chunkLen, kDim)
    && forall a :: 0 <= a < |x| ==> x[a] == PackedCell(k, kOffset, stride, chunkLen, kDim, NzRow(a), NzCol(a))
  }

  lemma PartAddr(part: int, m: int, d: int)
    requires 0 <= part && 0 <= d < 64
    ensures 4096 * part + NzAddr(m, d) == NzAddr(m, 64 * part + d)
  {
    assert (64 * part + d) / 16 == 4 * part + d / 16;
  }

  lemma PackedAddress(x: seq<real>, k: seq<real>, kOffset: int, stride: int, chunkLen: int, kDim: int,
                      a: int, n: int, d: int)
    requires Packed(x, k, kOffset, stride, chunkLen, kDim) && 0 <= a < |x|
    requires NzRow(a) == n && NzCol(a) == d < kDim
    ensures x[a] == PackedCell(k, kOffset, stride, chunkLen, kDim, n, d)
  {}

  lemma PackedRowColumn(x: seq<real>, k: seq<real>, kOffset: int, stride: int, chunkLen: int, kDim: int, n: int, d: int)
    requires Packed(x, k, kOffset, stride, chunkLen, kDim) && 0 <= n < 64 && 0 <= d < kDim
    ensures 0 <= NzAddr(n, d) < |x|
    ensures x[NzAddr(n, d)] == PackedCell(k, kOffset, stride, chunkLen, kDim, n, d)
  {
    NzForward(n, d, kDim);
    PackedAddress(x, k, kOffset, stride, chunkLen, kDim, NzAddr(n, d), n, d);
  }

  lemma PackedAt(x: seq<real>, k: seq<real>, kOffset: int, stride: int, chunkLen: int, kDim: int,
                 part: int, m: int, d: int)
    requires Packed(x, k, kOffset, stride, chunkLen, kDim)
    requires 0 <= part && 64 * (part + 1) <= kDim && 0 <= m < 64 && 0 <= d < 64
    ensures Elem(x, part, m, d)
         == PackedCell(k, kOffset, stride, chunkLen, kDim, m, 64 * part + d)
  {
    PartAddr(part, m, d);
    PackedRowColumn(x, k, kOffset, stride, chunkLen, kDim, m, 64 * part + d);
  }

  lemma PartColumnAt(x: seq<real>, k: seq<real>, kOffset: int, stride: int, chunkLen: int, kDim: int,
                     part: int, m: int, n: int, d: int)
    requires Packed(x, k, kOffset, stride, chunkLen, kDim)
    requires 0 <= part && 64 * (part + 1) <= kDim && 0 <= m < chunkLen && 0 <= n < chunkLen && 0 <= d < 64
    ensures PartTerms(x, part, x, part, m, n)[d]
         == RowTerms(k, RowStart(kOffset, stride, m), RowStart(kOffset, stride, n), kDim)[64 * part + d]
  {
    PackedAt(x, k, kOffset, stride, chunkLen, kDim, part, m, d);
    PackedAt(x, k, kOffset, stride, chunkLen, kDim, part, n, d);
  }

  // One part contributes the chunk rows' columns [64 * part, 64 * part + 64).
  lemma PartIsColumns(x: seq<real>, k: seq<real>, kOffset: int, stride: int, chunkLen: int, kDim: int,
                      part: int, m: int, n: int)
    requires Packed(x, k, kOffset, stride, chunkLen, kDim)
    requires 0 <= part && 64 * (part + 1) <= kDim && 0 <= m < chunkLen && 0 <= n < chunkLen
    ensures
      PartTerms(x, part, x, part, m, n)
      == RowTerms(k, RowStart(kOffset, stride, m), RowStart(kOffset, stride, n), kDim)[64 * part..64 * (part + 1)]
  {
    forall d | 0 <= d < 64
      ensures PartTerms(x, part, x, part, m, n)[d]
           == RowTerms(k, RowStart(kOffset, stride, m), RowStart(kOffset, stride, n), kDim)[64 * part + d]
    {
      PartColumnAt(x, k, kOffset, stride, chunkLen, kDim, part, m, n, d);
    }
  }

  lemma PaddingIsZero(x: seq<real>, k: seq<real>, kOffset: int, stride: int, chunkLen: int, kDim: int,
                      part: int, m: int, n: int)
    requires Packed(x, k, kOffset, stride, chunkLen, kDim)
    requires 0 <= part && 64 * (part + 1) <= kDim && 0 <= m < 64 && 0 <= n < 64
    requires m >= chunkLen || n >= chunkLen
    ensures Sum(PartTerms(x, part, x, part, m, n)) == 0.0
  {
    forall d | 0 <= d < 64
      ensures PartTerms(x, part, x, part, m, n)[d].0 == 0.0 || PartTerms(x, part, x, part, m, n)[d].1 == 0.0
    {
      PackedAt(x, k, kOffset, stride, chunkLen, kDim, part, m, d);
      PackedAt(x, k, kOffset, stride, chunkLen, kDim, part, n, d);
    }
    SumZero(PartTerms(x, part, x, part, m, n));
  }

  // A part adds up its slice of the rows' terms.
  predicate PartAdds(x: seq<real>, m: int, n: int, part: int, rows: Pairs)
    requires PartOf(x, part) && 0 <= m < 64 && 0 <= n < 64 && 64 * (part + 1) <= |rows|
  {
    Sum(PartTerms(x, part, x, part, m, n)) == Sum(rows[64 * part..64 * (part + 1)])
  }

  // Accumulating parts adds up the columns they cover.
  lemma {:induction false} AddParts(x: seq<real>, m: int, n: int, parts: int, rows: Pairs)
    requires 0 <= parts && 4096 * parts <= |x| && 0 <= m < 64 && 0 <= n < 64 && 64 * parts <= |rows|
    requires forall p :: 0 <= p < parts ==> PartAdds(x, m, n, p, rows)
    ensures GramParts(x, m, n, parts) == Sum(rows[..64 * parts])
    decreases parts
  {
    if parts > 0 {
      AddParts(x, m, n, parts - 1, rows);
      assert PartAdds(x, m, n, parts - 1, rows);
      SumSplit(rows, 64 * (parts - 1), 64 * parts);
    }
  }

  lemma SumSplit(s: Pairs, a: int, b: int)
    requires 0 <= a <= b <= |s|
    ensures Sum(s[..b]) == Sum(s[..a]) + Sum(s[a..b])
  {
    SumConcat(s[..a], s[a..b]);
    assert s[..a] + s[a..b] == s[..b];
  }

  predicate NoPart(x: seq<real>, m: int, n: int, part: int)
    requires PartOf(x, part) && 0 <= m < 64 && 0 <= n < 64
  {
    Sum(PartTerms(x, part, x, part, m, n)) == 0.0
  }

  lemma {:induction false} NoParts(x: seq<real>, m: int, n: int, parts: int)
    requires 0 <= parts && 4096 * parts <= |x| && 0 <= m < 64 && 0 <= n < 64
    requires forall p :: 0 <= p < parts ==> NoPart(x, m, n, p)
    ensures GramParts(x, m, n, parts) == 0.0
    decreases parts
  {
    if parts > 0 {
      NoParts(x, m, n, parts - 1);
      assert NoPart(x, m, n, parts - 1);
    }
  }

  lemma GramOutside(x: seq<real>, k: seq<real>, kOffset: int, stride: int, chunkLen: int, kDim: int, m: int, n: int)
    requires Packed(x, k, kOffset, stride, chunkLen, kDim)
    requires 0 <= m < 64 && 0 <= n < 64 && (m >= chunkLen || n >= chunkLen)
    ensures GramParts(x, m, n, kDim / 64) == 0.0
  {
    forall p | 0 <= p < kDim / 64
      ensures NoPart(x, m, n, p)
    {
      PaddingIsZero(x, k, kOffset, stride, chunkLen, kDim, p, m, n);
    }
    NoParts(x, m, n, kDim / 64);
  }

  lemma GramWithin(x: seq<real>, k: seq<real>, kOffset: int, stride: int, chunkLen: int, kDim: int, m: int, n: int)
    requires Packed(x, k, kOffset, stride, chunkLen, kDim)
    requires 0 <= m < chunkLen && 0 <= n < chunkLen
    ensures GramParts(x, m, n, kDim / 64)
         == Sum(RowTerms(k, RowStart(kOffset, stride, m), RowStart(kOffset, stride, n), kDim))
  {
    var rows := RowTerms(k, RowStart(kOffset, stride, m), RowStart(kOffset, stride, n), kDim);
    forall p | 0 <= p < kDim / 64
      ensures PartAdds(x, m, n, p, rows)
    {
      PartIsColumns(x, k, kOffset, stride, chunkLen, kDim, p, m, n);
    }
    AddParts(x, m, n, kDim / 64, rows);
    assert rows[..kDim] == rows;
  }

  /** The two or four parts of a packed tile accumulate to the full zero-padded Gram tile. */
  lemma GramOfPacked(x: seq<real>, k: seq<real>, kOffset: int, stride: int, chunkLen: int, kDim: int, m: int, n: int)
    requires Packed(x, k, kOffset, stride, chunkLen, kDim) && 0 <= m < 64 && 0 <= n < 64
    ensures GramParts(x, m, n, kDim / 64) == GramCell(k, kOffset, stride, chunkLen, kDim, m, n)
  {
    if m >= chunkLen || n >= chunkLen {
      GramOutside(x, k, kOffset, stride, chunkLen, kDim, m, n);
    } else {
      GramWithin(x, k, kOffset, stride, chunkLen, kDim, m, n);
    }
  }
}
