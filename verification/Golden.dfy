/** The example program's reference: which inputs it accepts, how it cuts sequences into chunks, and the
    value it expects at each output position. */
module Golden {
  import opened Semantics
  import opened Schedule
  import opened TensorForm
  import LaneOps
  import CubeGram

  const CHUNK := 64

  predicate NonDecreasing(offsets: seq<int>) {
    forall i :: 0 <= i && i + 1 < |offsets| ==> offsets[i] <= offsets[i + 1]
  }

  lemma {:induction false} Ordered(offsets: seq<int>, i: int, j: int)
    requires NonDecreasing(offsets) && 0 <= i <= j < |offsets|
    ensures offsets[i] <= offsets[j]
    decreases j - i
  {
    if i < j { Ordered(offsets, i, j - 1); }
  }

  /** The input predicate: chunks of 1..64 tokens covering [0, t). */
  predicate ValidateCase(t: int, h: int, hg: int, k: int, offsets: seq<int>) {
    && t > 0 && h > 0 && hg > 0 && h % hg == 0 && (k == 128 || k == 256)
    && |offsets| >= 2 && offsets[0] == 0 && offsets[|offsets| - 1] == t
    && forall i :: 0 <= i < |offsets| - 1 ==> GoodChunk(offsets, i, t)
  }

  predicate GoodChunk(offsets: seq<int>, i: int, t: int)
    requires 0 <= i < |offsets| - 1
  {
    0 <= offsets[i] < offsets[i + 1] <= offsets[i] + CHUNK && offsets[i + 1] <= t
  }

  lemma GoodIncreasing(offsets: seq<int>, t: int)
    requires forall i :: 0 <= i < |offsets| - 1 ==> GoodChunk(offsets, i, t)
    ensures NonDecreasing(offsets)
  {
    forall i | 0 <= i && i + 1 < |offsets|
      ensures offsets[i] <= offsets[i + 1]
    {
      assert GoodChunk(offsets, i, t);
    }
  }

  // Offsets whose gaps are at most a chunk, and short of one only where a sequence ends.
  predicate Cut(offsets: seq<int>, cuSeqlens: seq<int>) {
    forall i :: 0 <= i && i + 1 < |offsets| ==>
      offsets[i] < offsets[i + 1] <= offsets[i] + CHUNK
      && (offsets[i + 1] == offsets[i] + CHUNK || offsets[i + 1] in cuSeqlens)
  }

  // The open end of a prefix of the offsets.
  predicate Open(offsets: seq<int>, cuSeqlens: seq<int>, next: int) {
    && cuSeqlens != [] && Cut(offsets, cuSeqlens)
    && (offsets == [] ==> next == cuSeqlens[0])
    && (offsets != [] ==>
          && offsets[0] == cuSeqlens[0] && offsets[|offsets| - 1] < next <= offsets[|offsets| - 1] + CHUNK
          && (next == offsets[|offsets| - 1] + CHUNK || next in cuSeqlens))
  }

  // The chunk starts of one sequence, and of the first n sequences.
  function SequenceStarts(begin: int, end: int): seq<int>
    decreases end - begin
  {
    if begin >= end then [] else [begin] + SequenceStarts(begin + CHUNK, end)
  }

  function ChunkStarts(cuSeqlens: seq<int>, n: int): seq<int>
    requires 0 <= n < |cuSeqlens|
    decreases n
  {
    if n == 0 then [] else ChunkStarts(cuSeqlens, n - 1) + SequenceStarts(cuSeqlens[n - 1], cuSeqlens[n])
  }

  /** Whatever the sequence lengths, the starts of all chunks in order, then the last length. */
  method BuildChunkOffsets(cuSeqlens: seq<int>) returns (offsets: seq<int>)
    requires cuSeqlens != []
    ensures offsets == ChunkStarts(cuSeqlens, |cuSeqlens| - 1) + [cuSeqlens[|cuSeqlens| - 1]]
  {
    offsets := [];
    var n := 0;
    while n + 1 < |cuSeqlens|
      invariant 0 <= n < |cuSeqlens| && offsets == ChunkStarts(cuSeqlens, n)
    {
      offsets := CutSequence(offsets, cuSeqlens[n], cuSeqlens[n + 1]);
      n := n + 1;
    }
    offsets := offsets + [cuSeqlens[|cuSeqlens| - 1]];
  }

  method CutSequence(before: seq<int>, begin: int, end: int) returns (offsets: seq<int>)
    ensures offsets == before + SequenceStarts(begin, end)
  {
    offsets := before;
    var start := begin;
    while start < end
      invariant offsets + SequenceStarts(start, end) == before + SequenceStarts(begin, end)
      decreases end - start
    {
      assert offsets + [start] + SequenceStarts(start + CHUNK, end) == offsets + SequenceStarts(start, end);
      offsets := offsets + [start];
      start := start + CHUNK;
    }
  }

  lemma OpenStep(before: seq<int>, cuSeqlens: seq<int>, begin: int, end: int)
    requires Open(before, cuSeqlens, begin) && begin < end && end in cuSeqlens
    ensures Open(before + [begin], cuSeqlens, if begin + CHUNK < end then begin + CHUNK else end)
  {
    assert before == [] ==> (before + [begin])[0] == cuSeqlens[0];
  }

  lemma {:induction false} SequenceOpen(before: seq<int>, cuSeqlens: seq<int>, begin: int, end: int)
    requires Open(before, cuSeqlens, begin) && begin <= end && end in cuSeqlens
    ensures Open(before + SequenceStarts(begin, end), cuSeqlens, end)
    decreases end - begin
  {
    if begin == end {
      assert before + SequenceStarts(begin, end) == before;
    } else {
      OpenStep(before, cuSeqlens, begin, end);
      assert before + [begin] + SequenceStarts(begin + CHUNK, end) == before + SequenceStarts(begin, end);
      if begin + CHUNK < end {
        SequenceOpen(before + [begin], cuSeqlens, begin + CHUNK, end);
      } else {
        assert before + SequenceStarts(begin, end) == before + [begin];
      }
    }
  }

  lemma {:induction false} StartsOpen(cuSeqlens: seq<int>, n: int)
    requires 0 <= n < |cuSeqlens| && NonDecreasing(cuSeqlens)
    ensures Open(ChunkStarts(cuSeqlens, n), cuSeqlens, cuSeqlens[n])
    decreases n
  {
    if n > 0 {
      StartsOpen(cuSeqlens, n - 1);
      SequenceOpen(ChunkStarts(cuSeqlens, n - 1), cuSeqlens, cuSeqlens[n - 1], cuSeqlens[n]);
    }
  }

  lemma {:induction false} SequenceKept(cuSeqlens: seq<int>, i: int, n: int)
    requires 0 <= i <= n < |cuSeqlens| && NonDecreasing(cuSeqlens)
    ensures cuSeqlens[i] in ChunkStarts(cuSeqlens, n) || cuSeqlens[i] == cuSeqlens[n]
    decreases n
  {
    if i < n {
      SequenceKept(cuSeqlens, i, n - 1);
      var last := SequenceStarts(cuSeqlens[n - 1], cuSeqlens[n]);
      if cuSeqlens[n - 1] < cuSeqlens[n] {
        assert last[0] == cuSeqlens[n - 1];
        assert cuSeqlens[n - 1] in last;
      }
    }
  }

  lemma ClosedCut(starts: seq<int>, cuSeqlens: seq<int>, last: int)
    requires Open(starts, cuSeqlens, last) && last in cuSeqlens
    ensures Cut(starts + [last], cuSeqlens) && (starts + [last])[0] == cuSeqlens[0]
  {
    var offsets := starts + [last];
    assert forall i :: 0 <= i < |starts| ==> offsets[i] == starts[i];
  }

  lemma BoundaryKept(cuSeqlens: seq<int>, offsets: seq<int>, i: int)
    requires NonDecreasing(cuSeqlens) && 0 <= i < |cuSeqlens|
    requires offsets == ChunkStarts(cuSeqlens, |cuSeqlens| - 1) + [cuSeqlens[|cuSeqlens| - 1]]
    ensures cuSeqlens[i] in offsets
  {
    SequenceKept(cuSeqlens, i, |cuSeqlens| - 1);
    assert offsets[|offsets| - 1] == cuSeqlens[|cuSeqlens| - 1];
  }

  /** Nondecreasing sequence lengths are cut into chunks of exactly 64 tokens, but for a last chunk of 1 to
      64 tokens that ends at a sequence boundary; every boundary is an offset. */
  lemma ChunksCut(cuSeqlens: seq<int>, offsets: seq<int>)
    requires cuSeqlens != [] && NonDecreasing(cuSeqlens)
    requires offsets == ChunkStarts(cuSeqlens, |cuSeqlens| - 1) + [cuSeqlens[|cuSeqlens| - 1]]
    ensures Cut(offsets, cuSeqlens) && offsets[0] == cuSeqlens[0]
    ensures forall i | 0 <= i && i + 1 < |offsets| ::
      offsets[i + 1] - offsets[i] == 64 || (1 <= offsets[i + 1] - offsets[i] <= 64 && offsets[i + 1] in cuSeqlens)
    ensures forall i :: 0 <= i < |cuSeqlens| ==> cuSeqlens[i] in offsets
  {
    StartsOpen(cuSeqlens, |cuSeqlens| - 1);
    ClosedCut(ChunkStarts(cuSeqlens, |cuSeqlens| - 1), cuSeqlens, cuSeqlens[|cuSeqlens| - 1]);
    forall i | 0 <= i < |cuSeqlens|
      ensures cuSeqlens[i] in offsets
    {
      BoundaryKept(cuSeqlens, offsets, i);
    }
  }

  /** The n-th chunk of a sequence starts 64 * n tokens into it, as long as that is inside the sequence. */
  lemma {:induction false} StartsEvery64(begin: int, end: int, n: nat)
    ensures n < |SequenceStarts(begin, end)| <==> begin + 64 * n < end
    ensures n < |SequenceStarts(begin, end)| ==> SequenceStarts(begin, end)[n] == begin + 64 * n
    decreases n
  {
    if begin < end && n > 0 { StartsEvery64(begin + CHUNK, end, n - 1); }
  }

  /** The chunk limits of the example program are the kernel's: 1 to 64 tokens inside [0, t). */
  lemma ChunkLimits(offsets: seq<int>, i: int, t: int)
    requires 0 <= i && i + 1 < |offsets|
    ensures GoodChunk(offsets, i, t) <==> LaneOps.ValidChunk(offsets[i], offsets[i + 1], t)
    ensures GoodChunk(offsets, i, t) <==> 0 <= offsets[i] && offsets[i + 1] <= t && 1 <= offsets[i + 1] - offsets[i] <= 64
  {}

  /** A case is accepted exactly when its dimensions are, its offsets run from 0 to t, and the kernel itself
      accepts every chunk. */
  lemma ValidateCaseIff(t: int, h: int, hg: int, k: int, offsets: seq<int>)
    ensures ValidateCase(t, h, hg, k, offsets)
       <==> t > 0 && h > 0 && hg > 0 && h % hg == 0 && (k == 128 || k == 256)
            && |offsets| >= 2 && offsets[0] == 0 && offsets[|offsets| - 1] == t
            && forall i | 0 <= i && i + 1 < |offsets| :: LaneOps.ValidChunk(offsets[i], offsets[i + 1], t)
  {
    forall i | 0 <= i && i + 1 < |offsets|
      ensures GoodChunk(offsets, i, t) <==> LaneOps.ValidChunk(offsets[i], offsets[i + 1], t)
    {
      ChunkLimits(offsets, i, t);
    }
    var chunks := forall i | 0 <= i && i + 1 < |offsets| :: LaneOps.ValidChunk(offsets[i], offsets[i + 1], t);
    assert chunks <==> forall i :: 0 <= i < |offsets| - 1 ==> GoodChunk(offsets, i, t);
  }

  /** Sequence lengths that start at zero and cover t tokens give a valid case. */
  lemma CutIsValid(offsets: seq<int>, cuSeqlens: seq<int>, t: int, h: int, hg: int, k: int)
    requires t > 0 && h > 0 && hg > 0 && h % hg == 0 && (k == 128 || k == 256)
    requires offsets != [] && offsets[0] == 0 && offsets[|offsets| - 1] == t && Cut(offsets, cuSeqlens)
    ensures ValidateCase(t, h, hg, k, offsets)
  {
    forall i | 0 <= i < |offsets| - 1
      ensures GoodChunk(offsets, i, t)
    {
      Ordered(offsets, 0, i);
      Ordered(offsets, i + 1, |offsets| - 1);
    }
  }

  predicate InChunk(offsets: seq<int>, chunk: int, token: int) {
    0 <= chunk && chunk + 1 < |offsets| && offsets[chunk] <= token < offsets[chunk + 1]
  }

  /** No two chunks of nondecreasing offsets share a token. */
  lemma ChunkUnique(offsets: seq<int>, c: int, d: int, token: int)
    requires NonDecreasing(offsets) && InChunk(offsets, c, token) && InChunk(offsets, d, token)
    ensures c == d
  {
    if c < d { Ordered(offsets, c + 1, d); }
    if d < c { Ordered(offsets, d + 1, c); }
  }

  /** The chunk holding a token, or the offset count when there is none. */
  method FindChunkIndex(offsets: seq<int>, token: int) returns (chunk: int)
    requires NonDecreasing(offsets)
    ensures chunk == |offsets| || InChunk(offsets, chunk, token)
    ensures chunk == |offsets| ==> forall c :: !InChunk(offsets, c, token)
  {
    var it := 0;
    while it < |offsets| && offsets[it] <= token
      invariant 0 <= it <= |offsets| && forall i :: 0 <= i < it ==> offsets[i] <= token
    {
      it := it + 1;
    }
    if it == 0 || it == |offsets| {
      forall c
        ensures !InChunk(offsets, c, token)
      {
        if InChunk(offsets, c, token) && it == 0 { Ordered(offsets, 0, c); }
      }
      return |offsets|;
    }
    return it - 1;
  }

  // Offsets inside the tensors, so that no read of a token leaves them.
  predicate Inside(offsets: seq<int>, t: int) { forall i :: 0 <= i < |offsets| ==> 0 <= offsets[i] <= t }

  // The formula at a token of chunk c.
  ghost function FormulaIn(x: Inputs, offsets: seq<int>, c: int, head: int, token: int, localJ: int): real
    requires Shaped(x) && Inside(offsets, x.t) && 0 <= head < Heads(x) && 0 <= localJ && InChunk(offsets, c, token)
  {
    Formula(x, head, offsets[c], offsets[c + 1], token - offsets[c], localJ)
  }

  /** The expected value at one output position: on whatever tensors the flat inputs lay out, the documented
      value of the token's chunk, zero in no chunk. */
  method ComputeExpectedAt(x: Inputs, offsets: seq<int>, head: int, token: int, localJ: int) returns (expected: real)
    requires Shaped(x) && NonDecreasing(offsets) && Inside(offsets, x.t)
    requires 0 <= head < Heads(x) && 0 <= token < x.t && 0 <= localJ
    ensures forall tensors, c | Flattens(tensors, x) && 0 <= c && c + 1 < |offsets| && offsets[c] <= token < offsets[c + 1] ::
      expected == Documented(tensors, x.A, offsets[c], offsets[c + 1], head, token, localJ)
    ensures (forall c | 0 <= c && c + 1 < |offsets| :: !(offsets[c] <= token < offsets[c + 1])) ==> expected == 0.0
  {
    var chunk := FindChunkIndex(offsets, token);
    if chunk + 1 >= |offsets| {
      assert forall c | 0 <= c && c + 1 < |offsets| && offsets[c] <= token < offsets[c + 1] :: InChunk(offsets, c, token);
      return 0.0;
    }
    expected := ExpectedIn(x, offsets[chunk], offsets[chunk + 1], head, token, localJ);
    ExpectedIsDocumented(x, offsets, chunk, head, token, localJ, expected);
  }

  lemma ExpectedIsDocumented(x: Inputs, offsets: seq<int>, chunk: int, head: int, token: int, localJ: int, v: real)
    requires Shaped(x) && NonDecreasing(offsets) && Inside(offsets, x.t) && InChunk(offsets, chunk, token)
    requires 0 <= head < Heads(x) && 0 <= localJ && v == FormulaIn(x, offsets, chunk, head, token, localJ)
    ensures forall tensors, c | Flattens(tensors, x) && 0 <= c && c + 1 < |offsets| && offsets[c] <= token < offsets[c + 1] ::
      v == Documented(tensors, x.A, offsets[c], offsets[c + 1], head, token, localJ)
  {
    OneChunk(offsets, chunk, token);
    forall tensors, c | Flattens(tensors, x) && 0 <= c && c + 1 < |offsets| && offsets[c] <= token < offsets[c + 1]
      ensures v == Documented(tensors, x.A, offsets[c], offsets[c + 1], head, token, localJ)
    {
      assert InChunk(offsets, c, token);
      FormulaIsDocumented(tensors, x, head, offsets[c], offsets[c + 1], token - offsets[c], localJ);
    }
  }

  lemma OneChunk(offsets: seq<int>, chunk: int, token: int)
    requires NonDecreasing(offsets) && InChunk(offsets, chunk, token)
    ensures forall c :: InChunk(offsets, c, token) ==> c == chunk
  {
    forall c | InChunk(offsets, c, token)
      ensures c == chunk
    {
      ChunkUnique(offsets, c, chunk, token);
    }
  }

  method ExpectedIn(x: Inputs, chunkBegin: int, chunkEnd: int, head: int, token: int, localJ: int) returns (expected: real)
    requires Shaped(x) && 0 <= head < Heads(x) && 0 <= localJ
    requires 0 <= chunkBegin <= token < chunkEnd <= x.t
    ensures expected == Formula(x, head, chunkBegin, chunkEnd, token - chunkBegin, localJ)
  {
    var j := chunkBegin + localJ;
    if j >= chunkEnd {
      return 0.0;
    }
    GateInside(head, token, x.t, Heads(x));
    GateInside(head, j, x.t, Heads(x));
    var diff := x.g[head * x.t + token] - x.g[head * x.t + j];
    if !(diff < 0.0) {
      return 0.0;
    }
    HeadsPerKv(x);
    var kv := head / (Heads(x) / x.hg);
    assert kv == KvOf(x, head);
    var dot := DotLoop(x, kv, token, j);
    expected := x.A.times(x.A.times(x.beta[head * x.t + token], x.A.exp(diff)), dot);
  }

  lemma HeadsPerKv(x: Inputs)
    requires Shaped(x)
    ensures Heads(x) / x.hg == x.numRepeat
  {
    assert Heads(x) == x.numRepeat * x.hg;
    DivUnique(x.numRepeat, x.hg, 0);
  }

  lemma ChunkExists(offsets: seq<int>, token: int)
    requires |offsets| >= 2 && offsets[0] <= token < offsets[|offsets| - 1]
    ensures exists c :: InChunk(offsets, c, token)
  {
    var c := 0;
    while offsets[c + 1] <= token
      invariant 0 <= c && c + 1 < |offsets| && offsets[c] <= token
      decreases |offsets| - c
    {
      c := c + 1;
    }
    assert InChunk(offsets, c, token);
  }

  /** In an accepted case the chunks cover every token, and each satisfies the kernel's own limits. */
  lemma AcceptedCovers(t: int, h: int, hg: int, k: int, offsets: seq<int>, token: int)
    requires ValidateCase(t, h, hg, k, offsets) && 0 <= token < t
    ensures NonDecreasing(offsets) && Inside(offsets, t)
    ensures exists c :: InChunk(offsets, c, token)
    ensures forall c :: InChunk(offsets, c, token) ==> GoodChunk(offsets, c, t)
  {
    GoodIncreasing(offsets, t);
    ChunkExists(offsets, token);
    forall i | 0 <= i < |offsets|
      ensures 0 <= offsets[i] <= t
    {
      Ordered(offsets, 0, i);
      Ordered(offsets, i, |offsets| - 1);
    }
  }

  method DotLoop(x: Inputs, kv: int, token: int, j: int) returns (dot: real)
    requires Shaped(x) && 0 <= kv < x.hg && 0 <= token < x.t && 0 <= j < x.t
    ensures dot == Dot(x, kv, token, j)
  {
    KInside(token, kv, x.t, x.hg, x.kDim);
    KInside(j, kv, x.t, x.hg, x.kDim);
    var iRow, jRow := (token * x.hg + kv) * x.kDim, (j * x.hg + kv) * x.kDim;
    ghost var terms := CubeGram.RowTerms(x.k, iRow, jRow, x.kDim);
    dot := 0.0;
    for d := 0 to x.kDim
      invariant dot == CubeGram.Sum(terms[..d])
    {
      CubeGram.SumStep(terms, d, x.k[iRow + d], x.k[jRow + d]);
      dot := dot + x.k[iRow + d] * x.k[jRow + d];
    }
    assert terms[..x.kDim] == terms;
  }
}
