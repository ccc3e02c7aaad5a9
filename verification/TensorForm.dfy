/** The operator on nested tensors, as its documentation writes it: K[token][KV head][d], beta[head][token]
    and g[head][token].  Nothing here forms an address; the flat inputs are the tensors laid end to end. */
module TensorForm {
  import opened VectorArithmetic
  import opened Schedule
  import opened Semantics
  import CubeGram

  /** k is [T, Hg, K]; beta and g are [H, T] with H = Hg * R. */
  datatype Tensors = Tensors(t: int, hg: int, numRepeat: int, kDim: int,
                             k: seq<seq<seq<real>>>, beta: seq<seq<real>>, g: seq<seq<real>>)
  {
    predicate Valid() {
      && t >= 1 && hg >= 1 && numRepeat >= 1 && (kDim == 128 || kDim == 256)
      && |k| == t && (forall i :: 0 <= i < t ==> |k[i]| == hg)
      && (forall i, kv :: 0 <= i < t && 0 <= kv < hg ==> |k[i][kv]| == kDim)
      && |beta| == |g| == hg * numRepeat
      && (forall h :: 0 <= h < |beta| ==> |beta[h]| == t) && (forall h :: 0 <= h < |g| ==> |g[h]| == t)
    }
  }

  // The rows laid end to end.
  function Concat<T>(rows: seq<seq<T>>): seq<T> {
    if rows == [] then [] else rows[0] + Concat(rows[1..])
  }

  function RowDot(a: seq<real>, b: seq<real>): real
    requires |a| == |b|
  {
    if a == [] then 0.0 else a[0] * b[0] + RowDot(a[1..], b[1..])
  }

  /** The documented value at (head, token, j) for the chunk [start, end) of the token; each KV head serves
      numRepeat consecutive query heads. */
  ghost function Documented(x: Tensors, A: Arithmetic, start: int, end: int, head: int, token: int, j: int): real
    requires x.Valid() && 0 <= head < x.hg * x.numRepeat && 0 <= start <= token < end <= x.t && 0 <= j
  {
    KvHeadInside(head, x.hg, x.numRepeat);
    if j < end - start && x.g[head][token] - x.g[head][start + j] < 0.0 then
      A.times(A.times(x.beta[head][token], A.exp(x.g[head][token] - x.g[head][start + j])),
              RowDot(x.k[token][head / x.numRepeat], x.k[start + j][head / x.numRepeat]))
    else 0.0
  }

  /** The flat inputs of a call are these tensors. */
  ghost predicate Flattens(x: Tensors, flat: Inputs) {
    && x.Valid() && flat.t == x.t && flat.hg == x.hg && flat.numRepeat == x.numRepeat && flat.kDim == x.kDim
    && flat.k == Concat(Concat(x.k)) && flat.beta == Concat(x.beta) && flat.g == Concat(x.g)
  }

  function Flat(x: Tensors, A: Arithmetic): Inputs {
    Inputs(x.t, x.hg, x.numRepeat, x.kDim, Concat(Concat(x.k)), Concat(x.beta), Concat(x.g), A)
  }

  // ---------------------------------------------------------------- positions of laid out rows

  lemma {:induction false} ConcatSize<T>(rows: seq<seq<T>>, n: int)
    requires n >= 0 && forall i :: 0 <= i < |rows| ==> |rows[i]| == n
    ensures |Concat(rows)| == |rows| * n
  {
    if rows != [] {
      ConcatSize(rows[1..], n);
      assert |rows| * n == n + (|rows| - 1) * n;
    }
  }

  lemma {:induction false} ConcatAt<T>(rows: seq<seq<T>>, n: int, i: int, j: int)
    requires n >= 0 && forall i :: 0 <= i < |rows| ==> |rows[i]| == n
    requires 0 <= i < |rows| && 0 <= j < n
    ensures 0 <= i * n + j < |Concat(rows)| && Concat(rows)[i * n + j] == rows[i][j]
    decreases i
  {
    if i > 0 {
      ConcatAt(rows[1..], n, i - 1, j);
      assert i * n + j == n + ((i - 1) * n + j);
      assert rows[1..][i - 1] == rows[i];
    }
  }

  lemma {:induction false} SameRows<T>(rows: seq<seq<T>>, n: int)
    requires n >= 0 && forall i :: 0 <= i < |rows| ==> |rows[i]| == n
    ensures forall row :: row in Concat(rows) ==> exists i :: 0 <= i < |rows| && row in rows[i]
  {
    if rows != [] {
      SameRows(rows[1..], n);
      forall row | row in Concat(rows)
        ensures exists i :: 0 <= i < |rows| && row in rows[i]
      {
        assert Concat(rows) == rows[0] + Concat(rows[1..]);
        if row !in rows[0] {
          var i :| 0 <= i < |rows[1..]| && row in rows[1..][i];
          assert row in rows[i + 1];
        }
      }
    }
  }

  // All K rows are of one length.
  lemma KRowsShaped(x: Tensors)
    requires x.Valid()
    ensures forall r :: 0 <= r < |Concat(x.k)| ==> |Concat(x.k)[r]| == x.kDim
  {
    SameRows(x.k, x.hg);
    forall r | 0 <= r < |Concat(x.k)|
      ensures |Concat(x.k)[r]| == x.kDim
    {
      assert Concat(x.k)[r] in Concat(x.k);
      var i :| 0 <= i < |x.k| && Concat(x.k)[r] in x.k[i];
      var kv :| 0 <= kv < |x.k[i]| && x.k[i][kv] == Concat(x.k)[r];
    }
  }

  /** Element d of KV head kv's row of a token lies at ((token * hg) + kv) * kDim + d. */
  lemma KAt(x: Tensors, flat: Inputs, token: int, kv: int, d: int)
    requires Flattens(x, flat) && 0 <= token < flat.t && 0 <= kv < flat.hg && 0 <= d < flat.kDim
    ensures 0 <= (token * flat.hg + kv) * flat.kDim + d < |flat.k|
    ensures flat.k[(token * flat.hg + kv) * flat.kDim + d] == x.k[token][kv][d]
  {
    KRowsShaped(x);
    ConcatAt(x.k, flat.hg, token, kv);
    ConcatAt(Concat(x.k), flat.kDim, token * flat.hg + kv, d);
  }

  /** Element (head, token) of beta and g lies at head * t + token. */
  lemma GateIs(x: Tensors, flat: Inputs, head: int, token: int)
    requires Flattens(x, flat) && 0 <= head < flat.hg * flat.numRepeat && 0 <= token < flat.t
    ensures 0 <= head * flat.t + token < |flat.g| && 0 <= head * flat.t + token < |flat.beta|
    ensures flat.g[head * flat.t + token] == x.g[head][token]
    ensures flat.beta[head * flat.t + token] == x.beta[head][token]
  {
    ConcatAt(x.g, flat.t, head, token);
    ConcatAt(x.beta, flat.t, head, token);
  }

  lemma FlatShaped(x: Tensors, flat: Inputs)
    requires Flattens(x, flat)
    ensures Semantics.Shaped(flat)
  {
    KRowsShaped(x);
    ConcatSize(x.k, flat.hg);
    ConcatSize(Concat(x.k), flat.kDim);
    ConcatSize(x.beta, flat.t);
    ConcatSize(x.g, flat.t);
  }

  // ---------------------------------------------------------------- the flat formula is the documented one

  lemma {:induction false} SumIsRowDot(terms: CubeGram.Pairs, a: seq<real>, b: seq<real>)
    requires |terms| == |a| == |b| && forall d :: 0 <= d < |terms| ==> terms[d] == (a[d], b[d])
    ensures CubeGram.Sum(terms) == RowDot(a, b)
  {
    if terms != [] {
      SumIsRowDot(terms[1..], a[1..], b[1..]);
      CubeGram.SumConcat([terms[0]], terms[1..]);
      assert [terms[0]] + terms[1..] == terms;
      assert [terms[0]][..0] == [] && CubeGram.Sum([terms[0]]) == 0.0 + a[0] * b[0];
    }
  }

  /** The dot product of two tokens is that of their K rows of one KV head. */
  lemma DotIsRows(x: Tensors, flat: Inputs, kv: int, i: int, j: int)
    requires Flattens(x, flat) && 0 <= kv < flat.hg && 0 <= i < flat.t && 0 <= j < flat.t
    ensures Semantics.Shaped(flat) && Dot(flat, kv, i, j) == RowDot(x.k[i][kv], x.k[j][kv])
  {
    FlatShaped(x, flat);
    KInside(i, kv, flat.t, flat.hg, flat.kDim);
    KInside(j, kv, flat.t, flat.hg, flat.kDim);
    var terms := CubeGram.RowTerms(flat.k, KRow(i, kv, flat.hg, flat.kDim), KRow(j, kv, flat.hg, flat.kDim), flat.kDim);
    forall d | 0 <= d < flat.kDim
      ensures terms[d] == (x.k[i][kv][d], x.k[j][kv][d])
    {
      KAt(x, flat, i, kv, d);
      KAt(x, flat, j, kv, d);
    }
    SumIsRowDot(terms, x.k[i][kv], x.k[j][kv]);
  }

  /** The Gram tile of (chunk, KV head) holds the dot products of that head's rows, zeros beyond the chunk. */
  lemma GramIsRows(x: Tensors, flat: Inputs, start: int, chunkLen: int, kv: int, m: int, n: int)
    requires Flattens(x, flat) && 0 <= start && start + chunkLen <= flat.t && 0 <= kv < flat.hg && 0 <= m && 0 <= n
    ensures Semantics.Shaped(flat)
    ensures Gram(flat, start, chunkLen, kv, m, n)
         == if m < chunkLen && n < chunkLen then RowDot(x.k[start + m][kv], x.k[start + n][kv]) else 0.0
  {
    FlatShaped(x, flat);
    GramIsDot(flat, start, chunkLen, kv, m, n);
    if m < chunkLen && n < chunkLen { DotIsRows(x, flat, kv, start + m, start + n); }
  }

  /** On the flat inputs the formula is the documented value, for the token start + i of a chunk. */
  lemma FormulaIsDocumented(x: Tensors, flat: Inputs, head: int, start: int, end: int, i: int, j: int)
    requires Flattens(x, flat) && 0 <= head < flat.hg * flat.numRepeat
    requires 0 <= start && end <= flat.t && 0 <= i < end - start && 0 <= j
    ensures Semantics.Shaped(flat)
    ensures Formula(flat, head, start, end, i, j)
         == Documented(x, flat.A, start, end, head, start + i, j)
  {
    FlatShaped(x, flat);
    KvHeadInside(head, flat.hg, flat.numRepeat);
    GateIs(x, flat, head, start + i);
    if j < end - start {
      GateIs(x, flat, head, start + j);
      DotIsRows(x, flat, head / flat.numRepeat, start + i, start + j);
    }
  }

  /** Over exact arithmetic the documented value is beta * exp(g_i - g_j) * dot. */
  lemma ExactValue(x: Tensors, E: real -> real, start: int, end: int, head: int, token: int, j: int)
    requires x.Valid() && 0 <= head < x.hg * x.numRepeat && 0 <= start <= token < end <= x.t && 0 <= j
    ensures 0 <= head / x.numRepeat < x.hg
    ensures Documented(x, RealArithmetic(E), start, end, head, token, j)
         == if j < end - start && x.g[head][token] < x.g[head][start + j]
            then x.beta[head][token] * E(x.g[head][token] - x.g[head][start + j])
                 * RowDot(x.k[token][head / x.numRepeat], x.k[start + j][head / x.numRepeat])
            else 0.0
  {
    KvHeadInside(head, x.hg, x.numRepeat);
  }

  // ---------------------------------------------------------------- every flat input is some tensors

  // The inverse of laying rows end to end.
  function Split<T>(flat: seq<T>, count: nat, n: nat): (rows: seq<seq<T>>)
    requires |flat| == count * n
    ensures |rows| == count && forall i :: 0 <= i < count ==> |rows[i]| == n
    decreases count
  {
    if count == 0 then []
    else
      assert count * n == n + (count - 1) * n;
      [flat[..n]] + Split(flat[n..], count - 1, n)
  }

  lemma {:induction false} ConcatSplit<T>(flat: seq<T>, count: nat, n: nat)
    requires |flat| == count * n
    ensures Concat(Split(flat, count, n)) == flat
    decreases count
  {
    if count > 0 {
      assert count * n == n + (count - 1) * n;
      ConcatSplit(flat[n..], count - 1, n);
      assert Split(flat, count, n)[1..] == Split(flat[n..], count - 1, n);
      assert flat[..n] + flat[n..] == flat;
    }
  }

  /** Every well-shaped flat input lays out some tensors, so nothing is lost by speaking of tensors. */
  lemma EveryInput(flat: Inputs) returns (x: Tensors)
    requires Semantics.Shaped(flat)
    ensures Flattens(x, flat)
  {
    assert flat.t * flat.hg >= 0;
    var rows := Split(flat.k, flat.t * flat.hg, flat.kDim);
    ConcatSplit(flat.k, flat.t * flat.hg, flat.kDim);
    var k := Split(rows, flat.t, flat.hg);
    ConcatSplit(rows, flat.t, flat.hg);
    assert flat.hg * flat.numRepeat >= 0;
    var beta := Split(flat.beta, flat.hg * flat.numRepeat, flat.t);
    ConcatSplit(flat.beta, flat.hg * flat.numRepeat, flat.t);
    var g := Split(flat.g, flat.hg * flat.numRepeat, flat.t);
    ConcatSplit(flat.g, flat.hg * flat.numRepeat, flat.t);
    x := Tensors(flat.t, flat.hg, flat.numRepeat, flat.kDim, k, beta, g);
    forall i, kv | 0 <= i < flat.t && 0 <= kv < flat.hg
      ensures |k[i][kv]| == flat.kDim
    {
      ConcatAt(k, flat.hg, i, kv);
    }
  }
}
