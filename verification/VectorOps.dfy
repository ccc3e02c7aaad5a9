/** The vector and copy instructions the lane uses, each as a small array operation fixed by its call
    parameters.  A tensor view is an array and an offset.  Contracts speak of absolute positions: what
    every written position holds, and that no other position changed. */
module VectorOps {
  import opened VectorArithmetic

  const ROW_ELEMS := 64
  const KKT_ELEMS := 4096

  // The window [at, at + count) lies inside the array.
  predicate Window(a: array<real>, at: int, count: int) { 0 <= at && 0 <= count && at + count <= a.Length }

  method Duplicate(dst: array<real>, d: int, value: real, count: int)
    requires Window(dst, d, count)
    modifies dst
    ensures forall x :: d <= x < d + count ==> dst[x] == value
    ensures forall x :: 0 <= x < dst.Length && !(d <= x < d + count) ==> dst[x] == old(dst[x])
  {
    for k := d to d + count
      invariant forall x :: d <= x < k ==> dst[x] == value
      invariant forall x :: 0 <= x < dst.Length && !(d <= x < k) ==> dst[x] == old(dst[x])
    {
      dst[k] := value;
    }
  }

  method Muls(dst: array<real>, src: array<real>, s: int, scalar: real, count: int)
    requires Window(dst, 0, count) && Window(src, s, count) && dst != src
    modifies dst
    ensures forall x :: 0 <= x < count ==> dst[x] == src[s + x] * scalar
    ensures forall x :: count <= x < dst.Length ==> dst[x] == old(dst[x])
  {
    for k := 0 to count
      invariant forall x :: 0 <= x < k ==> dst[x] == src[s + x] * scalar
      invariant forall x :: k <= x < dst.Length ==> dst[x] == old(dst[x])
    {
      dst[k] := src[s + k] * scalar;
    }
  }

  // Each of 8 * repeats source scalars fills one 32-byte block of eight elements.
  method Brcb(dst: array<real>, d: int, src: array<real>, s: int, repeats: int)
    requires 0 <= repeats && Window(dst, d, 64 * repeats) && Window(src, s, 8 * repeats) && dst != src
    modifies dst
    ensures forall x :: d <= x < d + 64 * repeats ==> dst[x] == src[s + (x - d) / 8]
    ensures forall x :: 0 <= x < dst.Length && !(d <= x < d + 64 * repeats) ==> dst[x] == old(dst[x])
  {
    for k := 0 to 64 * repeats
      invariant forall x :: d <= x < d + k ==> dst[x] == src[s + (x - d) / 8]
      invariant forall x :: 0 <= x < dst.Length && !(d <= x < d + k) ==> dst[x] == old(dst[x])
    {
      dst[d + k] := src[s + k / 8];
    }
  }

  // Row-repeat compare with strides {1,0,1,1,1,0}: src0 gives one broadcast block per row, src1 one
  // 64-element vector for all rows.
  method CompareRowsLT(mask: array<bool>, m: int, src0: array<real>, s0: int, src1: array<real>, s1: int, rows: int)
    requires 0 <= m && 0 <= rows && m + 64 * rows <= mask.Length
    requires Window(src0, s0, 8 * rows) && Window(src1, s1, 64)
    modifies mask
    ensures forall x :: m <= x < m + 64 * rows ==>
      mask[x] == (src0[s0 + 8 * ((x - m) / 64) + (x - m) % 8] < src1[s1 + (x - m) % 64])
    ensures forall x :: 0 <= x < mask.Length && !(m <= x < m + 64 * rows) ==> mask[x] == old(mask[x])
  {
    for k := 0 to 64 * rows
      invariant forall x :: m <= x < m + k ==>
        mask[x] == (src0[s0 + 8 * ((x - m) / 64) + (x - m) % 8] < src1[s1 + (x - m) % 64])
      invariant forall x :: 0 <= x < mask.Length && !(m <= x < m + k) ==> mask[x] == old(mask[x])
    {
      mask[m + k] := src0[s0 + 8 * (k / 64) + k % 8] < src1[s1 + k % 64];
    }
  }

  // Element-wise exponential, possibly in place.
  method Exp(dst: array<real>, d: int, src: array<real>, s: int, count: int, A: Arithmetic)
    requires Window(dst, d, count) && Window(src, s, count) && (dst == src ==> d == s)
    modifies dst
    ensures forall x :: d <= x < d + count ==> dst[x] == A.exp(old(src[s + (x - d)]))
    ensures forall x :: 0 <= x < dst.Length && !(d <= x < d + count) ==> dst[x] == old(dst[x])
  {
    for k := d to d + count
      invariant forall x :: d <= x < k ==> dst[x] == A.exp(old(src[s + (x - d)]))
      invariant forall x :: 0 <= x < dst.Length && !(d <= x < k) ==> dst[x] == old(dst[x])
    {
      dst[k] := A.exp(src[s + (k - d)]);
    }
  }

  // BF16 to FP32 widening is exact, so over reals it is a copy.
  method Cast(dst: array<real>, d: int, src: array<real>, s: int, count: int)
    requires Window(dst, d, count) && Window(src, s, count) && dst != src
    modifies dst
    ensures forall x :: d <= x < d + count ==> dst[x] == src[s + (x - d)]
    ensures forall x :: 0 <= x < dst.Length && !(d <= x < d + count) ==> dst[x] == old(dst[x])
  {
    for k := d to d + count
      invariant forall x :: d <= x < k ==> dst[x] == src[s + (x - d)]
      invariant forall x :: 0 <= x < dst.Length && !(d <= x < k) ==> dst[x] == old(dst[x])
    {
      dst[k] := src[s + (k - d)];
    }
  }

  // dst := src * dst, element by element.
  method MulInto(dst: array<real>, d: int, src: array<real>, s: int, count: int, A: Arithmetic)
    requires Window(dst, d, count) && Window(src, s, count) && dst != src
    modifies dst
    ensures forall x :: d <= x < d + count ==> dst[x] == A.times(src[s + (x - d)], old(dst[x]))
    ensures forall x :: 0 <= x < dst.Length && !(d <= x < d + count) ==> dst[x] == old(dst[x])
  {
    for k := d to d + count
      invariant forall x :: d <= x < k ==> dst[x] == A.times(src[s + (x - d)], old(dst[x]))
      invariant forall x :: 0 <= x < dst.Length && !(d <= x < k) ==> dst[x] == old(dst[x])
    {
      dst[k] := A.times(src[s + (k - d)], dst[k]);
    }
  }

  // Row-repeat multiply with strides {1,1,0,8,0,1}: a 64-element vector times one scalar block a row.
  method MulRows(dst: array<real>, d: int, columns: array<real>, s0: int, blocks: array<real>, s1: int, rows: int, A: Arithmetic)
    requires 0 <= rows && Window(dst, d, 64 * rows) && Window(columns, s0, 64) && Window(blocks, s1, 8 * rows)
    requires dst != columns && dst != blocks
    modifies dst
    ensures forall x :: d <= x < d + 64 * rows ==>
      dst[x] == A.times(columns[s0 + (x - d) % 64], blocks[s1 + 8 * ((x - d) / 64) + (x - d) % 8])
    ensures forall x :: 0 <= x < dst.Length && !(d <= x < d + 64 * rows) ==> dst[x] == old(dst[x])
  {
    for k := 0 to 64 * rows
      invariant forall x :: d <= x < d + k ==>
        dst[x] == A.times(columns[s0 + (x - d) % 64], blocks[s1 + 8 * ((x - d) / 64) + (x - d) % 8])
      invariant forall x :: 0 <= x < dst.Length && !(d <= x < d + k) ==> dst[x] == old(dst[x])
    {
      var column, block := columns[s0 + k % 64], blocks[s1 + 8 * (k / 64) + k % 8];
      dst[d + k] := A.times(column, block);
    }
  }

  // Row-repeat multiply with strides {1,1,0,8,8,1}, in place: every row times its scalar block.
  method ScaleRows(dst: array<real>, d: int, blocks: array<real>, s: int, rows: int, A: Arithmetic)
    requires 0 <= rows && Window(dst, d, 64 * rows) && Window(blocks, s, 8 * rows) && dst != blocks
    modifies dst
    ensures forall x :: d <= x < d + 64 * rows ==>
      dst[x] == A.times(old(dst[x]), blocks[s + 8 * ((x - d) / 64) + (x - d) % 8])
    ensures forall x :: 0 <= x < dst.Length && !(d <= x < d + 64 * rows) ==> dst[x] == old(dst[x])
  {
    for k := 0 to 64 * rows
      invariant forall x :: d <= x < d + k ==>
        dst[x] == A.times(old(dst[x]), blocks[s + 8 * ((x - d) / 64) + (x - d) % 8])
      invariant forall x :: 0 <= x < dst.Length && !(d <= x < d + k) ==> dst[x] == old(dst[x])
    {
      dst[d + k] := A.times(dst[d + k], blocks[s + 8 * (k / 64) + k % 8]);
    }
  }

  // Row-repeat add with strides {1,1,0,8,0,1}.
  method AddRows(dst: array<real>, d: int, columns: array<real>, s0: int, blocks: array<real>, s1: int, rows: int)
    requires 0 <= rows && Window(dst, d, 64 * rows) && Window(columns, s0, 64) && Window(blocks, s1, 8 * rows)
    requires dst != columns && dst != blocks
    modifies dst
    ensures forall x :: d <= x < d + 64 * rows ==>
      dst[x] == columns[s0 + (x - d) % 64] + blocks[s1 + 8 * ((x - d) / 64) + (x - d) % 8]
    ensures forall x :: 0 <= x < dst.Length && !(d <= x < d + 64 * rows) ==> dst[x] == old(dst[x])
  {
    for k := 0 to 64 * rows
      invariant forall x :: d <= x < d + k ==>
        dst[x] == columns[s0 + (x - d) % 64] + blocks[s1 + 8 * ((x - d) / 64) + (x - d) % 8]
      invariant forall x :: 0 <= x < dst.Length && !(d <= x < d + k) ==> dst[x] == old(dst[x])
    {
      dst[d + k] := columns[s0 + k % 64] + blocks[s1 + 8 * (k / 64) + k % 8];
    }
  }

  method CompareScalarLT(mask: array<bool>, m: int, src: array<real>, s: int, scalar: real, count: int)
    requires 0 <= m && 0 <= count && m + count <= mask.Length && Window(src, s, count)
    modifies mask
    ensures forall x :: m <= x < m + count ==> mask[x] == (src[s + (x - m)] < scalar)
    ensures forall x :: 0 <= x < mask.Length && !(m <= x < m + count) ==> mask[x] == old(mask[x])
  {
    for k := m to m + count
      invariant forall x :: m <= x < k ==> mask[x] == (src[s + (x - m)] < scalar)
      invariant forall x :: 0 <= x < mask.Length && !(m <= x < k) ==> mask[x] == old(mask[x])
    {
      mask[k] := src[s + (k - m)] < scalar;
    }
  }

  // Keep the masked positions, put the scalar everywhere else.
  method Select(dst: array<real>, d: int, mask: array<bool>, m: int, scalar: real, count: int)
    requires Window(dst, d, count) && 0 <= m && m + count <= mask.Length
    modifies dst
    ensures forall x :: d <= x < d + count ==>
      dst[x] == if mask[m + (x - d)] then old(dst[x]) else scalar
    ensures forall x :: 0 <= x < dst.Length && !(d <= x < d + count) ==> dst[x] == old(dst[x])
  {
    for k := d to d + count
      invariant forall x :: d <= x < k ==> dst[x] == if mask[m + (x - d)] then old(dst[x]) else scalar
      invariant forall x :: 0 <= x < dst.Length && !(d <= x < k) ==> dst[x] == old(dst[x])
    {
      if !mask[m + (k - d)] {
        dst[k] := scalar;
      }
    }
  }
}
