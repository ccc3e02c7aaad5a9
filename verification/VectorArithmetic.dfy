/** The arithmetic of PIPE_V that the factor path only rearranges: its multiply and its exponential.
    They are parameters.  What the proofs use is stated pointwise, so that every law is applied exactly
    where the code relies on it. */
module VectorArithmetic {

  datatype Arithmetic = Arithmetic(times: (real, real) -> real, exp: real -> real)

  // exp(gi - gj) splits, for the gates of a masked position.
  predicate DifferenceLaw(A: Arithmetic, gi: real, gj: real) {
    gi < gj ==> A.exp(gi - gj) == A.times(A.exp(gi), A.exp(gj * -1.0))
  }

  // The released path's order of the four factors against the formula's.
  predicate ReordersFour(A: Arithmetic, dot: real, ej: real, b: real, ei: real) {
    A.times(dot, A.times(ej, A.times(b, ei))) == A.times(A.times(b, A.times(ei, ej)), dot)
  }

  // v03's order of its three factors against the formula's.
  predicate ReordersThree(A: Arithmetic, dot: real, e: real, b: real) {
    A.times(dot, A.times(e, b)) == A.times(A.times(b, e), dot)
  }

  // A zero KKT value or exponential stays zero.
  predicate Absorbs(A: Arithmetic, v: real) {
    A.times(0.0, v) == 0.0 && A.times(v, 0.0) == 0.0
  }

  /** A commutative, associative multiply with an absorbing zero. */
  ghost predicate Laws(A: Arithmetic) {
    && (forall d, ej, b, ei {:trigger ReordersFour(A, d, ej, b, ei)} :: ReordersFour(A, d, ej, b, ei))
    && (forall d, e, b {:trigger ReordersThree(A, d, e, b)} :: ReordersThree(A, d, e, b))
    && (forall v {:trigger Absorbs(A, v)} :: Absorbs(A, v))
  }

  /** The law of the exponential. */
  ghost predicate Exponential(E: real -> real) {
    forall a, b :: E(a + b) == E(a) * E(b)
  }

  // Exact real multiplication with a given exponential.
  function RealArithmetic(E: real -> real): Arithmetic { Arithmetic((a, b) => a * b, E) }

  // Whatever the exponential, exact multiplication obeys the laws of the multiply.
  lemma MultiplyLaws(E: real -> real)
    ensures Laws(RealArithmetic(E))
  {
    var A := RealArithmetic(E);
    forall d, ej, b, ei
      ensures ReordersFour(A, d, ej, b, ei)
    {
      Reorder(d, ej, b, ei);
    }
  }

  /** Exact arithmetic with a true exponential satisfies everything the released path asks of PIPE_V. */
  lemma RealLaws(E: real -> real, gi: real, gj: real)
    requires Exponential(E)
    ensures Laws(RealArithmetic(E)) && DifferenceLaw(RealArithmetic(E), gi, gj)
  {
    MultiplyLaws(E);
    assert gi - gj == gi + gj * -1.0;
  }

  lemma Reorder(d: real, ej: real, b: real, ei: real)
    ensures d * (ej * (b * ei)) == b * (ei * ej) * d
  {
    assert ej * (b * ei) == b * (ei * ej);
  }
}
