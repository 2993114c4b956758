/** Concrete cases from the library's unit tests, restated over exact
    arithmetic, plus two shapes taken from the operator constructor: a
    ragged matrix and the degenerate n x 0 operator. */
module Scenarios {
  import opened Results
  import opened Scalars
  import opened ComplexVectors
  import opened LinearOperators

  const I: Complex := Complex(0.0, 1.0)

  function R(x: real): Complex {
    OfReal(x)
  }

  /** `ComplexVector([1, 2j])` has dimension 2 and coordinates (1+0j, 0+2j):
      the integer 1 is coerced to the complex number 1+0j. */
  lemma InitializationScenario()
    ensures ComplexVector([R(1.0), Complex(0.0, 2.0)]).Dimension() == 2
    ensures ComplexVector([R(1.0), Complex(0.0, 2.0)]).coordinates
         == [Complex(1.0, 0.0), Complex(0.0, 2.0)]
  {
  }

  /** [1, 2] + [3, 4] = [4, 6]. */
  lemma AdditionScenario()
    ensures ComplexVectors.Add(FromReals([1.0, 2.0]), FromReals([3.0, 4.0])) == Ok(FromReals([4.0, 6.0]))
  {
    assert ComplexVectors.Add(FromReals([1.0, 2.0]), FromReals([3.0, 4.0])).value.coordinates
        == FromReals([4.0, 6.0]).coordinates;
  }

  /** [1] + [1, 2] is refused with both dimensions. */
  lemma AdditionMismatchScenario()
    ensures ComplexVectors.Add(FromReals([1.0]), FromReals([1.0, 2.0])) == Err(DimensionMismatch(1, 2))
  {
  }

  /** [1, -1] * 2 = [2, -2] and 3 * [1, -1] = [3, -3]. */
  lemma ScalarMultiplicationScenario()
    ensures Scale(FromReals([1.0, -1.0]), R(2.0)) == FromReals([2.0, -2.0])
    ensures LeftScale(R(3.0), FromReals([1.0, -1.0])) == FromReals([3.0, -3.0])
  {
    var v := FromReals([1.0, -1.0]);
    assert v.coordinates == [R(1.0), R(-1.0)];
    assert Mul(R(1.0), R(2.0)) == R(2.0);
    assert Mul(R(-1.0), R(2.0)) == R(-2.0);
    assert Scale(v, R(2.0)).coordinates == [R(2.0), R(-2.0)];
    assert Mul(R(1.0), R(3.0)) == R(3.0);
    assert Mul(R(-1.0), R(3.0)) == R(-3.0);
    assert Scale(v, R(3.0)).coordinates == [R(3.0), R(-3.0)];
  }

  /** <[1j, 1], [1j, 1]> = 2. */
  lemma InnerProductScenario()
    ensures InnerProduct(ComplexVector([I, One]), ComplexVector([I, One])) == Ok(R(2.0))
  {
    var v := ComplexVector([I, One]);
    assert Sums.Pairwise(Sums.ConjAll(v.coordinates), v.coordinates) == [One, One];
    assert Sums.Sum([One, One][..1]) == One;
  }

  lemma NormScenarioTerms(v: ComplexVector)
    requires v == ComplexVector([R(3.0), Complex(0.0, 4.0)])
    ensures Sums.Pairwise(Sums.ConjAll(v.coordinates), v.coordinates) == [R(9.0), R(16.0)]
  {
  }

  /** |[3, 4j]|² = 3·3 + (-4j)(4j) = 25 (the norm itself is 5). */
  lemma NormScenario(v: ComplexVector)
    requires v == ComplexVector([R(3.0), Complex(0.0, 4.0)])
    ensures InnerProduct(v, v) == Ok(R(25.0))
    ensures NormSquared(v) == 25.0
  {
    NormScenarioTerms(v);
    assert Sums.Sum([R(9.0), R(16.0)][..1]) == R(9.0);
  }

  /** The zero vector [0, 0] has norm 0, and [1e-9, 0] has a positive norm. */
  lemma ZeroVectorNormScenario(z: ComplexVector, n: ComplexVector)
    requires z == ComplexVector([Zero, Zero])
    requires n == ComplexVector([R(0.000000001), Zero])
    ensures NormSquared(z) == 0.0
    ensures NormSquared(n) > 0.0
  {
    assert z == Zeros(2);
    assert n.coordinates[0] != Zero;
    assert n != Zeros(2);
  }

  /** The terms of <[1+2j, 3], [2-1j, 4]> and of the reversed product. */
  lemma ConjugateSymmetryTerms(a: Complex, b: Complex, c: Complex, d: Complex)
    requires a == Complex(1.0, 2.0) && b == R(3.0)
    requires c == Complex(2.0, -1.0) && d == R(4.0)
    ensures Mul(Conj(a), c) == Complex(0.0, -5.0)
    ensures Mul(Conj(c), a) == Complex(0.0, 5.0)
    ensures Mul(Conj(b), d) == R(12.0)
    ensures Mul(Conj(d), b) == R(12.0)
  {
  }

  /** <[1+2j, 3], [2-1j, 4]> = 12-5j, the conjugate of the reversed product
      12+5j. */
  lemma ConjugateSymmetryScenario(v: ComplexVector, w: ComplexVector)
    requires v == ComplexVector([Complex(1.0, 2.0), R(3.0)])
    requires w == ComplexVector([Complex(2.0, -1.0), R(4.0)])
    ensures InnerProduct(v, w) == Ok(Complex(12.0, -5.0))
    ensures InnerProduct(w, v) == Ok(Complex(12.0, 5.0))
    ensures InnerProduct(v, w).value == Conj(InnerProduct(w, v).value)
  {
    var a, b := v.coordinates[0], v.coordinates[1];
    var c, d := w.coordinates[0], w.coordinates[1];
    ConjugateSymmetryTerms(a, b, c, d);
    assert Sums.ConjAll(v.coordinates) == [Conj(a), Conj(b)];
    assert Sums.ConjAll(w.coordinates) == [Conj(c), Conj(d)];
    DotOfPairs(Conj(a), Conj(b), c, d);
    DotOfPairs(Conj(c), Conj(d), a, b);
  }

  /** The operator [[1, 2j], [3, 4]] is accepted unchanged as a 2 x 2
      operator. */
  lemma ConstructionScenario(m: seq<seq<Complex>>)
    requires m == [[R(1.0), Complex(0.0, 2.0)], [R(3.0), R(4.0)]]
    ensures New(m) == Ok(LinearOperator(m))
    ensures LinearOperator(m).InputDim() == 2
    ensures LinearOperator(m).OutputDim() == 2
  {
    assert LinearOperator(m).Valid();
  }

  /** The adjoint of [[1, 2j], [3, 4]] is [[1, 3], [-2j, 4]]. */
  lemma AdjointScenario(a: LinearOperator)
    requires a == LinearOperator([[R(1.0), Complex(0.0, 2.0)], [R(3.0), R(4.0)]])
    ensures Adjoint(a).matrix == [[R(1.0), R(3.0)], [Complex(0.0, -2.0), R(4.0)]]
  {
    assert a.Valid();
    assert Adjoint(a).matrix[0] == [R(1.0), R(3.0)];
    assert Adjoint(a).matrix[1] == [Complex(0.0, -2.0), R(4.0)];
  }

  /** Rows of different lengths are refused. */
  lemma NotRectangularScenario()
    ensures New([[R(1.0)], [R(1.0), R(2.0)]]) == Err(NotRectangular)
  {
  }

  /** The dot product of two 2-vectors, written out. */
  lemma DotOfPairs(x0: Complex, x1: Complex, y0: Complex, y1: Complex)
    ensures Sums.Dot([x0, x1], [y0, y1]) == Scalars.Add(Scalars.Add(Zero, Mul(x0, y0)), Mul(x1, y1))
  {
    assert Sums.Pairwise([x0, x1], [y0, y1]) == [Mul(x0, y0), Mul(x1, y1)];
    assert Sums.Pairwise([x0, x1], [y0, y1])[..1] == [Mul(x0, y0)];
    assert Sums.Sum([Mul(x0, y0)]) == Scalars.Add(Zero, Mul(x0, y0)) by {
      assert [Mul(x0, y0)][..0] == [];
    }
  }

  lemma ApplicationScenarioRows(p: Complex, q: Complex)
    ensures Sums.Dot([p, Zero], [One, One]) == p
    ensures Sums.Dot([Zero, q], [One, One]) == q
  {
    DotOfPairs(p, Zero, One, One);
    DotOfPairs(Zero, q, One, One);
    MulByOne(p);
    MulByOne(q);
    ZeroMul(One);
  }

  /** [[1, 0], [0, 1j]] applied to [1, 1] gives [1, 1j]. */
  lemma ApplicationScenario(a: LinearOperator, v: ComplexVector)
    requires a == LinearOperator([[One, Zero], [Zero, I]])
    requires v == ComplexVector([One, One])
    ensures Apply(a, v) == Ok(ComplexVector([One, I]))
  {
    assert a.Valid();
    ApplicationScenarioRows(One, I);
    var r := Apply(a, v).value.coordinates;
    assert r == [One, I];
  }

  lemma SwapRows(p: Complex, q: Complex)
    ensures Sums.Dot([Zero, One], [p, q]) == q
    ensures Sums.Dot([One, Zero], [p, q]) == p
  {
    DotOfPairs(Zero, One, p, q);
    DotOfPairs(One, Zero, p, q);
    ZeroMul(p);
    ZeroMul(q);
    MulByOne(p);
    MulByOne(q);
    MulCommutes(One, p);
    MulCommutes(One, q);
  }

  /** The swap [[0, 1], [1, 0]] composed after [[1, 0], [0, -1]] maps [1, 1]
      to [-1, 1]. */
  lemma CompositionScenario(a: LinearOperator, b: LinearOperator, v: ComplexVector)
    requires a == LinearOperator([[Zero, One], [One, Zero]])
    requires b == LinearOperator([[One, Zero], [Zero, MinusOne]])
    requires v == ComplexVector([One, One])
    ensures Compose(a, b).Ok?
    ensures Apply(Compose(a, b).value, v) == Ok(ComplexVector([MinusOne, One]))
  {
    assert a.Valid() && b.Valid();
    ComposeApply(a, b, v);
    ApplicationScenarioRows(One, MinusOne);
    var u := Apply(b, v).value.coordinates;
    assert u == [One, MinusOne];
    SwapRows(One, MinusOne);
    var r := Apply(a, Apply(b, v).value).value.coordinates;
    assert r == [MinusOne, One];
  }

  /** [[1, 2], [3, 4]] refuses a vector of dimension 1. */
  lemma DimensionMismatchScenario()
    ensures Apply(LinearOperator([[R(1.0), R(2.0)], [R(3.0), R(4.0)]]), FromReals([1.0]))
         == Err(DimensionMismatch(2, 1))
  {
    assert LinearOperator([[R(1.0), R(2.0)], [R(3.0), R(4.0)]]).Valid();
  }

  /** An operator with two rows and no columns is accepted with input
      dimension 0, and its adjoint is the 0 x 0 operator, so taking the
      adjoint twice does not give it back. */
  lemma DegenerateScenario()
    ensures New([[], []]) == Ok(LinearOperator([[], []]))
    ensures LinearOperator([[], []]).InputDim() == 0
    ensures Adjoint(LinearOperator([[], []])) == LinearOperator([])
    ensures Adjoint(Adjoint(LinearOperator([[], []]))) != LinearOperator([[], []])
  {
    var a := LinearOperator([[], []]);
    assert a.Valid();
    assert Adjoint(a).matrix == [];
  }
}
