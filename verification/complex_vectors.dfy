/** `ComplexVector`: an immutable tuple of complex coordinates with
    component-wise arithmetic and the inner product that is conjugate-linear
    in its first argument. */
module ComplexVectors {
  import opened Results
  import S = Scalars
  import opened Sums

  datatype ComplexVector = ComplexVector(coordinates: seq<S.Complex>) {
    /** Fixed at construction: the number of coordinates. */
    function Dimension(): nat {
      |coordinates|
    }
  }

  /** The zero vector of dimension `n`. */
  function Zeros(n: nat): (z: ComplexVector)
    ensures z.Dimension() == n
    ensures forall i :: 0 <= i < n ==> z.coordinates[i] == S.Zero
  {
    ComplexVector(seq(n, _ => S.Zero))
  }

  /** Construction from real numbers, each coerced to a complex scalar with
      imaginary part 0. */
  function FromReals(xs: seq<real>): (v: ComplexVector)
    ensures v.Dimension() == |xs|
    ensures forall i :: 0 <= i < |xs| ==> v.coordinates[i].re == xs[i] && v.coordinates[i].im == 0.0
  {
    ComplexVector(seq(|xs|, i requires 0 <= i < |xs| => S.OfReal(xs[i])))
  }

  /** `v + w`: the component-wise sum, refused when the dimensions differ. */
  function Add(v: ComplexVector, w: ComplexVector): (r: Result<ComplexVector>)
    ensures r.Ok? <==> v.Dimension() == w.Dimension()
    ensures r.Err? ==> r.error == DimensionMismatch(v.Dimension(), w.Dimension())
    ensures r.Ok? ==> r.value.Dimension() == v.Dimension()
    ensures r.Ok? ==> forall i :: 0 <= i < v.Dimension() ==>
      r.value.coordinates[i] == S.Add(v.coordinates[i], w.coordinates[i])
  {
    if v.Dimension() != w.Dimension() then
      Err(DimensionMismatch(v.Dimension(), w.Dimension()))
    else
      Ok(ComplexVector(Plus(v.coordinates, w.coordinates)))
  }

  /** `v * s`: every coordinate multiplied on the right by the scalar. */
  function Scale(v: ComplexVector, s: S.Complex): (r: ComplexVector)
    ensures r.Dimension() == v.Dimension()
    ensures forall i :: 0 <= i < v.Dimension() ==> r.coordinates[i] == S.Mul(v.coordinates[i], s)
  {
    ComplexVector(ScaleRight(v.coordinates, s))
  }

  /** `s * v`: delegated to `v * s`, and equal to the left product `s * v[i]`
      in every coordinate. */
  function LeftScale(s: S.Complex, v: ComplexVector): (r: ComplexVector)
    ensures r.Dimension() == v.Dimension()
    ensures forall i :: 0 <= i < v.Dimension() ==> r.coordinates[i] == S.Mul(s, v.coordinates[i])
  {
    ScaleCommutes(s, v);
    Scale(v, s)
  }

  lemma ScaleCommutes(s: S.Complex, v: ComplexVector)
    ensures forall i :: 0 <= i < v.Dimension() ==> Scale(v, s).coordinates[i] == S.Mul(s, v.coordinates[i])
  {
    forall i | 0 <= i < v.Dimension()
      ensures Scale(v, s).coordinates[i] == S.Mul(s, v.coordinates[i])
    {
      S.MulCommutes(v.coordinates[i], s);
    }
  }

  /** `-v`, computed as `v * -1`: every coordinate negated. */
  function Neg(v: ComplexVector): (r: ComplexVector)
    ensures r.Dimension() == v.Dimension()
    ensures forall i :: 0 <= i < v.Dimension() ==> r.coordinates[i] == S.Neg(v.coordinates[i])
  {
    var r := Scale(v, S.MinusOne);
    assert forall i :: 0 <= i < v.Dimension() ==> r.coordinates[i] == S.Neg(v.coordinates[i]) by {
      forall i | 0 <= i < v.Dimension() {
        S.MulByMinusOne(v.coordinates[i]);
      }
    }
    r
  }

  /** `v - w`, computed as `v + (-w)`; it inherits the dimension check. */
  function Sub(v: ComplexVector, w: ComplexVector): (r: Result<ComplexVector>)
    ensures r.Ok? <==> v.Dimension() == w.Dimension()
    ensures r.Err? ==> r.error == DimensionMismatch(v.Dimension(), w.Dimension())
    ensures r.Ok? ==> r.value.Dimension() == v.Dimension()
    ensures r.Ok? ==> forall i :: 0 <= i < v.Dimension() ==>
      r.value.coordinates[i] == S.Add(v.coordinates[i], S.Neg(w.coordinates[i]))
  {
    Add(v, Neg(w))
  }

  /** Coordinate-by-coordinate comparison from the front, as tuple equality
      does it. */
  function CoordinatesEqual(a: seq<S.Complex>, b: seq<S.Complex>): (eq: bool)
    ensures eq <==> |a| == |b| && forall i :: 0 <= i < |a| ==> a[i] == b[i]
  {
    |a| == |b| && (|a| == 0 || (a[0] == b[0] && CoordinatesEqual(a[1..], b[1..])))
  }

  /** `v == w`: exact equality of the coordinate tuples. */
  function Equals(v: ComplexVector, w: ComplexVector): (eq: bool)
    ensures eq <==> v == w
  {
    var eq := CoordinatesEqual(v.coordinates, w.coordinates);
    assert eq ==> v.coordinates == w.coordinates;
    eq
  }

  /** `<v, w>` = Σ conj(v[i]) * w[i], refused when the dimensions differ. */
  function InnerProduct(v: ComplexVector, w: ComplexVector): (r: Result<S.Complex>)
    ensures r.Ok? <==> v.Dimension() == w.Dimension()
    ensures r.Err? ==> r.error == DimensionMismatch(v.Dimension(), w.Dimension())
    ensures r.Ok? ==> r.value == Sum(seq(v.Dimension(), i requires 0 <= i < v.Dimension() =>
      S.Mul(S.Conj(v.coordinates[i]), w.coordinates[i])))
  {
    if v.Dimension() != w.Dimension() then
      Err(DimensionMismatch(v.Dimension(), w.Dimension()))
    else
      assert Pairwise(ConjAll(v.coordinates), w.coordinates)
          == seq(v.Dimension(), i requires 0 <= i < v.Dimension() =>
               S.Mul(S.Conj(v.coordinates[i]), w.coordinates[i]));
      Ok(Dot(ConjAll(v.coordinates), w.coordinates))
  }

  /** The square of the norm: the real part of `<v, v>`. The self inner
      product is a non-negative real that vanishes only on the zero vector. */
  function NormSquared(v: ComplexVector): (r: real)
    ensures InnerProduct(v, v) == Ok(S.OfReal(r))
    ensures S.OfReal(r) == Sum(seq(v.Dimension(), i requires 0 <= i < v.Dimension() =>
      S.Mul(S.Conj(v.coordinates[i]), v.coordinates[i])))
    ensures r >= 0.0
    ensures r == 0.0 <==> v == Zeros(v.Dimension())
  {
    SelfInnerProduct(v);
    InnerProduct(v, v).value.re
  }

  /** Each term conj(c) * c of a self inner product is a non-negative real,
      positive unless c is 0. */
  lemma SelfProductTerm(c: S.Complex)
    ensures S.Mul(S.Conj(c), c).im == 0.0
    ensures S.Mul(S.Conj(c), c).re >= 0.0
    ensures c != S.Zero ==> S.Mul(S.Conj(c), c).re > 0.0
  {
    S.ConjMulSelf(c);
    S.AbsSquaredSign(c);
  }

  lemma SelfInnerTermsNonNegative(c: seq<S.Complex>)
    ensures NonNegativeReals(Pairwise(ConjAll(c), c))
  {
    var terms := Pairwise(ConjAll(c), c);
    forall i | 0 <= i < |c|
      ensures terms[i].im == 0.0 && terms[i].re >= 0.0
    {
      SelfProductTerm(c[i]);
    }
  }

  lemma NonZeroCoordinate(v: ComplexVector) returns (i: nat)
    requires v != Zeros(v.Dimension())
    ensures i < v.Dimension() && v.coordinates[i] != S.Zero
  {
    assert v.coordinates != Zeros(v.Dimension()).coordinates;
    i :| 0 <= i < v.Dimension() && v.coordinates[i] != S.Zero;
  }

  lemma SelfInnerProductOfZero(n: nat)
    ensures InnerProduct(Zeros(n), Zeros(n)) == Ok(S.Zero)
  {
    SumOfZeros(Pairwise(ConjAll(Zeros(n).coordinates), Zeros(n).coordinates));
  }

  lemma SelfInnerProductPositive(v: ComplexVector)
    requires v != Zeros(v.Dimension())
    ensures InnerProduct(v, v).value.re > 0.0
  {
    var c := v.coordinates;
    var i := NonZeroCoordinate(v);
    SelfInnerTermsNonNegative(c);
    SelfProductTerm(c[i]);
    SumOfNonNegativeRealsPositive(Pairwise(ConjAll(c), c), i);
  }

  lemma SelfInnerProduct(v: ComplexVector)
    ensures InnerProduct(v, v).Ok?
    ensures InnerProduct(v, v).value.im == 0.0
    ensures InnerProduct(v, v).value.re >= 0.0
    ensures InnerProduct(v, v).value.re == 0.0 <==> v == Zeros(v.Dimension())
  {
    SelfInnerTermsNonNegative(v.coordinates);
    SumOfNonNegativeReals(Pairwise(ConjAll(v.coordinates), v.coordinates));
    if v == Zeros(v.Dimension()) {
      SelfInnerProductOfZero(v.Dimension());
    } else {
      SelfInnerProductPositive(v);
    }
  }

  /** `v + (-v)` is the zero vector of v's dimension. */
  lemma AddNegIsZero(v: ComplexVector)
    ensures Add(v, Neg(v)) == Ok(Zeros(v.Dimension()))
  {
    assert Add(v, Neg(v)).value.coordinates == Zeros(v.Dimension()).coordinates;
  }

  /** `v - v` is the zero vector of v's dimension. */
  lemma SubSelfIsZero(v: ComplexVector)
    ensures Sub(v, v) == Ok(Zeros(v.Dimension()))
  {
    AddNegIsZero(v);
  }

  /** The zero vector is the identity of addition. */
  lemma AddZeroIsIdentity(v: ComplexVector)
    ensures Add(v, Zeros(v.Dimension())) == Ok(v)
  {
    assert Add(v, Zeros(v.Dimension())).value.coordinates == v.coordinates;
  }

  /** Addition commutes whenever it is defined. */
  lemma AddCommutes(v: ComplexVector, w: ComplexVector)
    requires v.Dimension() == w.Dimension()
    ensures Add(v, w) == Add(w, v)
  {
    assert Add(v, w).value.coordinates == Add(w, v).value.coordinates;
  }

  /** Left and right multiplication by a scalar give the same vector. */
  lemma LeftScaleIsScale(s: S.Complex, v: ComplexVector)
    ensures LeftScale(s, v) == Scale(v, s)
  {
  }

  /** Negation is multiplication by -1 from either side. */
  lemma NegIsScaleByMinusOne(v: ComplexVector)
    ensures Neg(v) == Scale(v, S.MinusOne) == LeftScale(S.MinusOne, v)
  {
  }

  /** Conjugate symmetry: `<v, w> = conj(<w, v>)`. */
  lemma {:induction false} InnerProductConjugateSymmetric(v: ComplexVector, w: ComplexVector)
    requires v.Dimension() == w.Dimension()
    ensures InnerProduct(v, w).value == S.Conj(InnerProduct(w, v).value)
  {
    var a, b := v.coordinates, w.coordinates;
    var wv := Pairwise(ConjAll(b), a);
    forall i | 0 <= i < |a|
      ensures ConjAll(wv)[i] == Pairwise(ConjAll(a), b)[i]
    {
      S.ConjOfMul(S.Conj(b[i]), a[i]);
      S.MulCommutes(b[i], S.Conj(a[i]));
    }
    assert ConjAll(wv) == Pairwise(ConjAll(a), b);
    SumConj(wv);
  }

  /** Conjugate-linearity in the first argument: `<v * s, w> = conj(s) * <v, w>`. */
  lemma {:induction false} InnerProductConjugateLinearLeft(v: ComplexVector, s: S.Complex, w: ComplexVector)
    requires v.Dimension() == w.Dimension()
    ensures InnerProduct(Scale(v, s), w) == Ok(S.Mul(S.Conj(s), InnerProduct(v, w).value))
  {
    var a, b := v.coordinates, w.coordinates;
    var terms := Pairwise(ConjAll(Scale(v, s).coordinates), b);
    forall i | 0 <= i < |a|
      ensures terms[i] == ScaleLeft(S.Conj(s), Pairwise(ConjAll(a), b))[i]
    {
      S.ConjOfMul(a[i], s);
      S.MulCommutes(S.Conj(a[i]), S.Conj(s));
      S.MulAssociates(S.Conj(s), S.Conj(a[i]), b[i]);
    }
    assert terms == ScaleLeft(S.Conj(s), Pairwise(ConjAll(a), b));
    SumScaleLeft(S.Conj(s), Pairwise(ConjAll(a), b));
  }

  /** Linearity in the second argument: `<v, s * w> = s * <v, w>`. */
  lemma {:induction false} InnerProductLinearRight(v: ComplexVector, s: S.Complex, w: ComplexVector)
    requires v.Dimension() == w.Dimension()
    ensures InnerProduct(v, LeftScale(s, w)) == Ok(S.Mul(s, InnerProduct(v, w).value))
  {
    var a, b := v.coordinates, w.coordinates;
    var terms := Pairwise(ConjAll(a), LeftScale(s, w).coordinates);
    forall i | 0 <= i < |a|
      ensures terms[i] == ScaleLeft(s, Pairwise(ConjAll(a), b))[i]
    {
      S.MulAssociates(S.Conj(a[i]), s, b[i]);
      S.MulCommutes(S.Conj(a[i]), s);
      S.MulAssociates(s, S.Conj(a[i]), b[i]);
    }
    assert terms == ScaleLeft(s, Pairwise(ConjAll(a), b));
    SumScaleLeft(s, Pairwise(ConjAll(a), b));
  }

  /** Additivity in the second argument: `<v, w + u> = <v, w> + <v, u>`. */
  lemma {:induction false} InnerProductAdditiveRight(v: ComplexVector, w: ComplexVector, u: ComplexVector)
    requires v.Dimension() == w.Dimension() == u.Dimension()
    ensures InnerProduct(v, Add(w, u).value)
         == Ok(S.Add(InnerProduct(v, w).value, InnerProduct(v, u).value))
  {
    var a := ConjAll(v.coordinates);
    var terms := Pairwise(a, Add(w, u).value.coordinates);
    var left, right := Pairwise(a, w.coordinates), Pairwise(a, u.coordinates);
    forall i | 0 <= i < |a|
      ensures terms[i] == Plus(left, right)[i]
    {
      S.MulDistributesLeft(a[i], w.coordinates[i], u.coordinates[i]);
    }
    assert terms == Plus(left, right);
    SumPlus(left, right);
  }

  /** Additivity in the first argument: `<v + u, w> = <v, w> + <u, w>`. */
  lemma {:induction false} InnerProductAdditiveLeft(v: ComplexVector, u: ComplexVector, w: ComplexVector)
    requires v.Dimension() == u.Dimension() == w.Dimension()
    ensures InnerProduct(Add(v, u).value, w)
         == Ok(S.Add(InnerProduct(v, w).value, InnerProduct(u, w).value))
  {
    var b := w.coordinates;
    var terms := Pairwise(ConjAll(Add(v, u).value.coordinates), b);
    var left, right := Pairwise(ConjAll(v.coordinates), b), Pairwise(ConjAll(u.coordinates), b);
    forall i | 0 <= i < |b|
      ensures terms[i] == Plus(left, right)[i]
    {
      S.MulDistributesRight(S.Conj(v.coordinates[i]), S.Conj(u.coordinates[i]), b[i]);
    }
    assert terms == Plus(left, right);
    SumPlus(left, right);
  }
}
