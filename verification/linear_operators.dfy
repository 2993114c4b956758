/** `LinearOperator`: an immutable row-major matrix of complex scalars acting
    on `ComplexVector`s, with application, composition and adjoint. */
module LinearOperators {
  import opened Results
  import S = Scalars
  import opened Sums
  import opened ComplexVectors

  datatype LinearOperator = LinearOperator(matrix: seq<seq<S.Complex>>) {
    /** The number of rows. */
    function OutputDim(): nat {
      |matrix|
    }

    /** The length of the first row, or 0 when there are no rows. */
    function InputDim(): nat {
      if |matrix| > 0 then |matrix[0]| else 0
    }

    /** The invariant construction establishes: every row has `InputDim()`
        entries. */
    ghost predicate Valid() {
      HasWidth(matrix, InputDim())
    }
  }

  /** The rectangularity scan: does every row have `n` entries? */
  function AllRowsHaveLength(rows: seq<seq<S.Complex>>, n: nat): (ok: bool)
    ensures ok <==> forall i :: 0 <= i < |rows| ==> |rows[i]| == n
  {
    |rows| == 0 || (|rows[0]| == n && AllRowsHaveLength(rows[1..], n))
  }

  /** Construction: accepted exactly when every row is as long as the first. */
  function New(m: seq<seq<S.Complex>>): (r: Result<LinearOperator>)
    ensures r.Ok? <==> forall i :: 0 <= i < |m| ==> |m[i]| == |m[0]|
    ensures r.Err? ==> r.error == NotRectangular
    ensures r.Ok? ==> r.value.matrix == m && r.value.Valid()
    ensures r.Ok? ==> r.value.OutputDim() == |m|
    ensures r.Ok? ==> r.value.InputDim() == (if |m| == 0 then 0 else |m[0]|)
  {
    var cols := if |m| > 0 then |m[0]| else 0;
    if AllRowsHaveLength(m, cols) then Ok(LinearOperator(m)) else Err(NotRectangular)
  }

  /** Coordinate i of `A(v)`: Σ_j A[i][j] * v[j]. */
  function RowTimes(row: seq<S.Complex>, v: ComplexVector): S.Complex
    requires |row| == v.Dimension()
  {
    Dot(row, v.coordinates)
  }

  /** `A(v)`: refused unless v has A's input dimension; the result has A's
      output dimension. */
  function Apply(a: LinearOperator, v: ComplexVector): (r: Result<ComplexVector>)
    requires a.Valid()
    ensures r.Ok? <==> v.Dimension() == a.InputDim()
    ensures r.Err? ==> r.error == DimensionMismatch(a.InputDim(), v.Dimension())
    ensures r.Ok? ==> r.value.Dimension() == a.OutputDim()
    ensures r.Ok? ==> forall i :: 0 <= i < a.OutputDim() ==>
      r.value.coordinates[i] == Sum(Pairwise(a.matrix[i], v.coordinates))
  {
    if v.Dimension() != a.InputDim() then
      Err(DimensionMismatch(a.InputDim(), v.Dimension()))
    else
      Ok(ComplexVector(seq(a.OutputDim(), i requires 0 <= i < a.OutputDim() => RowTimes(a.matrix[i], v))))
  }

  /** `A @ B`: the operator that applies B first and then A, refused unless
      A's input dimension is B's output dimension. */
  function Compose(a: LinearOperator, b: LinearOperator): (r: Result<LinearOperator>)
    requires a.Valid() && b.Valid()
    ensures r.Ok? <==> a.InputDim() == b.OutputDim()
    ensures r.Err? ==> r.error == DimensionMismatch(a.InputDim(), b.OutputDim())
    ensures r.Ok? ==> r.value.Valid()
    ensures r.Ok? ==> r.value.OutputDim() == a.OutputDim() && r.value.InputDim() == b.InputDim()
    ensures r.Ok? ==> forall i, j :: 0 <= i < a.OutputDim() && 0 <= j < b.InputDim() ==>
      r.value.matrix[i][j] == Dot(a.matrix[i], Column(b.matrix, j))
  {
    if a.InputDim() != b.OutputDim() then
      Err(DimensionMismatch(a.InputDim(), b.OutputDim()))
    else
      var m := seq(a.OutputDim(), i requires 0 <= i < a.OutputDim() =>
                 seq(b.InputDim(), j requires 0 <= j < b.InputDim() =>
                   Dot(a.matrix[i], Column(b.matrix, j))));
      Ok(LinearOperator(m))
  }

  /** The conjugate transpose, rebuilt through the constructor: its output
      dimension is A's input dimension, and its input dimension is A's output
      dimension unless A has no columns, in which case it has no rows and
      collapses to the 0 x 0 operator. */
  function Adjoint(a: LinearOperator): (r: LinearOperator)
    requires a.Valid()
    ensures r.Valid()
    ensures r.OutputDim() == a.InputDim()
    ensures r.InputDim() == (if a.InputDim() > 0 then a.OutputDim() else 0)
    ensures forall i, j :: 0 <= i < a.InputDim() && 0 <= j < a.OutputDim() ==>
      r.matrix[i][j] == S.Conj(a.matrix[j][i])
  {
    LinearOperator(seq(a.InputDim(), i requires 0 <= i < a.InputDim() =>
      seq(a.OutputDim(), j requires 0 <= j < a.OutputDim() => S.Conj(a.matrix[j][i]))))
  }

  /** Application is additive: `A(v + w) = A(v) + A(w)`. */
  lemma ApplyAdditive(a: LinearOperator, v: ComplexVector, w: ComplexVector)
    requires a.Valid()
    requires v.Dimension() == w.Dimension() == a.InputDim()
    ensures Apply(a, Add(v, w).value) == Add(Apply(a, v).value, Apply(a, w).value)
  {
    var lhs, rhs := Apply(a, Add(v, w).value).value, Add(Apply(a, v).value, Apply(a, w).value).value;
    forall i | 0 <= i < a.OutputDim()
      ensures lhs.coordinates[i] == rhs.coordinates[i]
    {
      assert Add(v, w).value.coordinates == Plus(v.coordinates, w.coordinates);
      DotPlusRight(a.matrix[i], v.coordinates, w.coordinates);
    }
    assert lhs.coordinates == rhs.coordinates;
  }

  /** Application is homogeneous: `A(v * s) = A(v) * s`. */
  lemma ApplyHomogeneous(a: LinearOperator, v: ComplexVector, s: S.Complex)
    requires a.Valid()
    requires v.Dimension() == a.InputDim()
    ensures Apply(a, Scale(v, s)) == Ok(Scale(Apply(a, v).value, s))
  {
    var lhs, rhs := Apply(a, Scale(v, s)).value, Scale(Apply(a, v).value, s);
    forall i | 0 <= i < a.OutputDim()
      ensures lhs.coordinates[i] == rhs.coordinates[i]
    {
      DotScaleRight(a.matrix[i], v.coordinates, s);
    }
    assert lhs.coordinates == rhs.coordinates;
  }

  /** Linearity in one step: `A(v + s * w) = A(v) + s * A(w)`. */
  lemma ApplyLinear(a: LinearOperator, v: ComplexVector, s: S.Complex, w: ComplexVector)
    requires a.Valid()
    requires v.Dimension() == w.Dimension() == a.InputDim()
    ensures Apply(a, Add(v, LeftScale(s, w)).value)
         == Add(Apply(a, v).value, LeftScale(s, Apply(a, w).value))
  {
    ApplyAdditive(a, v, LeftScale(s, w));
    ApplyHomogeneous(a, w, s);
  }

  /** One coordinate of `(A @ B)(v) = A(B(v))`. */
  lemma ComposeApplyCoordinate(a: LinearOperator, b: LinearOperator, v: ComplexVector, i: nat)
    requires a.Valid() && b.Valid() && a.InputDim() == b.OutputDim()
    requires v.Dimension() == b.InputDim() && i < a.OutputDim()
    ensures Apply(Compose(a, b).value, v).value.coordinates[i]
         == Apply(a, Apply(b, v).value).value.coordinates[i]
  {
    var n, p := a.InputDim(), b.InputDim();
    assert HasWidth(b.matrix, p);
    assert Compose(a, b).value.matrix[i] == RowTimesMatrix(a.matrix[i], b.matrix, p);
    assert Apply(b, v).value.coordinates == MatrixTimesColumn(b.matrix, v.coordinates);
    DotRowMatrixColumn(a.matrix[i], b.matrix, p, v.coordinates);
  }

  /** `(A @ B)(v) = A(B(v))`, including the refusal: the composite rejects
      exactly the vectors B rejects, with the same error. */
  lemma ComposeApply(a: LinearOperator, b: LinearOperator, v: ComplexVector)
    requires a.Valid() && b.Valid() && a.InputDim() == b.OutputDim()
    ensures Apply(Compose(a, b).value, v).Ok? <==> Apply(b, v).Ok?
    ensures Apply(b, v).Err? ==> Apply(Compose(a, b).value, v) == Apply(b, v)
    ensures Apply(b, v).Ok? ==> Apply(Compose(a, b).value, v) == Apply(a, Apply(b, v).value)
  {
    if Apply(b, v).Ok? {
      var lhs := Apply(Compose(a, b).value, v).value;
      var rhs := Apply(a, Apply(b, v).value).value;
      forall i | 0 <= i < a.OutputDim()
        ensures lhs.coordinates[i] == rhs.coordinates[i]
      {
        ComposeApplyCoordinate(a, b, v, i);
      }
      assert lhs.coordinates == rhs.coordinates;
    }
  }

  /** The adjoint of the adjoint is the original operator, except for an
      operator with rows but no columns, whose adjoint has collapsed to
      0 x 0. */
  lemma AdjointInvolution(a: LinearOperator)
    requires a.Valid()
    ensures Adjoint(Adjoint(a)) == a <==> a.InputDim() > 0 || a.OutputDim() == 0
  {
    var aa := Adjoint(Adjoint(a));
    if a.InputDim() > 0 {
      forall i | 0 <= i < a.OutputDim()
        ensures aa.matrix[i] == a.matrix[i]
      {
      }
      assert aa.matrix == a.matrix;
    } else if a.OutputDim() > 0 {
      assert aa.OutputDim() == 0;
    }
  }

  /** `(A @ B)† = B† @ A†` entry by entry, when both sides have entries. */
  lemma AdjointOfComposeEntry(a: LinearOperator, b: LinearOperator, i: nat, j: nat)
    requires a.Valid() && b.Valid() && a.InputDim() == b.OutputDim()
    requires b.InputDim() > 0
    requires i < b.InputDim() && j < a.OutputDim()
    ensures Compose(Adjoint(b), Adjoint(a)).Ok?
    ensures Compose(Adjoint(b), Adjoint(a)).value.matrix[i][j]
         == Adjoint(Compose(a, b).value).matrix[i][j]
  {
    var n := a.InputDim();
    var x, y := a.matrix[j], Column(b.matrix, i);
    assert Adjoint(b).matrix[i] == ConjAll(y);
    assert Column(Adjoint(a).matrix, j) == ConjAll(x);
    DotConj(x, y);
  }

  /** The adjoint reverses composition, `(A @ B)† = B† @ A†`, unless B has
      rows but no columns: then B† has collapsed to 0 x 0 and the right-hand
      composition is refused. */
  lemma AdjointOfCompose(a: LinearOperator, b: LinearOperator)
    requires a.Valid() && b.Valid() && a.InputDim() == b.OutputDim()
    ensures Compose(Adjoint(b), Adjoint(a)) == Ok(Adjoint(Compose(a, b).value))
        <==> b.InputDim() > 0 || b.OutputDim() == 0
  {
    var c := Compose(a, b).value;
    if b.InputDim() > 0 {
      var lhs := Compose(Adjoint(b), Adjoint(a)).value;
      var rhs := Adjoint(c);
      AdjointOfComposeEntry(a, b, 0, 0);
      forall i | 0 <= i < b.InputDim()
        ensures lhs.matrix[i] == rhs.matrix[i]
      {
        forall j | 0 <= j < a.OutputDim()
          ensures lhs.matrix[i][j] == rhs.matrix[i][j]
        {
          AdjointOfComposeEntry(a, b, i, j);
        }
      }
      assert lhs.matrix == rhs.matrix;
    } else if b.OutputDim() == 0 {
      assert Adjoint(b).matrix == [] && Adjoint(a).matrix == [] && Adjoint(c).matrix == [];
    } else {
      assert Compose(Adjoint(b), Adjoint(a)).Err?;
    }
  }

  /** The defining property of the adjoint, `<A† u, v> = <u, A v>`, for every
      operator whose adjoint keeps its shape. */
  lemma AdjointInnerProduct(a: LinearOperator, u: ComplexVector, v: ComplexVector)
    requires a.Valid() && (a.InputDim() > 0 || a.OutputDim() == 0)
    requires u.Dimension() == a.OutputDim() && v.Dimension() == a.InputDim()
    ensures Apply(Adjoint(a), u).Ok? && Apply(a, v).Ok?
    ensures InnerProduct(Apply(Adjoint(a), u).value, v) == InnerProduct(u, Apply(a, v).value)
  {
    var n := a.InputDim();
    var x := ConjAll(u.coordinates);
    var adjU := Apply(Adjoint(a), u).value;
    assert HasWidth(a.matrix, n);
    forall i | 0 <= i < n
      ensures ConjAll(adjU.coordinates)[i] == RowTimesMatrix(x, a.matrix, n)[i]
    {
      var col := Column(a.matrix, i);
      assert Adjoint(a).matrix[i] == ConjAll(col);
      DotConj(ConjAll(col), u.coordinates);
      assert ConjAll(ConjAll(col)) == col;
    }
    assert ConjAll(adjU.coordinates) == RowTimesMatrix(x, a.matrix, n);
    assert Apply(a, v).value.coordinates == MatrixTimesColumn(a.matrix, v.coordinates);
    DotRowMatrixColumn(x, a.matrix, n, v.coordinates);
  }
}
