/** Finite sums of complex scalars and the element-wise sequence operations
    the vector and operator code is built from. */
module Sums {
  import opened Scalars

  /** Left-to-right sum starting from zero, the order Python's built-in
      `sum` adds its terms in. */
  function Sum(s: seq<Complex>): Complex
  {
    if |s| == 0 then Zero else Add(Sum(s[..|s| - 1]), s[|s| - 1])
  }

  function Plus(a: seq<Complex>, b: seq<Complex>): seq<Complex>
    requires |a| == |b|
  {
    seq(|a|, i requires 0 <= i < |a| => Add(a[i], b[i]))
  }

  /** Element-wise products `a[i] * b[i]`. */
  function Pairwise(a: seq<Complex>, b: seq<Complex>): seq<Complex>
    requires |a| == |b|
  {
    seq(|a|, i requires 0 <= i < |a| => Mul(a[i], b[i]))
  }

  /** `c * a[i]` for every i. */
  function ScaleLeft(c: Complex, a: seq<Complex>): seq<Complex> {
    seq(|a|, i requires 0 <= i < |a| => Mul(c, a[i]))
  }

  /** `a[i] * c` for every i. */
  function ScaleRight(a: seq<Complex>, c: Complex): seq<Complex> {
    seq(|a|, i requires 0 <= i < |a| => Mul(a[i], c))
  }

  function ConjAll(a: seq<Complex>): seq<Complex> {
    seq(|a|, i requires 0 <= i < |a| => Conj(a[i]))
  }

  /** The bilinear dot product Σ a[i] * b[i], with no conjugation. */
  function Dot(a: seq<Complex>, b: seq<Complex>): Complex
    requires |a| == |b|
  {
    Sum(Pairwise(a, b))
  }

  ghost predicate HasWidth(m: seq<seq<Complex>>, n: nat) {
    forall k :: 0 <= k < |m| ==> |m[k]| == n
  }

  /** Column j of a row-major matrix. */
  function Column(m: seq<seq<Complex>>, j: nat): seq<Complex>
    requires forall k :: 0 <= k < |m| ==> j < |m[k]|
  {
    seq(|m|, k requires 0 <= k < |m| => m[k][j])
  }

  lemma {:induction false} SumOfZeros(s: seq<Complex>)
    requires forall i :: 0 <= i < |s| ==> s[i] == Zero
    ensures Sum(s) == Zero
  {
    if |s| > 0 {
      SumOfZeros(s[..|s| - 1]);
    }
  }

  lemma {:induction false} SumPlus(a: seq<Complex>, b: seq<Complex>)
    requires |a| == |b|
    ensures Sum(Plus(a, b)) == Add(Sum(a), Sum(b))
  {
    if |a| > 0 {
      var n := |a| - 1;
      assert Plus(a, b)[..n] == Plus(a[..n], b[..n]);
      SumPlus(a[..n], b[..n]);
    }
  }

  lemma {:induction false} SumScaleLeft(c: Complex, a: seq<Complex>)
    ensures Sum(ScaleLeft(c, a)) == Mul(c, Sum(a))
  {
    if |a| > 0 {
      var n := |a| - 1;
      assert ScaleLeft(c, a)[..n] == ScaleLeft(c, a[..n]);
      SumScaleLeft(c, a[..n]);
      MulDistributesLeft(c, Sum(a[..n]), a[n]);
    }
  }

  lemma {:induction false} SumScaleRight(a: seq<Complex>, c: Complex)
    ensures Sum(ScaleRight(a, c)) == Mul(Sum(a), c)
  {
    if |a| > 0 {
      var n := |a| - 1;
      assert ScaleRight(a, c)[..n] == ScaleRight(a[..n], c);
      SumScaleRight(a[..n], c);
      MulDistributesRight(Sum(a[..n]), a[n], c);
    }
  }

  lemma {:induction false} SumConj(a: seq<Complex>)
    ensures Sum(ConjAll(a)) == Conj(Sum(a))
  {
    if |a| > 0 {
      var n := |a| - 1;
      assert ConjAll(a)[..n] == ConjAll(a[..n]);
      SumConj(a[..n]);
    }
  }

  ghost predicate NonNegativeReals(s: seq<Complex>) {
    forall i :: 0 <= i < |s| ==> s[i].im == 0.0 && s[i].re >= 0.0
  }

  /** A sum of non-negative reals is a non-negative real. */
  lemma {:induction false} SumOfNonNegativeReals(s: seq<Complex>)
    requires NonNegativeReals(s)
    ensures Sum(s).im == 0.0 && Sum(s).re >= 0.0
  {
    if |s| > 0 {
      var n := |s| - 1;
      assert NonNegativeReals(s[..n]);
      SumOfNonNegativeReals(s[..n]);
    }
  }

  /** ... and it is positive as soon as one of its terms is. */
  lemma {:induction false} SumOfNonNegativeRealsPositive(s: seq<Complex>, i: nat)
    requires NonNegativeReals(s)
    requires i < |s| && s[i].re > 0.0
    ensures Sum(s).re > 0.0
  {
    var n := |s| - 1;
    assert NonNegativeReals(s[..n]);
    if i < n {
      assert s[..n][i] == s[i];
      SumOfNonNegativeRealsPositive(s[..n], i);
    } else {
      SumOfNonNegativeReals(s[..n]);
    }
  }

  /** The sums of the rows of a table. */
  function RowSums(t: seq<seq<Complex>>): seq<Complex> {
    seq(|t|, k requires 0 <= k < |t| => Sum(t[k]))
  }

  /** The sums of the columns of a table of width `n`. */
  function ColumnSums(t: seq<seq<Complex>>, n: nat): seq<Complex>
    requires HasWidth(t, n)
  {
    seq(n, j requires 0 <= j < n => Sum(Column(t, j)))
  }

  /** Adding one row to a table adds it to the column sums. */
  lemma ColumnSumsStep(t: seq<seq<Complex>>, n: nat)
    requires HasWidth(t, n) && |t| > 0
    ensures ColumnSums(t, n) == Plus(ColumnSums(t[..|t| - 1], n), t[|t| - 1])
  {
    var p := |t| - 1;
    forall j | 0 <= j < n
      ensures ColumnSums(t, n)[j] == Plus(ColumnSums(t[..p], n), t[p])[j]
    {
      assert Column(t, j)[..p] == Column(t[..p], j);
    }
  }

  /** Interchange of a double sum: adding up the row sums of a rectangular
      table gives the same as adding up its column sums. */
  lemma {:induction false} SumSwap(t: seq<seq<Complex>>, n: nat)
    requires HasWidth(t, n)
    ensures Sum(RowSums(t)) == Sum(ColumnSums(t, n))
  {
    if |t| == 0 {
      SumOfZeros(ColumnSums(t, n));
    } else {
      var p := |t| - 1;
      assert RowSums(t)[..p] == RowSums(t[..p]);
      SumSwap(t[..p], n);
      ColumnSumsStep(t, n);
      SumPlus(ColumnSums(t[..p], n), t[p]);
    }
  }

  /** The dot product is additive in its second argument. */
  lemma DotPlusRight(a: seq<Complex>, b: seq<Complex>, c: seq<Complex>)
    requires |a| == |b| == |c|
    ensures Dot(a, Plus(b, c)) == Add(Dot(a, b), Dot(a, c))
  {
    forall i | 0 <= i < |a|
      ensures Pairwise(a, Plus(b, c))[i] == Plus(Pairwise(a, b), Pairwise(a, c))[i]
    {
      MulDistributesLeft(a[i], b[i], c[i]);
    }
    assert Pairwise(a, Plus(b, c)) == Plus(Pairwise(a, b), Pairwise(a, c));
    SumPlus(Pairwise(a, b), Pairwise(a, c));
  }

  /** ... and homogeneous: scaling the second argument on the right scales
      the result on the right. */
  lemma DotScaleRight(a: seq<Complex>, b: seq<Complex>, c: Complex)
    requires |a| == |b|
    ensures Dot(a, ScaleRight(b, c)) == Mul(Dot(a, b), c)
  {
    forall i | 0 <= i < |a|
      ensures Pairwise(a, ScaleRight(b, c))[i] == ScaleRight(Pairwise(a, b), c)[i]
    {
      MulAssociates(a[i], b[i], c);
    }
    assert Pairwise(a, ScaleRight(b, c)) == ScaleRight(Pairwise(a, b), c);
    SumScaleRight(Pairwise(a, b), c);
  }

  /** The row vector `x * M` of a row `x` and an n x p matrix `M`. */
  function RowTimesMatrix(x: seq<Complex>, m: seq<seq<Complex>>, p: nat): seq<Complex>
    requires |x| == |m| && HasWidth(m, p)
  {
    seq(p, j requires 0 <= j < p => Dot(x, Column(m, j)))
  }

  /** The column vector `M * y` of an n x p matrix `M` and a column `y`. */
  function MatrixTimesColumn(m: seq<seq<Complex>>, y: seq<Complex>): seq<Complex>
    requires HasWidth(m, |y|)
  {
    seq(|m|, k requires 0 <= k < |m| => Dot(m[k], y))
  }

  /** The double-sum table t[j][k] = (x[k] * M[k][j]) * y[j]. */
  function Table(x: seq<Complex>, m: seq<seq<Complex>>, y: seq<Complex>): (t: seq<seq<Complex>>)
    requires |x| == |m| && HasWidth(m, |y|)
    ensures |t| == |y| && HasWidth(t, |x|)
  {
    seq(|y|, j requires 0 <= j < |y| => ScaleRight(Pairwise(x, Column(m, j)), y[j]))
  }

  lemma TableRows(x: seq<Complex>, m: seq<seq<Complex>>, y: seq<Complex>)
    requires |x| == |m| && HasWidth(m, |y|)
    ensures Pairwise(RowTimesMatrix(x, m, |y|), y) == RowSums(Table(x, m, y))
  {
    var t := Table(x, m, y);
    forall j | 0 <= j < |y|
      ensures Pairwise(RowTimesMatrix(x, m, |y|), y)[j] == Sum(t[j])
    {
      SumScaleRight(Pairwise(x, Column(m, j)), y[j]);
    }
  }

  lemma TableColumns(x: seq<Complex>, m: seq<seq<Complex>>, y: seq<Complex>)
    requires |x| == |m| && HasWidth(m, |y|)
    ensures Pairwise(x, MatrixTimesColumn(m, y)) == ColumnSums(Table(x, m, y), |x|)
  {
    var t := Table(x, m, y);
    forall k | 0 <= k < |x|
      ensures Pairwise(x, MatrixTimesColumn(m, y))[k] == Sum(Column(t, k))
    {
      forall j | 0 <= j < |y|
        ensures Column(t, k)[j] == ScaleLeft(x[k], Pairwise(m[k], y))[j]
      {
        MulAssociates(x[k], m[k][j], y[j]);
      }
      assert Column(t, k) == ScaleLeft(x[k], Pairwise(m[k], y));
      SumScaleLeft(x[k], Pairwise(m[k], y));
    }
  }

  /** Associativity of row-matrix-column products: `(x * M) . y = x . (M * y)`. */
  lemma DotRowMatrixColumn(x: seq<Complex>, m: seq<seq<Complex>>, p: nat, y: seq<Complex>)
    requires |x| == |m| && HasWidth(m, p) && |y| == p
    ensures Dot(RowTimesMatrix(x, m, p), y) == Dot(x, MatrixTimesColumn(m, y))
  {
    TableRows(x, m, y);
    TableColumns(x, m, y);
    SumSwap(Table(x, m, y), |x|);
  }

  /** `conj(x . y) = conj(y) . conj(x)`. */
  lemma DotConj(x: seq<Complex>, y: seq<Complex>)
    requires |x| == |y|
    ensures Conj(Dot(x, y)) == Dot(ConjAll(y), ConjAll(x))
  {
    forall k | 0 <= k < |x|
      ensures ConjAll(Pairwise(x, y))[k] == Pairwise(ConjAll(y), ConjAll(x))[k]
    {
      ConjOfMul(x[k], y[k]);
      MulCommutes(Conj(x[k]), Conj(y[k]));
    }
    assert ConjAll(Pairwise(x, y)) == Pairwise(ConjAll(y), ConjAll(x));
    SumConj(Pairwise(x, y));
  }
}
