# Complex vector spaces in Dafny

This project models the small library in `src/vector_space.py`. The library has two
immutable value types:

- `ComplexVector` is a fixed-length tuple of complex coordinates. It supports
  component-wise addition, scalar multiplication from either side, negation,
  subtraction and exact equality. Its inner product is conjugate-linear in the
  **first** argument, and its norm is derived from that inner product.
- `LinearOperator` is a row-major rectangular matrix of complex scalars. It supports
  construction with a rectangularity check, application to a vector, composition
  (`A @ B` applies `B` first) and the adjoint (conjugate transpose).

Scalars are `Complex(re: real, im: real)` over Dafny's exact `real`, so the
algebraic laws hold exactly. Vectors are a datatype around `seq<Complex>`.
Operators are a datatype around `seq<seq<Complex>>`, with a `Valid()` predicate.
`Valid()` is the invariant the constructor establishes, and every operation on
operators requires it. The library's `ValueError`s become
`Result.Err(DimensionMismatch(left, right))` and `Result.Err(NotRectangular)`.

Modules:

- `Results`: the error kinds and the `Result` wrapper.
- `Scalars`: complex arithmetic and the ring laws the proofs use.
- `Sums`: the left-to-right `Sum` that Python's `sum` performs, dot products, and the
  interchange of a double sum that composition and the adjoint rely on.
- `ComplexVectors` and `LinearOperators`: the two classes.
- `Scenarios`: concrete cases from the unit tests, restated over exact arithmetic,
  plus two shapes taken from the operator constructor.

## Degenerate shapes

`input_dim` is the length of the first row, or 0 when there are no rows
(`src/vector_space.py:69-70`). `adjoint` rebuilds its result through the constructor
(`src/vector_space.py:119-120`). So an operator with `n > 0` rows and no columns has
the 0 x 0 operator as its adjoint. The model does the same:

- `LinearOperators.AdjointInvolution` proves that the adjoint of the adjoint is the
  original operator exactly when `input_dim > 0` or there are no rows.
- `LinearOperators.AdjointOfCompose` proves that `(A @ B)† = B† @ A†` holds exactly
  when `B` is not of that degenerate shape. When it is, `B† @ A†` is refused with a
  dimension mismatch.

So for this one shape the adjoint neither swaps the shape nor is an involution.

## Model

| member | source | states |
|---|---|---|
| `ComplexVectors.FromReals` | src/vector_space.py:6-8 | Building a vector from reals keeps the length, and each coordinate is that real with imaginary part 0. |
| `ComplexVectors.Add` | src/vector_space.py:18-24 | Addition is refused with a dimension mismatch exactly when the dimensions differ. Otherwise the result has the common dimension and coordinate i is `v[i] + w[i]`. |
| `ComplexVectors.AddCommutes` | src/vector_space.py:24 | Whenever addition is defined, `v + w = w + v`. |
| `ComplexVectors.AddZeroIsIdentity` | src/vector_space.py:18-24 | Adding the zero vector of v's dimension gives back v. |
| `ComplexVectors.Scale` | src/vector_space.py:26-29 | `v * s` keeps the dimension and multiplies every coordinate on the right by s. |
| `ComplexVectors.LeftScale` | src/vector_space.py:31-32 | `s * v`, computed by delegating to `v * s`, is the left product `s * v[i]` in every coordinate. |
| `ComplexVectors.LeftScaleIsScale` | src/vector_space.py:26-32 | Left and right scalar multiplication give identical vectors. |
| `ComplexVectors.Neg` | src/vector_space.py:34-35 | `-v`, computed as `v * -1`, negates every coordinate and keeps the dimension. |
| `ComplexVectors.NegIsScaleByMinusOne` | src/vector_space.py:34-35 | Negation equals multiplication by -1 from the right and from the left. |
| `ComplexVectors.AddNegIsZero` | src/vector_space.py:18-35 | `v + (-v)` is the zero vector of v's dimension. |
| `ComplexVectors.Sub` | src/vector_space.py:37-38 | Subtraction inherits addition's refusal on a dimension mismatch, with the same error. Otherwise coordinate i is `v[i] + (-w[i])`. |
| `ComplexVectors.SubSelfIsZero` | src/vector_space.py:37-38 | `v - v` is the zero vector of v's dimension. |
| `ComplexVectors.CoordinatesEqual` | src/vector_space.py:43 | The front-to-back coordinate comparison is true exactly when the lengths agree and every pair of coordinates is equal. |
| `ComplexVectors.Equals` | src/vector_space.py:40-43 | Vector equality is exact: true exactly when the two vectors are identical. |
| `ComplexVectors.InnerProduct` | src/vector_space.py:48-55 | The inner product is refused with a dimension mismatch exactly when the dimensions differ. Otherwise its value is the left-to-right sum `Σ_i conj(v[i]) * w[i]`. |
| `ComplexVectors.InnerProductConjugateSymmetric` | src/vector_space.py:54-55 | `<v, w> = conj(<w, v>)` for vectors of equal dimension. |
| `ComplexVectors.InnerProductConjugateLinearLeft` | src/vector_space.py:54-55 | The first argument is conjugate-linear: `<v * s, w> = conj(s) * <v, w>`. |
| `ComplexVectors.InnerProductLinearRight` | src/vector_space.py:54-55 | The second argument is linear: `<v, s * w> = s * <v, w>`. |
| `ComplexVectors.InnerProductAdditiveRight` | src/vector_space.py:55 | `<v, w + u> = <v, w> + <v, u>`. |
| `ComplexVectors.InnerProductAdditiveLeft` | src/vector_space.py:55 | `<v + u, w> = <v, w> + <u, w>`. |
| `ComplexVectors.SelfInnerProduct` | src/vector_space.py:55-59 | `<v, v>` is always defined and has imaginary part 0. Its real part is at least 0, and it is 0 exactly when v is the zero vector. |
| `ComplexVectors.NormSquared` | src/vector_space.py:58-59 | The squared norm r satisfies `<v, v> = r + 0i`, so `r + 0i = Σ_i conj(v[i]) * v[i]`. It is at least 0, and it is 0 exactly when every coordinate is 0. |
| `LinearOperators.AllRowsHaveLength` | src/vector_space.py:72-74 | The rectangularity scan is true exactly when every row has the given length. |
| `LinearOperators.New` | src/vector_space.py:63-86 | Construction succeeds exactly when every row is as long as the first. It then keeps the matrix, with `output_dim` the row count and `input_dim` the first row's length, or 0 when there are no rows. Otherwise it fails with NotRectangular. |
| `LinearOperators.Apply` | src/vector_space.py:88-99 | Application is refused unless the vector's dimension is `input_dim`, and the error reports both dimensions. Otherwise the result has dimension `output_dim`, and coordinate i is `Σ_j m[i][j] * v[j]`. |
| `LinearOperators.ApplyAdditive` | src/vector_space.py:94-99 | `A(v + w) = A(v) + A(w)`. |
| `LinearOperators.ApplyHomogeneous` | src/vector_space.py:94-99 | `A(v * s) = A(v) * s`. |
| `LinearOperators.ApplyLinear` | src/vector_space.py:94-99 | `A(v + s * w) = A(v) + s * A(w)`. |
| `LinearOperators.Compose` | src/vector_space.py:101-115 | Composition is refused exactly when `A.input_dim != B.output_dim`. Otherwise the result is rectangular with shape `A.output_dim x B.input_dim`, and entry (i, j) is `Σ_k A[i][k] * B[k][j]`. |
| `LinearOperators.ComposeApply` | src/vector_space.py:101-115 | `(A @ B)(v) = A(B(v))`. The composite refuses exactly the vectors that B refuses, with the same error. |
| `LinearOperators.Adjoint` | src/vector_space.py:117-120 | The adjoint is rectangular, and its entry (i, j) is `conj(m[j][i])`. Its `output_dim` is A's `input_dim`. Its `input_dim` is A's `output_dim`, or 0 when A has no columns. |
| `LinearOperators.AdjointInvolution` | src/vector_space.py:117-120 | `adjoint(adjoint(A)) = A` exactly when A has columns or has no rows. |
| `LinearOperators.AdjointInnerProduct` | src/vector_space.py:117-120 | `<A† u, v> = <u, A v>` whenever the adjoint keeps A's swapped shape. |
| `LinearOperators.AdjointOfCompose` | src/vector_space.py:101-120 | `(A @ B)† = B† @ A†` exactly when B has columns or has no rows. |
| `Scenarios.InitializationScenario` | tests/test_vector_space.py:5-7 | `ComplexVector([1, 2j])` has dimension 2 and coordinates `(1+0j, 0+2j)`. |
| `Scenarios.AdditionScenario` | tests/test_vector_space.py:10-14 | `[1, 2] + [3, 4] = [4, 6]`. |
| `Scenarios.AdditionMismatchScenario` | tests/test_vector_space.py:34-38 | `[1] + [1, 2]` is refused with `DimensionMismatch(1, 2)`. |
| `Scenarios.ScalarMultiplicationScenario` | tests/test_vector_space.py:16-21 | `[1, -1] * 2 = [2, -2]` and `3 * [1, -1] = [3, -3]`. |
| `Scenarios.InnerProductScenario` | tests/test_vector_space.py:23-27 | `<[1j, 1], [1j, 1]> = 2`. |
| `Scenarios.NormScenario` | tests/test_vector_space.py:29-32 | The squared norm of `[3, 4j]` is 25. |
| `Scenarios.ZeroVectorNormScenario` | tests/test_vector_space.py:57-63 | The squared norm of `[0, 0]` is 0, and that of `[1e-9, 0]` is positive. |
| `Scenarios.ConjugateSymmetryScenario` | tests/test_vector_space.py:65-71 | `<[1+2j, 3], [2-1j, 4]> = 12-5j` and the reversed product is `12+5j`, its conjugate. |
| `Scenarios.ConstructionScenario` | tests/test_linear_operator.py:5-10 | `[[1, 2j], [3, 4]]` is accepted unchanged, with `input_dim` 2 and `output_dim` 2. |
| `Scenarios.AdjointScenario` | tests/test_linear_operator.py:28-32 | The adjoint of `[[1, 2j], [3, 4]]` is `[[1, 3], [-2j, 4]]`. |
| `Scenarios.ApplicationScenario` | tests/test_linear_operator.py:12-16 | `[[1, 0], [0, 1j]]` maps `[1, 1]` to `[1, 1j]`. |
| `Scenarios.CompositionScenario` | tests/test_linear_operator.py:18-26 | The swap composed after `diag(1, -1)` maps `[1, 1]` to `[-1, 1]`. |
| `Scenarios.DimensionMismatchScenario` | tests/test_linear_operator.py:34-38 | A 2 x 2 operator refuses a vector of dimension 1. |
| `Scenarios.NotRectangularScenario` | src/vector_space.py:72-74 | Rows of lengths 1 and 2 are refused with NotRectangular. |
| `Scenarios.DegenerateScenario` | src/vector_space.py:69-70 | The 2 x 0 operator is accepted with `input_dim` 0. Its adjoint is the 0 x 0 operator, so a second adjoint does not give it back. |

## Left out

- `git_script.py` and `run_tests.py` are not part of this model. They are version-control automation and a test runner, and they do only I/O.
- Floating point is not modelled. Scalars are exact reals, so there is no rounding, no `1e-9` slack and no almost-equal comparison. There are also no NaN or signed-zero effects on `==`.
- `ComplexVectors.NormSquared`: models the square of `norm`. The square root and the triangle inequality that depends on it are left out, because Dafny's `real` has no square root.
- The runtime type checks (`isinstance`, `NotImplemented`, `TypeError`) are left out. Dafny's static types exclude the inputs they guard against.
- Numeric coercion is reduced to `Scalars.OfReal` and `ComplexVectors.FromReals`. Integer inputs are the same reals.
- `__repr__` string formatting is left out.
- Aliasing through the mutable `matrix` property is left out. Values are immutable sequences.
- The `dimension`, `coordinates`, `input_dim` and `output_dim` accessors are the datatype's field and the functions `Dimension`, `InputDim` and `OutputDim`.
- The assertion at `tests/test_vector_space.py:8` compares a tuple with a list. Such a comparison is never equal, so it does not constrain the model.
