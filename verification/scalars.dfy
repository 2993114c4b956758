/** Complex scalars over exact reals, with the ring operations the vector
    space needs. Floating-point rounding is deliberately not modelled. */
module Scalars {

  datatype Complex = Complex(re: real, im: real)

  const Zero: Complex := Complex(0.0, 0.0)
  const One: Complex := Complex(1.0, 0.0)
  const MinusOne: Complex := Complex(-1.0, 0.0)

  /** The coercion of a real number to a complex one (imaginary part 0). */
  function OfReal(x: real): Complex {
    Complex(x, 0.0)
  }

  function Add(a: Complex, b: Complex): Complex {
    Complex(a.re + b.re, a.im + b.im)
  }

  function Neg(a: Complex): Complex {
    Complex(-a.re, -a.im)
  }

  function Mul(a: Complex, b: Complex): Complex {
    Complex(a.re * b.re - a.im * b.im, a.re * b.im + a.im * b.re)
  }

  function Conj(a: Complex): Complex {
    Complex(a.re, -a.im)
  }

  lemma MulCommutes(a: Complex, b: Complex)
    ensures Mul(a, b) == Mul(b, a)
  {
  }

  lemma MulAssociates(a: Complex, b: Complex, c: Complex)
    ensures Mul(Mul(a, b), c) == Mul(a, Mul(b, c))
  {
  }

  lemma MulDistributesLeft(c: Complex, a: Complex, b: Complex)
    ensures Mul(c, Add(a, b)) == Add(Mul(c, a), Mul(c, b))
  {
  }

  lemma MulDistributesRight(a: Complex, b: Complex, c: Complex)
    ensures Mul(Add(a, b), c) == Add(Mul(a, c), Mul(b, c))
  {
  }

  lemma ConjOfMul(a: Complex, b: Complex)
    ensures Conj(Mul(a, b)) == Mul(Conj(a), Conj(b))
  {
  }

  lemma MulByOne(a: Complex)
    ensures Mul(a, One) == a
  {
  }

  lemma ZeroMul(a: Complex)
    ensures Mul(Zero, a) == Zero
  {
  }

  lemma MulByMinusOne(a: Complex)
    ensures Mul(a, MinusOne) == Neg(a)
  {
  }

  /** `conj(a) * a` is the real number re² + im². */
  lemma ConjMulSelf(a: Complex)
    ensures Mul(Conj(a), a) == OfReal(a.re * a.re + a.im * a.im)
  {
  }

  lemma SquarePositive(x: real)
    requires x != 0.0
    ensures x * x > 0.0
  {
    if x < 0.0 {
      var y := -x;
      assert y * y > 0.0;
      assert x * x == y * y;
    } else {
      assert x * x > 0.0;
    }
  }

  lemma SquareNonNegative(x: real)
    ensures x * x >= 0.0
  {
    if x != 0.0 {
      SquarePositive(x);
    }
  }

  /** re² + im² is never negative, and it is positive unless `a` is 0. */
  lemma AbsSquaredSign(a: Complex)
    ensures a.re * a.re + a.im * a.im >= 0.0
    ensures a != Zero ==> a.re * a.re + a.im * a.im > 0.0
  {
    SquareNonNegative(a.re);
    SquareNonNegative(a.im);
    if a.re != 0.0 {
      SquarePositive(a.re);
    } else if a.im != 0.0 {
      SquarePositive(a.im);
    }
  }
}
