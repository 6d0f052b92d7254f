/**
 * The immutable complex value of the evaluator, over exact reals.
 *
 * The rectangular operations are modelled exactly. The transcendental and polar
 * operations (`pow(double)`, `exp`, `sin`, `cos`, `log`, which rest on `mod` and `arg`)
 * are floating-point library calls; they reach the model as the function-valued fields
 * of a `Transcendental` value and are left uninterpreted.
 */
module ComplexNumbers {

  datatype Complex = Complex(re: real, im: real)

  const Zero: Complex := Complex(0.0, 0.0)
  const One: Complex := Complex(1.0, 0.0)

  /** `Math.PI` and `Math.E` as decimal literals. */
  const Pi: real := 3.141592653589793
  const E: real := 2.718281828459045

  /** The library-backed operations, uninterpreted. `ln` is `log(Math.E)`. */
  datatype Transcendental = Transcendental(
    powReal: (Complex, real) -> Complex,
    exp: Complex -> Complex,
    sin: Complex -> Complex,
    cos: Complex -> Complex,
    ln: Complex -> Complex)

  function Add(z: Complex, w: Complex): (r: Complex)
    ensures r.re - w.re == z.re && r.im - w.im == z.im
  {
    Complex(z.re + w.re, z.im + w.im)
  }

  function Subtract(z: Complex, w: Complex): (r: Complex)
    ensures r.re + w.re == z.re && r.im + w.im == z.im
  {
    Complex(z.re - w.re, z.im - w.im)
  }

  function Multiply(z: Complex, w: Complex): Complex
  {
    Complex(z.re * w.re - z.im * w.im, z.re * w.im + z.im * w.re)
  }

  /** `multiply(double)`: both parts scaled by `s`. */
  function Scale(z: Complex, s: real): Complex
  {
    Complex(z.re * s, z.im * s)
  }

  /** The conjugate: a value times its conjugate is its squared modulus, on the real axis. */
  function Conjugate(z: Complex): (r: Complex)
    ensures Multiply(z, r) == Complex(NormSquared(z), 0.0)
  {
    Complex(z.re, -z.im)
  }

  /** The squared modulus, the denominator of `divide` and `reciprocal`. */
  function NormSquared(z: Complex): real
  {
    z.re * z.re + z.im * z.im
  }

  /** Division by the squared modulus; over reals the divisor must be nonzero. */
  function Divide(z: Complex, w: Complex): (r: Complex)
    requires w != Zero
    ensures z == Zero ==> r == Zero
    ensures w == One ==> r == z
  {
    NormSquaredNonzero(w);
    var d := NormSquared(w);
    Complex((z.re * w.re + z.im * w.im) / d, (z.im * w.re - z.re * w.im) / d)
  }

  /** `reciprocal`: one divided by the value. */
  function Reciprocal(z: Complex): (r: Complex)
    requires z != Zero
    ensures r == Divide(One, z)
  {
    NormSquaredNonzero(z);
    var d := NormSquared(z);
    Complex(z.re / d, -z.im / d)
  }

  /** `pow(Complex)`: the exponent zero gives one, a real exponent goes through the
      real-power routine, anything else is `exp(log(z) * w)`. */
  function Pow(math: Transcendental, z: Complex, w: Complex): (r: Complex)
    ensures w == Zero ==> r == One
    ensures w.im == 0.0 && w.re != 0.0 ==> r == math.powReal(z, w.re)
    ensures w.im != 0.0 ==> r == math.exp(Multiply(math.ln(z), w))
  {
    if w.re == 0.0 && w.im == 0.0 then One
    else if w.im == 0.0 then math.powReal(z, w.re)
    else math.exp(Multiply(math.ln(z), w))
  }

  /** Only zero has a zero squared modulus. */
  lemma NormSquaredNonzero(z: Complex)
    requires z != Zero
    ensures NormSquared(z) != 0.0
  {
    if z.re != 0.0 {
      ProductPositive(z.re, z.re);
      ProductNonnegative(z.im);
    } else {
      ProductPositive(z.im, z.im);
      ProductNonnegative(z.re);
    }
  }

  /** A product, kept behind a function so that the sign lemmas below speak of one term. */
  ghost function Product(x: real, y: real): real
  {
    x * y
  }

  lemma ProductPositive(x: real, y: real)
    requires (x > 0.0 && y > 0.0) || (x < 0.0 && y < 0.0)
    ensures Product(x, y) > 0.0
  {
  }

  lemma ProductNonnegative(x: real)
    ensures Product(x, x) >= 0.0
  {
  }

  // Algebraic laws of the rectangular operations.

  lemma AddCommutes(z: Complex, w: Complex)
    ensures Add(z, w) == Add(w, z)
  {
  }

  lemma AddThenSubtract(z: Complex, w: Complex)
    ensures Subtract(Add(z, w), w) == z
  {
  }

  lemma MultiplyCommutes(z: Complex, w: Complex)
    ensures Multiply(z, w) == Multiply(w, z)
  {
  }

  /** One is the identity of the product, zero absorbs, and on the real axis the product
      is the product of reals. */
  lemma MultiplyIdentities(z: Complex, w: Complex)
    ensures Multiply(z, One) == z && Multiply(z, Zero) == Zero
    ensures z.im == 0.0 && w.im == 0.0 ==> Multiply(z, w) == Complex(z.re * w.re, 0.0)
  {
  }

  /** Scaling is multiplication by a value on the real axis. */
  lemma ScaleIsMultiply(z: Complex, s: real)
    ensures Scale(z, s) == Multiply(z, Complex(s, 0.0))
  {
  }

  lemma ScaleByOne(z: Complex)
    ensures Scale(z, 1.0) == z
  {
  }

  lemma ScaleByMinusOne(z: Complex)
    ensures Scale(z, -1.0) == Complex(-z.re, -z.im)
    ensures Add(z, Scale(z, -1.0)) == Zero
  {
  }

  lemma ConjugateInvolution(z: Complex)
    ensures Conjugate(Conjugate(z)) == z
  {
  }

  /** Dividing and multiplying back by the same nonzero value is the identity. */
  lemma DivideThenMultiply(z: Complex, w: Complex)
    requires w != Zero
    ensures Multiply(Divide(z, w), w) == z
  {
    NormSquaredNonzero(w);
    QuotientTimesDivisor(z.re, z.im, w.re, w.im);
  }

  /** Multiplying by a nonzero value and dividing it out again is the identity. */
  lemma MultiplyThenDivide(z: Complex, w: Complex)
    requires w != Zero
    ensures Divide(Multiply(z, w), w) == z
  {
    NormSquaredNonzero(w);
    ProductOverDivisor(z.re, z.im, w.re, w.im);
  }

  /** `DivideThenMultiply` on the components. */
  lemma QuotientTimesDivisor(a: real, b: real, c: real, d: real)
    requires c * c + d * d != 0.0
    ensures var n := c * c + d * d;
      var x, y := (a * c + b * d) / n, (b * c - a * d) / n;
      x * c - y * d == a && x * d + y * c == b
  {
    var n := c * c + d * d;
    var p, q := a * c + b * d, b * c - a * d;
    var x, y := p / n, q / n;
    assert x * n == p && y * n == q;
    assert (x * c - y * d) * n == a * n by {
      calc {
        (x * c - y * d) * n;
        (x * n) * c - (y * n) * d;
        p * c - q * d;
        a * n;
      }
    }
    assert (x * d + y * c) * n == b * n by {
      calc {
        (x * d + y * c) * n;
        (x * n) * d + (y * n) * c;
        p * d + q * c;
        b * n;
      }
    }
    CancelNonzero(x * c - y * d, a, n);
    CancelNonzero(x * d + y * c, b, n);
  }

  /** `MultiplyThenDivide` on the components. */
  lemma ProductOverDivisor(a: real, b: real, c: real, d: real)
    requires c * c + d * d != 0.0
    ensures var n := c * c + d * d;
      var re, im := a * c - b * d, a * d + b * c;
      (re * c + im * d) / n == a && (im * c - re * d) / n == b
  {
    var n := c * c + d * d;
    var re, im := a * c - b * d, a * d + b * c;
    assert re * c + im * d == a * n;
    assert im * c - re * d == b * n;
  }

  lemma CancelNonzero(u: real, v: real, n: real)
    requires n != 0.0 && u * n == v * n
    ensures u == v
  {
    assert (u - v) * n == 0.0;
  }

  /** The product of a value with its reciprocal is one. */
  lemma ReciprocalInverts(z: Complex)
    requires z != Zero
    ensures Multiply(z, Reciprocal(z)) == One
  {
    DivideThenMultiply(One, z);
    MultiplyCommutes(Divide(One, z), z);
  }

  /** Any base, zero included, raised to the power zero is one. */
  lemma PowZeroExponent(math: Transcendental, z: Complex)
    ensures Pow(math, z, Zero) == One
  {
  }
}
