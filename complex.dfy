/**
 * Complex numbers as the pair of real and imaginary parts that mathjs `complex(re, im)`
 * objects carry, with the mathjs operations the gates use.
 */
module ComplexNumbers {

  datatype Complex = Complex(re: real, im: real)

  /** The imaginary unit `complex(0, 1)`. */
  const I := Complex(0.0, 1.0)

  function Add(a: Complex, b: Complex): Complex {
    Complex(a.re + b.re, a.im + b.im)
  }

  function Sub(a: Complex, b: Complex): Complex {
    Complex(a.re - b.re, a.im - b.im)
  }

  /** mathjs `a.mul(b)`. */
  function Mul(a: Complex, b: Complex): Complex {
    Complex(a.re * b.re - a.im * b.im, a.re * b.im + a.im * b.re)
  }

  /** k·z for a real k, the product `complex(k, 0).mul(z)` written out. */
  function Scale(k: real, z: Complex): Complex {
    Complex(k * z.re, k * z.im)
  }

  /** i·z, the product `complex(0, 1).mul(z)` written out. */
  function TimesI(z: Complex): Complex {
    Complex(-z.im, z.re)
  }

  lemma ScaleIsMul(k: real, z: Complex)
    ensures Mul(Complex(k, 0.0), z) == Scale(k, z)
  {
  }

  function Neg(a: Complex): Complex {
    Complex(-a.re, -a.im)
  }

  function Conj(a: Complex): Complex {
    Complex(a.re, -a.im)
  }

  /** |a|², written `Math.pow(a.re, 2) + Math.pow(a.im, 2)` in the source. */
  function NormSq(a: Complex): (r: real)
    ensures r >= 0.0
  {
    a.re * a.re + a.im * a.im
  }

  /** The modulus is multiplicative: |a·b|² = |a|²·|b|². */
  lemma NormSqMul(a: Complex, b: Complex)
    ensures NormSq(Mul(a, b)) == NormSq(a) * NormSq(b)
  {
    var x := a.re * b.re - a.im * b.im;
    var y := a.re * b.im + a.im * b.re;
    calc {
      x * x + y * y;
      a.re * a.re * b.re * b.re + a.im * a.im * b.im * b.im
        + a.re * a.re * b.im * b.im + a.im * a.im * b.re * b.re;
      (a.re * a.re + a.im * a.im) * (b.re * b.re + b.im * b.im);
    }
  }

  /** Complex multiplication is associative. */
  lemma MulAssoc(a: Complex, b: Complex, c: Complex)
    ensures Mul(a, Mul(b, c)) == Mul(Mul(a, b), c)
  {
  }

  /** Complex multiplication is commutative. */
  lemma MulComm(a: Complex, b: Complex)
    ensures Mul(a, b) == Mul(b, a)
  {
  }

  /** Conjugation distributes over a product. */
  lemma ConjOfProduct(a: Complex, b: Complex)
    ensures Conj(Mul(a, b)) == Mul(Conj(a), Conj(b))
  {
  }

  /** ā·a = |a|², a real number. */
  lemma ConjTimesSelf(a: Complex)
    ensures Mul(Conj(a), a) == Complex(NormSq(a), 0.0)
  {
  }

  /** (k·z)‾·(k·w) = |k|²·z̄w: a common factor k leaves z̄w unchanged up to the real |k|². */
  lemma ConjugateOfScaled(k: Complex, z: Complex, w: Complex)
    ensures Mul(Conj(Mul(k, z)), Mul(k, w)) == Scale(NormSq(k), Mul(Conj(z), w))
  {
    calc {
      Mul(Conj(Mul(k, z)), Mul(k, w));
      { ConjOfProduct(k, z); }
      Mul(Mul(Conj(k), Conj(z)), Mul(k, w));
      { MulAssoc(Conj(k), Conj(z), Mul(k, w)); }
      Mul(Conj(k), Mul(Conj(z), Mul(k, w)));
      { MulAssoc(Conj(z), k, w); }
      Mul(Conj(k), Mul(Mul(Conj(z), k), w));
      { MulComm(Conj(z), k); }
      Mul(Conj(k), Mul(Mul(k, Conj(z)), w));
      { MulAssoc(k, Conj(z), w); }
      Mul(Conj(k), Mul(k, Mul(Conj(z), w)));
      { MulAssoc(Conj(k), k, Mul(Conj(z), w)); }
      Mul(Mul(Conj(k), k), Mul(Conj(z), w));
      { ConjTimesSelf(k); }
      Mul(Complex(NormSq(k), 0.0), Mul(Conj(z), w));
      { ScaleIsMul(NormSq(k), Mul(Conj(z), w)); }
      Scale(NormSq(k), Mul(Conj(z), w));
    }
  }
}
