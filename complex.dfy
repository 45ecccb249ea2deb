/** Complex numbers over `real`, as (re, im) pairs, with the operations the
    permittivity formulas use. Facts that need nonlinear arithmetic are
    proved once on plain real components and lifted to `Complex`. */
module ComplexNumbers {
  import opened Squares

  datatype Complex = Complex(re: real, im: real)

  const Zero := Complex(0.0, 0.0)
  const One := Complex(1.0, 0.0)

  function Add(a: Complex, b: Complex): Complex {
    Complex(a.re + b.re, a.im + b.im)
  }

  function Sub(a: Complex, b: Complex): Complex {
    Complex(a.re - b.re, a.im - b.im)
  }

  /** Multiplication by a real scalar. */
  function Scale(s: real, a: Complex): Complex {
    Complex(s * a.re, s * a.im)
  }

  function Mul(a: Complex, b: Complex): Complex {
    Complex(a.re * b.re - a.im * b.im, a.re * b.im + a.im * b.re)
  }

  function Conj(a: Complex): Complex {
    Complex(a.re, -a.im)
  }

  /** A sum of two squares is positive unless both terms are zero. */
  lemma SumSquaresPositive(x: real, y: real)
    requires x != 0.0 || y != 0.0
    ensures x * x + y * y > 0.0
  {
    if x != 0.0 {
      SqPositive(x);
      SqNonNeg(y);
    } else {
      SqNonNeg(x);
      SqPositive(y);
    }
  }

  /** Complex division; the quotient is the number that, multiplied by the
      divisor, gives back the dividend. */
  function Div(a: Complex, b: Complex): (q: Complex)
    requires b != Zero
    ensures Mul(q, b) == a
  {
    Quotient(a.re, a.im, b.re, b.im)
  }

  /** x * y + z * w, once positive, is not zero. Stated over four factors so
      that a sum of two squares is an instance of it; it hands `Quotient` its
      non-zero denominator without re-deriving the nonlinear sum. */
  lemma PositiveNonZero(x: real, y: real, z: real, w: real)
    requires x * y + z * w > 0.0
    ensures x * y + z * w != 0.0
  {
  }

  /** (ar + i ai) / (br + i bi), computed through the conjugate of the divisor. */
  function Quotient(ar: real, ai: real, br: real, bi: real): (q: Complex)
    requires br != 0.0 || bi != 0.0
    ensures q.re * br - q.im * bi == ar
    ensures q.re * bi + q.im * br == ai
  {
    SumSquaresPositive(br, bi);
    PositiveNonZero(br, br, bi, bi);
    var qr := (ar * br + ai * bi) / (br * br + bi * bi);
    var qi := (ai * br - ar * bi) / (br * br + bi * bi);
    QuotientParts(ar, ai, br, bi, qr, qi);
    Complex(qr, qi)
  }

  lemma QuotientParts(ar: real, ai: real, br: real, bi: real, qr: real, qi: real)
    requires br * br + bi * bi != 0.0
    requires qr == (ar * br + ai * bi) / (br * br + bi * bi)
    requires qi == (ai * br - ar * bi) / (br * br + bi * bi)
    ensures qr * br - qi * bi == ar
    ensures qr * bi + qi * br == ai
  {
    var n := br * br + bi * bi;
    var x := ar * br + ai * bi;
    var y := ai * br - ar * bi;
    assert qr * n == x;
    assert qi * n == y;
    calc {
      (qr * br - qi * bi) * n;
      (qr * n) * br - (qi * n) * bi;
      x * br - y * bi;
      ar * n;
    }
    calc {
      (qr * bi + qi * br) * n;
      (qr * n) * bi + (qi * n) * br;
      x * bi + y * br;
      ai * n;
    }
  }

  /** If p * b == q * b with b nonzero then p == q. */
  lemma MulCancel(p: Complex, q: Complex, b: Complex)
    requires b != Zero && Mul(p, b) == Mul(q, b)
    ensures p == q
  {
    CancelParts(p.re, p.im, q.re, q.im, b.re, b.im);
  }

  lemma CancelParts(pr: real, pi: real, qr: real, qi: real, br: real, bi: real)
    requires br != 0.0 || bi != 0.0
    requires pr * br - pi * bi == qr * br - qi * bi
    requires pr * bi + pi * br == qr * bi + qi * br
    ensures pr == qr && pi == qi
  {
    SumSquaresPositive(br, bi);
    var n := br * br + bi * bi;
    var dr := pr - qr;
    var di := pi - qi;
    assert dr * br - di * bi == 0.0;
    assert dr * bi + di * br == 0.0;
    // multiplying (dr + i di)(br + i bi) == 0 by the conjugate of b
    calc {
      dr * n;
      br * (dr * br - di * bi) + bi * (dr * bi + di * br);
      0.0;
    }
    calc {
      di * n;
      br * (dr * bi + di * br) - bi * (dr * br - di * bi);
      0.0;
    }
  }

  lemma MulComm(a: Complex, b: Complex)
    ensures Mul(a, b) == Mul(b, a)
  {
  }
}
