/**
 * The two transcendental operations the analyser relies on, `Math.sqrt` and
 * `Math.log10`. They are not computed here: a `Math` value supplies them, and
 * `Lawful` states the laws that pin them down on their domains (a non-negative
 * square root; a strictly increasing logarithm that turns products into sums
 * and maps 10 to 1). Lemmas that need those laws require `Lawful(m)`.
 */
module RealMath {

  datatype Math = Math(sqrt: real -> real, log10: real -> real)

  /** `x * x`, kept behind a function so that the solver treats squares as atoms. */
  function Square(x: real): real { x * x }

  ghost predicate IsRoot(m: Math, x: real) {
    0.0 <= m.sqrt(x) && Square(m.sqrt(x)) == x
  }

  ghost predicate SqrtLaw(m: Math) {
    forall x :: 0.0 <= x ==> IsRoot(m, x)
  }

  ghost predicate LogIncreasing(m: Math) {
    forall x, y :: 0.0 < x < y ==> m.log10(x) < m.log10(y)
  }

  ghost predicate LogOfProduct(m: Math, x: real, y: real, z: real) {
    z == x * y ==> m.log10(z) == m.log10(x) + m.log10(y)
  }

  ghost predicate LogProductLaw(m: Math) {
    forall x, y, z :: 0.0 < x && 0.0 < y ==> LogOfProduct(m, x, y, z)
  }

  ghost predicate Lawful(m: Math) {
    SqrtLaw(m) && LogIncreasing(m) && LogProductLaw(m) && m.log10(10.0) == 1.0
  }

  lemma ProductPositive(a: real, b: real)
    requires 0.0 < a && 0.0 < b
    ensures 0.0 < a * b
  {
  }

  lemma SquareStrictlyMonotone(a: real, b: real)
    requires 0.0 <= a < b
    ensures Square(a) < Square(b)
  {
    var d := b - a;
    var ad, bd := a * d, b * d;
    assert ad >= 0.0;
    assert bd > 0.0;
    assert a * b == a * a + ad;
    assert b * b == a * b + bd;
  }

  lemma SquareMonotone(a: real, b: real)
    requires 0.0 <= a <= b
    ensures Square(a) <= Square(b)
  {
    if a < b {
      SquareStrictlyMonotone(a, b);
    }
  }

  lemma SquarePositive(a: real)
    requires a != 0.0
    ensures 0.0 < Square(a)
  {
    if a > 0.0 {
      SquareStrictlyMonotone(0.0, a);
    } else {
      SquareStrictlyMonotone(0.0, -a);
      assert Square(a) == Square(-a);
    }
  }

  /** The square root is the unique non-negative root of a square. */
  lemma SqrtOfSquare(m: Math, p: real)
    requires Lawful(m) && 0.0 <= p
    ensures m.sqrt(Square(p)) == p
  {
    SquareMonotone(0.0, p);
    var s := m.sqrt(Square(p));
    assert IsRoot(m, Square(p));
    if s < p {
      SquareStrictlyMonotone(s, p);
    } else if p < s {
      SquareStrictlyMonotone(p, s);
    }
  }

  /** Comparing roots is comparing radicands. */
  lemma SqrtLess(m: Math, a: real, b: real)
    requires Lawful(m) && 0.0 <= a && 0.0 <= b
    ensures m.sqrt(a) < m.sqrt(b) <==> a < b
  {
    assert IsRoot(m, a) && IsRoot(m, b);
    if m.sqrt(a) < m.sqrt(b) {
      SquareStrictlyMonotone(m.sqrt(a), m.sqrt(b));
    } else {
      SquareMonotone(m.sqrt(b), m.sqrt(a));
    }
  }

  lemma SqrtMonotone(m: Math, a: real, b: real)
    requires Lawful(m) && 0.0 <= a <= b
    ensures m.sqrt(a) <= m.sqrt(b)
  {
    SqrtLess(m, b, a);
  }

  lemma SqrtPositive(m: Math, x: real)
    requires Lawful(m) && 0.0 <= x
    ensures m.sqrt(x) > 0.0 <==> x > 0.0
  {
    assert IsRoot(m, x);
    if m.sqrt(x) != 0.0 {
      SquarePositive(m.sqrt(x));
    }
  }

  lemma DivAtMost(s: real, n: real, q: real)
    requires 0.0 < n && s <= n * q
    ensures s / n <= q
  {
    var d := s / n;
    assert d * n == s;
    assert n * (q - d) >= 0.0;
  }

  /** `10^k` for a natural exponent. */
  function Pow10(k: nat): (r: real)
    ensures r >= 1.0
  {
    if k == 0 then 1.0 else 10.0 * Pow10(k - 1)
  }

  /** On positive arguments the logarithm orders exactly as its arguments do. */
  lemma LogLess(m: Math, a: real, b: real)
    requires Lawful(m) && 0.0 < a && 0.0 < b
    ensures m.log10(a) < m.log10(b) <==> a < b
  {
    if b < a {
      assert m.log10(b) < m.log10(a);
    }
  }

  lemma LogOfOne(m: Math)
    requires Lawful(m)
    ensures m.log10(1.0) == 0.0
  {
    assert LogOfProduct(m, 1.0, 1.0, 1.0);
  }

  lemma {:induction false} LogOfPow10(m: Math, k: nat)
    requires Lawful(m)
    ensures m.log10(Pow10(k)) == k as real
  {
    if k == 0 {
      LogOfOne(m);
    } else {
      LogOfPow10(m, k - 1);
      assert LogOfProduct(m, 10.0, Pow10(k - 1), Pow10(k));
    }
  }

  /** The amplitude whose level is exactly -70 dB is the root of 10^-7. */
  lemma LogOfGateAmplitude(m: Math)
    requires Lawful(m)
    ensures 20.0 * m.log10(m.sqrt(0.0000001)) == -70.0
  {
    var t := m.sqrt(0.0000001);
    assert IsRoot(m, 0.0000001);
    SqrtPositive(m, 0.0000001);
    assert LogOfProduct(m, t, t, 0.0000001);
    assert Pow10(7) == 10000000.0;
    LogOfPow10(m, 7);
    LogOfOne(m);
    assert LogOfProduct(m, 0.0000001, 10000000.0, 1.0);
  }

  /**
   * The -70 dB gate on a root-mean-square value is a threshold on the mean
   * square itself: `20 log10(sqrt(ms)) < -70` exactly when `ms < 10^-7`.
   */
  lemma GateOnMeanSquare(m: Math, ms: real)
    requires Lawful(m) && 0.0 < ms
    ensures 20.0 * m.log10(m.sqrt(ms)) < -70.0 <==> ms < 0.0000001
  {
    LogOfGateAmplitude(m);
    SqrtPositive(m, ms);
    SqrtPositive(m, 0.0000001);
    LogLess(m, m.sqrt(ms), m.sqrt(0.0000001));
    SqrtLess(m, ms, 0.0000001);
  }
}
