/**
 * The JavaScript number operations the formatting code relies on, over the
 * reals: `Math.floor`, truncation toward zero, the `%` operator (whose
 * remainder takes the sign of the dividend, unlike Dafny's Euclidean `%`)
 * and `Math.round` (nearest integer, halves toward +infinity).
 */
module JsNumber {

  /** `Math.floor`. */
  function Floor(x: real): (r: int)
    ensures r as real <= x < r as real + 1.0
  {
    x.Floor
  }

  /** Truncation toward zero, the quotient JavaScript's `%` is defined by. */
  function Trunc(x: real): (r: int)
    ensures 0.0 <= x ==> r == Floor(x)
    ensures x < 0.0 ==> r == -Floor(-x)
  {
    if x < 0.0 then -Floor(-x) else Floor(x)
  }

  /** JavaScript's `a % b`: `a` less the whole multiples of `b` counted toward zero. */
  function Remainder(a: real, b: real): real
    requires b != 0.0
  {
    a - b * Trunc(a / b) as real
  }

  /** `Math.round`: the integer nearest to `x`, a tie going to the larger one. */
  function Round(x: real): int {
    Floor(x + 0.5)
  }

  /**
   * `Math.round` lands within a half of `x`, a tie going up, and no integer
   * lies closer to `x`.
   */
  lemma RoundNearest(x: real, k: int)
    ensures x - 0.5 < Round(x) as real <= x + 0.5
    ensures Abs(Round(x) as real - x) <= Abs(k as real - x)
  {
    var r := Round(x);
    assert x - 0.5 < r as real <= x + 0.5;
    assert Abs(r as real - x) <= 0.5;
    if k < r {
      assert k as real <= r as real - 1.0;
    } else if k > r {
      assert k as real >= r as real + 1.0;
    }
  }

  /** Rounding keeps order. */
  lemma RoundMonotone(x: real, y: real)
    requires x <= y
    ensures Round(x) <= Round(y)
  {
  }

  function Abs(x: real): real {
    if x < 0.0 then -x else x
  }

  /**
   * For a non-negative dividend and a positive divisor JavaScript's `%` is
   * the Euclidean remainder: it lies in `[0, b)` and `b * floor(a / b)` plus
   * the remainder gives back `a`.
   */
  lemma RemainderOfNonNegative(a: real, b: real)
    requires 0.0 <= a && 0.0 < b
    ensures 0.0 <= Remainder(a, b) < b
    ensures b * Floor(a / b) as real + Remainder(a, b) == a
  {
    var x := a / b;
    QuotientFacts(a, b);
    assert Trunc(x) == Floor(x);
    var q := Floor(x) as real;
    MultiplyBounds(a, q, x, b);
    assert Remainder(a, b) == a - b * q;
  }

  lemma QuotientFacts(a: real, b: real)
    requires 0.0 <= a && 0.0 < b
    ensures 0.0 <= a / b && b * (a / b) == a
  {
  }

  lemma MultiplyBounds(a: real, q: real, x: real, b: real)
    requires 0.0 < b && q <= x < q + 1.0 && b * x == a
    ensures b * q <= a < b * q + b
  {
    var below := x - q;
    var above := q + 1.0 - x;
    assert b * below >= 0.0;
    assert b * below == b * x - b * q;
    assert b * above > 0.0;
    assert b * above == b * q + b - b * x;
  }

  /** `Math.floor` keeps order. */
  lemma FloorMonotone(x: real, y: real)
    requires x <= y
    ensures Floor(x) <= Floor(y)
  {
  }

  /** Whole multiples come out of a floor unchanged. */
  lemma FloorShift(x: real, k: int)
    ensures Floor(x - k as real) == Floor(x) - k
  {
  }

  /**
   * For a non-negative `s` and a positive whole `b`, the whole part of
   * `s / b` times `b` plus the whole part of `s % b` is the whole part of `s`,
   * and the second lies in `[0, b)`.
   */
  lemma FloorDecomposition(s: real, b: nat)
    requires 0.0 <= s && 0 < b
    ensures 0 <= Floor(s / b as real)
    ensures 0 <= Floor(Remainder(s, b as real)) < b
    ensures b * Floor(s / b as real) + Floor(Remainder(s, b as real)) == Floor(s)
  {
    var q := Floor(s / b as real);
    RemainderOfNonNegative(s, b as real);
    assert Remainder(s, b as real) == s - (b * q) as real;
    FloorShift(s, b * q);
  }
}
