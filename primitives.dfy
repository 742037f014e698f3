/** The numeric primitives the activation catalog calls.

    The entries call JavaScript's `Math` library (exp, tanh, atan, asinh, log,
    sin, cos, and pow with exponent 1/2). Those are foreign floating-point code,
    so the model does not define them: every entry that needs one receives it
    through a `MathLib` value. The only facts required of the primitives are
    the ones the entries' divisions need (see `MathLib.Valid`). Absolute value, squaring and
    the maximum are exact on the reals and are defined here. */
module Primitives {

  /** The library functions the entries call, supplied by the caller.
      `sqrt` stands for `y => Math.pow(y, 1 / 2)` (written `y ** (1 / 2)` in
      TypeScript). */
  datatype MathLib = MathLib(
    exp: real -> real,
    tanh: real -> real,
    atan: real -> real,
    asinh: real -> real,
    log: real -> real,
    sin: real -> real,
    cos: real -> real,
    sqrt: real -> real)
  {
    /** What the model knows of the library: e^x is positive at every x, and
        the square root of a positive number is positive. Nothing else is
        assumed, so no analytic fact about the primitives is used. */
    ghost predicate Valid() {
      && (forall x :: exp(x) > 0.0)
      && (forall y :: y > 0.0 ==> sqrt(y) > 0.0)
    }
  }

  /** Math.abs */
  function Abs(x: real): (r: real)
    ensures r >= 0.0 && (r == x || r == -x)
  {
    if x < 0.0 then -x else x
  }

  /** The product of two reals, carrying the sign rules that the proofs use.
      Squares go through it so that the solver reasons about two independent
      factors. */
  function Product(a: real, b: real): (r: real)
    ensures a > 0.0 && b > 0.0 ==> r > 0.0
    ensures a < 0.0 && b < 0.0 ==> r > 0.0
    ensures a > 0.0 && b < 0.0 ==> r < 0.0
    ensures a < 0.0 && b > 0.0 ==> r < 0.0
    ensures a == 0.0 || b == 0.0 ==> r == 0.0
  {
    a * b
  }

  /** `x ** 2` and `Math.pow(x, 2)`: never negative, and zero only at zero. */
  function Square(x: real): (r: real)
    ensures r >= 0.0
    ensures r == 0.0 <==> x == 0.0
  {
    Product(x, x)
  }

  /** The larger of two reals, used as an independent reference definition. */
  function Max(a: real, b: real): (r: real)
    ensures r >= a && r >= b && (r == a || r == b)
  {
    if a < b then b else a
  }

  // ---------------------------------------------------------------------------
  // Facts about real arithmetic that the entries' proofs use
  // ---------------------------------------------------------------------------

  /** On [0, 1] a square lies below its base. */
  lemma SquareBelowBase(h: real)
    requires 0.0 <= h <= 1.0
    ensures Square(h) <= h
  {
    assert Product(h, 1.0 - h) >= 0.0;
  }

  /** For a positive divisor d, a / d compares with c as a compares with c d. */
  lemma QuotientCompare(a: real, d: real, c: real)
    requires d > 0.0
    ensures a / d > c <==> a > c * d
    ensures a / d < c <==> a < c * d
    ensures a / d == c <==> a == c * d
  {
  }

  /** (a - b)^2 expanded. */
  lemma SquareOfDifference(a: real, b: real)
    ensures Square(a - b) == Square(a) - 2.0 * Product(a, b) + Square(b)
  {
  }

  /** For s in (0, 1), s (1 - s) lies in (0, 1/4]. */
  lemma ProductOfComplements(s: real)
    requires 0.0 < s < 1.0
    ensures 0.0 < Product(s, 1.0 - s) <= 0.25
  {
  }
}
