/** The sixteen activation functions of src/index.ts, over exact reals.

    Every entry takes the input `x` and the flag `derivative` (a default
    parameter in TypeScript, an explicit `bool` here) and returns either the
    value f(x) or the number the code uses as f'(x). The piecewise and rational
    entries are modelled exactly; the transcendental ones go through the
    primitives of a `MathLib`. Each entry's contract states what the entry
    guarantees on its own; the lemmas after the entries relate entries to one
    another and to independent reference definitions. */
module Activations {
  import opened Primitives

  // ---------------------------------------------------------------------------
  // The entries, in the order of the export block
  // ---------------------------------------------------------------------------

  /** The identity: the rectifier of x minus the rectifier of -x, with
      slope 1 everywhere. */
  function Identitiy(x: real, derivative: bool): (r: real)
    ensures !derivative ==> r == RELU(x, false) - RELU(-x, false)
    ensures derivative ==> r == 1.0
  {
    if !derivative then x else 1.0
  }

  /** The Heaviside step: 0 strictly left of zero, 1 from zero on (so 1 at 0). */
  function BinaryStep(x: real, derivative: bool): (r: real)
    ensures !derivative ==> (r == 1.0 <==> x >= 0.0) && (r == 0.0 <==> x < 0.0)
    ensures derivative ==> r == 0.0
  {
    if !derivative then (if x < 0.0 then 0.0 else 1.0) else 0.0
  }

  /** The logistic sigmoid 1 / (1 + e^-x), whose derivative the code computes
      from the same `negativeEX` binding. */
  function Logistic(m: MathLib, x: real, derivative: bool): (r: real)
    requires m.Valid()
    ensures !derivative ==> 0.0 < r < 1.0
    ensures derivative ==> 0.0 < r <= 0.25
  {
    var negativeEX := m.exp(-x);
    ProductOfComplements(1.0 / (1.0 + negativeEX));
    if !derivative then 1.0 / (1.0 + negativeEX)
    else 1.0 / (1.0 + negativeEX) * (1.0 - 1.0 / (1.0 + negativeEX))
  }

  /** The hyperbolic tangent, with derivative 1 - tanh(x)^2. */
  function TANH(m: MathLib, x: real, derivative: bool): (r: real)
    ensures derivative ==> r <= 1.0
  {
    if !derivative then m.tanh(x) else 1.0 - Square(m.tanh(x))
  }

  /** How a call of an arrow function ends: through its `arm`-th return
      statement (counted in source order within the taken `derivative`
      branch) with a number, or by running off the end of the body, which in
      JavaScript yields `undefined`. */
  datatype Exit = Return(arm: int, value: real) | FallOff

  /** The SQNL entry of src/index.ts branch for branch. The derivative branch
      first returns 0 for every x < 0, so its third return (guarded by
      x >= -2) is dead, and no real x runs off the end. */
  function SQNLBody(x: real, derivative: bool): (e: Exit)
    ensures e.Return?
    ensures derivative ==> e.arm != 3
  {
    var half := x / 2.0;
    if !derivative then
      if x > 2.0 then Return(1, 1.0)
      else if x >= 0.0 then Return(2, x - Square(half))
      else if x >= -2.0 then Return(3, x + Square(half))
      else Return(4, -1.0)
    else
      if x < 0.0 || x > 2.0 then Return(1, 0.0)
      else if x >= 0.0 then Return(2, 1.0 - half)
      else if x >= -2.0 then Return(3, 1.0 + half)
      else FallOff
  }

  /** On the arc 0 <= h <= 1 (h = x / 2), the value 2h - h^2 of the middle
      branch rises from h up to at most 1. */
  lemma SQNLArc(h: real)
    requires 0.0 <= h <= 1.0
    ensures h <= 2.0 * h - Square(h) <= 1.0
  {
    SquareBelowBase(h);
    SquareOfDifference(1.0, h);
  }

  /** The square non-linearity: the number SQNLBody returns for every real x. */
  function SQNL(x: real, derivative: bool): (r: real)
    ensures !derivative ==> -1.0 <= r <= 1.0
    ensures !derivative ==> (r < 0.0 <==> x < 0.0) && (r == 0.0 <==> x == 0.0)
    ensures derivative ==> 0.0 <= r <= 1.0
    ensures derivative && (x < 0.0 || x > 2.0) ==> r == 0.0
    ensures derivative && 0.0 <= x <= 2.0 ==> r == 1.0 - x / 2.0
  {
    var e := SQNLBody(x, derivative);
    if !derivative && 0.0 <= x <= 2.0 then
      SQNLArc(x / 2.0);
      e.value
    else if !derivative && -2.0 <= x < 0.0 then
      SQNLArc(-x / 2.0);
      e.value
    else
      e.value
  }

  /** The arctangent; its derivative 1 / (x^2 + 1) is exact arithmetic. */
  function ArcTan(m: MathLib, x: real, derivative: bool): (r: real)
    ensures derivative ==> 0.0 < r <= 1.0 && (r == 1.0 <==> x == 0.0)
  {
    if !derivative then m.atan(x) else 1.0 / (Square(x) + 1.0)
  }

  /** The inverse hyperbolic sine, with derivative 1 / (x^2 + 1)^(1/2). */
  function ArSinH(m: MathLib, x: real, derivative: bool): (r: real)
    requires m.Valid()
    ensures derivative ==> r > 0.0
  {
    if !derivative then m.asinh(x) else 1.0 / m.sqrt(Square(x) + 1.0)
  }

  /** x / (1 + |x|), with derivative 1 / (1 + |x|)^2. */
  function SoftSign(x: real, derivative: bool): (r: real)
    ensures !derivative ==> -1.0 < r < 1.0
    ensures !derivative ==> (r > 0.0 <==> x > 0.0) && (r < 0.0 <==> x < 0.0)
    ensures derivative ==> 0.0 < r <= 1.0 && (r == 1.0 <==> x == 0.0)
  {
    if !derivative then x / (1.0 + Abs(x))
    else 1.0 / Square(1.0 + Abs(x))
  }

  /** The rectifier: x for x > 0 and 0 otherwise, so 0 (and derivative 0) at 0. */
  function RELU(x: real, derivative: bool): (r: real)
    ensures !derivative ==> r == Max(x, 0.0)
    ensures derivative ==> (r == 1.0 <==> x > 0.0) && (r == 0.0 <==> x <= 0.0)
  {
    if !derivative then (if x > 0.0 then x else 0.0)
    else (if x > 0.0 then 1.0 else 0.0)
  }

  /** The leaky rectifier: x for x > 0 and 0.01 x otherwise; derivative 0.01 at 0. */
  function LeakyRELU(x: real, derivative: bool): (r: real)
    ensures !derivative ==> r == Max(x, 0.01 * x)
    ensures derivative ==> (r == 1.0 <==> x > 0.0) && (r == 0.01 <==> x <= 0.0)
  {
    if !derivative then (if x > 0.0 then x else 0.01 * x)
    else (if x > 0.0 then 1.0 else 0.01)
  }

  /** ln(1 + e^x), whose derivative is written as the logistic sigmoid. */
  function SoftPlus(m: MathLib, x: real, derivative: bool): (r: real)
    requires m.Valid()
    ensures derivative ==> 0.0 < r < 1.0
  {
    if !derivative then m.log(1.0 + m.exp(x)) else 1.0 / (1.0 + m.exp(-x))
  }

  /** ((x^2 + 1)^(1/2) - 1) / 2 + x, with derivative x / (2 (x^2 + 1)^(1/2)) + 1. */
  function BentIdentity(m: MathLib, x: real, derivative: bool): (r: real)
    requires m.Valid()
    ensures derivative ==> (r > 1.0 <==> x > 0.0) && (r < 1.0 <==> x < 0.0)
  {
    if !derivative then (m.sqrt(Square(x) + 1.0) - 1.0) / 2.0 + x
    else x / (2.0 * m.sqrt(Square(x) + 1.0)) + 1.0
  }

  /** x / (1 + e^-x), with derivative (1 + e^-x + x e^-x) / (1 + e^-x)^2. */
  function SiLU(m: MathLib, x: real, derivative: bool): (r: real)
    requires m.Valid()
    ensures !derivative ==> (r > 0.0 <==> x > 0.0) && (r < 0.0 <==> x < 0.0)
  {
    var negativeEX := m.exp(-x);
    if !derivative then x / (1.0 + negativeEX)
    else (1.0 + negativeEX + x * negativeEX) / Square(1.0 + negativeEX)
  }

  /** The sine, with derivative the cosine. Away from 0 both are recovered
      from Sinc: sin x = x Sinc(x) and cos x = x Sinc'(x) + Sinc(x). */
  function Sinusiod(m: MathLib, x: real, derivative: bool): (r: real)
    ensures x != 0.0 && !derivative ==> r == x * Sinc(m, x, false)
    ensures x != 0.0 && derivative ==> r == x * Sinc(m, x, true) + Sinc(m, x, false)
  {
    if !derivative then m.sin(x) else m.cos(x)
  }

  /** sin(x) / x with the removable singularity at 0 filled in: value 1 and
      derivative 0 at exactly x = 0, the closed form everywhere else. */
  function Sinc(m: MathLib, x: real, derivative: bool): (r: real)
    ensures x == 0.0 ==> r == (if derivative then 0.0 else 1.0)
  {
    if !derivative then (if x == 0.0 then 1.0 else m.sin(x) / x)
    else (if x == 0.0 then 0.0 else m.cos(x) / x - m.sin(x) / Square(x))
  }

  /** 1 / e^(x^2), with derivative -2 x e^(-(x^2)). */
  function GAUSSIAN(m: MathLib, x: real, derivative: bool): (r: real)
    requires m.Valid()
    ensures !derivative ==> r > 0.0
    ensures derivative ==> (r > 0.0 <==> x < 0.0) && (r < 0.0 <==> x > 0.0)
  {
    if !derivative then 1.0 / m.exp(Square(x))
    else -2.0 * x * m.exp(-Square(x))
  }

  // ---------------------------------------------------------------------------
  // Piecewise entries: tie-breaks and relations between them
  // ---------------------------------------------------------------------------

  /** The identity is x with slope 1, and splits into the rectifier of x minus
      the rectifier of -x; away from 0 its slope is the sum of theirs. */
  lemma IdentitiyDecomposes(x: real)
    ensures Identitiy(x, false) == x && Identitiy(x, true) == 1.0
    ensures Identitiy(x, false) == RELU(x, false) - RELU(-x, false)
    ensures x != 0.0 ==> Identitiy(x, true) == RELU(x, true) + RELU(-x, true)
  {
  }

  /** The step is the complement of the rectifier's slope at -x (which also
      puts 1 at 0), and the rectifier is x times the step. */
  lemma BinaryStepFromRELU(x: real)
    ensures BinaryStep(x, false) == 1.0 - RELU(-x, true)
    ensures RELU(x, false) == x * BinaryStep(x, false)
  {
  }

  /** The boundary points the catalog fixes at zero. */
  lemma ZeroTieBreaks()
    ensures BinaryStep(0.0, false) == 1.0 && BinaryStep(0.0, true) == 0.0
    ensures RELU(0.0, false) == 0.0 && RELU(0.0, true) == 0.0
    ensures LeakyRELU(0.0, false) == 0.0 && LeakyRELU(0.0, true) == 0.01
  {
  }

  /** Both rectifiers are x times their own slope; the leaky one agrees with
      the plain one right of zero and is the plain one minus 0.01 times the
      plain one at -x everywhere. */
  lemma RectifiersRelated(x: real)
    ensures RELU(x, false) == x * RELU(x, true)
    ensures LeakyRELU(x, false) == x * LeakyRELU(x, true)
    ensures x > 0.0 ==> LeakyRELU(x, false) == RELU(x, false) && LeakyRELU(x, true) == RELU(x, true)
    ensures LeakyRELU(x, false) == RELU(x, false) - 0.01 * RELU(-x, false)
  {
  }

  // ---------------------------------------------------------------------------
  // SQNL
  // ---------------------------------------------------------------------------

  /** The SQNL value is odd. */
  lemma SQNLOdd(x: real)
    ensures SQNL(-x, false) == -SQNL(x, false)
  {
  }

  /** On [0, 2] the SQNL value rises strictly: with a = x / 2 and b = y / 2,
      f(y) - f(x) = (b - a) (2 - (b + a)), a product of two positive factors. */
  lemma SQNLRisesOnArc(x: real, y: real)
    requires 0.0 <= x < y <= 2.0
    ensures SQNL(x, false) < SQNL(y, false)
  {
    var a, b := x / 2.0, y / 2.0;
    assert Product(b - a, 2.0 - (b + a)) > 0.0;
  }

  /** The SQNL value rises strictly on [-2, 2], the interval where it is not
      clamped. */
  lemma SQNLStrictlyRises(x: real, y: real)
    requires -2.0 <= x < y <= 2.0
    ensures SQNL(x, false) < SQNL(y, false)
  {
    if 0.0 <= x {
      SQNLRisesOnArc(x, y);
    } else if y <= 0.0 {
      SQNLRisesOnArc(-y, -x);
    }
  }

  /** The SQNL value is non-decreasing everywhere. */
  lemma SQNLMonotone(x: real, y: real)
    requires x <= y
    ensures SQNL(x, false) <= SQNL(y, false)
  {
    if -2.0 <= x < y <= 2.0 {
      SQNLStrictlyRises(x, y);
    }
  }

  /** The slope src/index.ts returns is positive only on [0, 2): on [-2, 0)
      it is 0 although the value rises strictly there. */
  lemma SQNLSlopeVanishesWhileValueRises(x: real, y: real)
    requires -2.0 <= x < y <= 0.0
    ensures SQNL(x, true) == 0.0 && SQNL(x, false) < SQNL(y, false)
  {
    SQNLStrictlyRises(x, y);
  }

  /** The value branches meet where they hand over: 1 at 2, 0 at 0 and -1
      at -2. */
  lemma SQNLBranchEnds()
    ensures SQNL(2.0, false) == 1.0 && SQNL(0.0, false) == 0.0 && SQNL(-2.0, false) == -1.0
  {
  }

  /** The slope is 1 at 0 and falls to 0 at 2; the inputs -1 and 3 both
      give 0. */
  lemma SQNLDerivativeEnds()
    ensures SQNL(0.0, true) == 1.0 && SQNL(2.0, true) == 0.0
    ensures SQNL(-1.0, true) == 0.0 && SQNL(3.0, true) == 0.0
  {
  }

  // ---------------------------------------------------------------------------
  // Rational entries
  // ---------------------------------------------------------------------------

  /** The inverse of SoftSign on (-1, 1): y / (1 - |y|). */
  function SoftSignInverse(y: real): (x: real)
    requires -1.0 < y < 1.0
    ensures (x > 0.0 <==> y > 0.0) && (x < 0.0 <==> y < 0.0)
  {
    QuotientCompare(y, 1.0 - Abs(y), 0.0);
    y / (1.0 - Abs(y))
  }

  /** SoftSign is a bijection from the reals onto (-1, 1): its inverse undoes
      it, and it undoes its inverse. */
  lemma SoftSignRoundTrip(x: real, y: real)
    requires -1.0 < y < 1.0
    ensures SoftSignInverse(SoftSign(x, false)) == x
    ensures SoftSign(SoftSignInverse(y), false) == y
  {
  }

  /** SoftSign is odd, its derivative even, and the derivative is
      (1 - |SoftSign(x)|)^2. */
  lemma SoftSignSymmetry(x: real)
    ensures SoftSign(-x, false) == -SoftSign(x, false)
    ensures SoftSign(-x, true) == SoftSign(x, true)
    ensures SoftSign(x, true) == Square(1.0 - Abs(SoftSign(x, false)))
  {
  }

  /** The ArcTan derivative is even. */
  lemma ArcTanDerivativeEven(m: MathLib, x: real)
    ensures ArcTan(m, -x, true) == ArcTan(m, x, true)
  {
  }

  /** With a library whose exp satisfies e^s e^-s = 1 at s = x^2, the GAUSSIAN
      value 1 / e^(x^2) is e^-(x^2), and its slope is -2 x times its value. */
  lemma GAUSSIANClosedForm(m: MathLib, x: real)
    requires m.Valid()
    requires m.exp(Square(x)) * m.exp(-Square(x)) == 1.0
    ensures GAUSSIAN(m, x, false) == m.exp(-Square(x))
    ensures GAUSSIAN(m, x, true) == -2.0 * x * GAUSSIAN(m, x, false)
  {
  }

  // ---------------------------------------------------------------------------
  // Structural identities between entries
  // ---------------------------------------------------------------------------

  /** The TANH derivative is one minus the square of the TANH value. */
  lemma TANHDerivativeFromValue(m: MathLib, x: real)
    ensures TANH(m, x, true) == 1.0 - Square(TANH(m, x, false))
  {
  }

  /** The Logistic derivative is L (1 - L) for the Logistic value L. */
  lemma LogisticDerivativeFromValue(m: MathLib, x: real)
    requires m.Valid()
    ensures Logistic(m, x, true) == Logistic(m, x, false) * (1.0 - Logistic(m, x, false))
  {
  }

  /** The SoftPlus derivative is the Logistic value. */
  lemma SoftPlusDerivativeIsLogistic(m: MathLib, x: real)
    requires m.Valid()
    ensures SoftPlus(m, x, true) == Logistic(m, x, false)
  {
  }

  /** SiLU is x times the Logistic value, and its derivative obeys the product
      rule: L + x L'. */
  lemma SiLUFromLogistic(m: MathLib, x: real)
    requires m.Valid()
    ensures SiLU(m, x, false) == x * Logistic(m, x, false)
    ensures SiLU(m, x, true) == Logistic(m, x, false) + x * Logistic(m, x, true)
  {
  }

  /** The BentIdentity slope is 1 plus x / 2 times the ArSinH slope (both
      divide by the same (x^2 + 1)^(1/2)). */
  lemma BentIdentityDerivativeViaArSinH(m: MathLib, x: real)
    requires m.Valid()
    ensures BentIdentity(m, x, true) == 1.0 + x * ArSinH(m, x, true) / 2.0
  {
  }

  /** Away from zero, Sinc times x is the Sinusiod value, and the Sinc
      derivative is the quotient rule (cos x - Sinc x) / x. */
  lemma SincFromSinusiod(m: MathLib, x: real)
    requires x != 0.0
    ensures Sinc(m, x, false) * x == Sinusiod(m, x, false)
    ensures Sinc(m, x, true) == (Sinusiod(m, x, true) - Sinc(m, x, false)) / x
  {
  }
}
