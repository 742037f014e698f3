# activations — a Dafny model

liquidcarrot/activations is a catalog of sixteen scalar activation functions for
neural networks. Every entry is a pure arrow function `(x, derivative = false)`.
It returns f(x), or the number the code uses as the slope f'(x) when `derivative`
is set. The catalog exists twice:

- `src/index.ts` is the current TypeScript. It ends with an export block that fixes the order of the names.
- `build/src/index.js` is an older compiled copy. Its entries are the same expressions, except for the SQNL slope. It also carries the `ALL_ACTIVATIONS` list.

The model works over exact reals, in four modules:

- `Primitives` (primitives.dfy) holds the `MathLib` record and the exact helpers, with small lemmas of real arithmetic.
  - `MathLib` stands for the transcendental JavaScript `Math` functions the entries call: exp, tanh, atan, asinh, log, sin, cos, and the power 1/2.
  - `Math.abs` and squaring (`x ** 2`, `Math.pow(x, 2)`) are modelled exactly by `Abs` and `Square`; `Max` is a reference definition.
  - `MathLib.Valid` is the only thing assumed of the library: e^x > 0, and a positive number has a positive square root. Entries that divide by e^y or by a square root require it.
- `Activations` (activations.dfy) holds the sixteen entries of `src/index.ts`, branch for branch, and the lemmas relating them.
  - SQNL is modelled in two layers. `SQNLBody` records which `return` a call reaches, or whether it runs off the end of the arrow function, which yields `undefined`. `SQNL` is the number returned.
- `Catalog` (catalog.dfy) holds the sixteen names as a datatype, the export block as a sequence, and one `Eval` dispatch.
- `ActivationsBuild` (activations_build.dfy) holds the compiled copy.
  - It has its own SQNL and `ALL_ACTIVATIONS`.
  - Its dispatch differs from the source one only in SQNL.

What the model establishes, in the system's terms:

- **Tie-breaks at 0:**
  - BinaryStep(0) = 1, and its slope is always 0.
  - RELU(0) = RELU'(0) = 0.
  - LeakyRELU(0) = 0 and LeakyRELU'(0) = 0.01.
  - Sinc is 1 with slope 0 at exactly 0, and uses the closed form elsewhere.
- **Ranges:**
  - The Logistic value lies in (0, 1) and its slope in (0, 1/4].
  - The SoftPlus slope lies in (0, 1).
  - The SoftSign value lies in (-1, 1), with the sign of x.
  - The SoftSign slope lies in (0, 1], and equals 1 only at 0. The same holds for the ArcTan slope 1/(x^2 + 1).
  - The SQNL value lies in [-1, 1].
- **SQNL:**
  - The SQNL value is odd and non-decreasing, and rises strictly on [-2, 2].
  - In `src/index.ts`, the slope's `x >= -2` branch can never run, and no real input falls through to `undefined`.
  - The two copies' slopes differ exactly on the open interval (-2, 0).
- **Relations between entries:**
  - The SoftPlus slope is the Logistic value. The Logistic slope is L(1 - L).
  - SiLU is x·L, and its slope obeys the product rule.
  - The BentIdentity slope is 1 + x/2 times the ArSinH slope.
  - Sinc·x is the sine, and the Sinc slope is the quotient rule.
  - SoftSign has an explicit inverse y/(1 - |y|) on (-1, 1), with both round trips proved.
- **The lists:** `ALL_ACTIVATIONS` equals the export block. Both list all sixteen names, each exactly once.

Three facts about the code that are easy to get wrong:

- SQNL(-2, false) is -1, not 0: src/index.ts:64 takes the `x >= -2` branch and returns -2 + (-1)^2 (`SQNLBranchEnds`).
- The two SQNL slopes are both 0 at x = -2 and differ only on the open interval (-2, 0) (`SQNLSlopesDiffer`).
- GAUSSIAN computes 1 / e^(x^2), while test/activationTest.ts:137 compares it against e^(-x^2). `GAUSSIANClosedForm` shows the two agree whenever the supplied exp satisfies e^s·e^-s = 1 at s = x^2.

## Model

| member | source | states |
|---|---|---|
| Activations.Identitiy | src/index.ts:7 | the value is RELU(x) - RELU(-x) and the slope is 1 |
| Activations.BinaryStep | src/index.ts:15-21 | the value is 1 exactly when x >= 0 (so 1 at 0) and 0 exactly when x < 0; the slope is always 0 |
| Activations.Logistic | src/index.ts:29-36 | the value lies strictly between 0 and 1; the slope computed from the same e^-x lies in (0, 1/4] |
| Activations.TANH | src/index.ts:44-50 | the slope 1 - tanh(x)^2 never exceeds 1, whatever the library's tanh returns |
| Activations.SQNLBody | src/index.ts:58-78 | every real x leaves through a `return`, so it never falls through to `undefined`; with `derivative` set, the third return (`x >= -2`) is never reached |
| Activations.SQNL | src/index.ts:58-78 | the value lies in [-1, 1], is negative exactly for x < 0 and zero exactly at 0; the slope lies in [0, 1], is 0 for x < 0 and x > 2, and is 1 - x/2 on [0, 2] |
| Activations.ArcTan | src/index.ts:86-92 | the slope 1/(x^2 + 1) lies in (0, 1] and equals 1 exactly at x = 0 |
| Activations.ArSinH | src/index.ts:100-106 | the slope 1/(x^2 + 1)^(1/2) is positive |
| Activations.SoftSign | src/index.ts:114-120 | the value lies in (-1, 1) with the sign of x; the slope 1/(1 + \|x\|)^2 lies in (0, 1] and equals 1 exactly at x = 0 |
| Activations.RELU | src/index.ts:128-134 | the value is max(x, 0); the slope is 1 exactly for x > 0 and 0 exactly for x <= 0 |
| Activations.LeakyRELU | src/index.ts:142-148 | the value is max(x, 0.01 x); the slope is 1 exactly for x > 0 and 0.01 exactly for x <= 0 |
| Activations.SoftPlus | src/index.ts:156-162 | the slope 1/(1 + e^-x) lies strictly between 0 and 1 |
| Activations.BentIdentity | src/index.ts:170-176 | the slope is above 1 exactly for x > 0 and below 1 exactly for x < 0 |
| Activations.SiLU | src/index.ts:184-191 | the value x/(1 + e^-x) has the sign of x |
| Activations.Sinusiod | src/index.ts:199-205 | for x != 0, the value is x times the Sinc value and the slope is x times the Sinc slope plus the Sinc value |
| Activations.Sinc | src/index.ts:213-219 | at exactly x = 0 the value is 1 and the slope is 0 |
| Activations.GAUSSIAN | src/index.ts:227-233 | the value is positive; the slope is positive exactly for x < 0 and negative exactly for x > 0 |
| Activations.IdentitiyDecomposes | src/index.ts:7 | the identity returns x with slope 1, equals RELU(x) - RELU(-x), and away from 0 its slope is the sum of the two rectifier slopes |
| Activations.BinaryStepFromRELU | src/index.ts:15-21 | the step is 1 minus the rectifier slope at -x, and the rectifier is x times the step |
| Activations.ZeroTieBreaks | src/index.ts:128-148 | BinaryStep(0) = 1 with slope 0, RELU(0) = 0 with slope 0, LeakyRELU(0) = 0 with slope 0.01 |
| Activations.RectifiersRelated | src/index.ts:128-148 | both rectifiers are x times their own slope; the leaky one equals the plain one for x > 0 and is RELU(x) - 0.01 RELU(-x) everywhere |
| Activations.SQNLOdd | src/index.ts:59-68 | SQNL(-x) = -SQNL(x) for every x |
| Activations.SQNLArc | src/index.ts:62-63 | on [0, 2], with h = x/2, the branch value x - (x/2)^2 = 2h - h^2 lies between h and 1 |
| Activations.SQNLRisesOnArc | src/index.ts:62-63 | on [0, 2] the branch x - (x/2)^2 rises strictly |
| Activations.SQNLStrictlyRises | src/index.ts:59-68 | on [-2, 2] the value rises strictly |
| Activations.SQNLMonotone | src/index.ts:59-68 | the value is non-decreasing on all reals |
| Activations.SQNLBranchEnds | src/index.ts:59-68 | the branches meet: 1 at x = 2, 0 at x = 0, -1 at x = -2 |
| Activations.SQNLDerivativeEnds | src/index.ts:70-76 | the slope is 1 at 0 and 0 at 2, and 0 at -1 and at 3 |
| Activations.SQNLSlopeVanishesWhileValueRises | src/index.ts:70-76 | on [-2, 0) the slope returned is 0 although the value rises strictly there |
| Activations.SoftSignInverse | src/index.ts:114-120 | y/(1 - \|y\|) on (-1, 1) keeps the sign of y |
| Activations.SoftSignRoundTrip | src/index.ts:114-120 | SoftSign is a bijection from the reals onto (-1, 1): the inverse undoes it and it undoes the inverse |
| Activations.SoftSignSymmetry | src/index.ts:114-120 | SoftSign is odd, its slope is even, and the slope is (1 - \|SoftSign(x)\|)^2 |
| Activations.ArcTanDerivativeEven | src/index.ts:86-92 | the ArcTan slope is even |
| Activations.GAUSSIANClosedForm | src/index.ts:227-233 | when e^s e^-s = 1 at s = x^2, the value 1/e^(x^2) is e^-(x^2) and the slope is -2x times the value |
| Activations.TANHDerivativeFromValue | src/index.ts:44-50 | the TANH slope is one minus the square of the TANH value |
| Activations.LogisticDerivativeFromValue | src/index.ts:29-36 | the Logistic slope is L(1 - L) for the Logistic value L |
| Activations.SoftPlusDerivativeIsLogistic | src/index.ts:156-162 | the SoftPlus slope is the Logistic value |
| Activations.SiLUFromLogistic | src/index.ts:184-191 | SiLU is x times the Logistic value, and its slope is L + x L' (product rule) |
| Activations.BentIdentityDerivativeViaArSinH | src/index.ts:170-176 | the BentIdentity slope is 1 + x/2 times the ArSinH slope |
| Activations.SincFromSinusiod | src/index.ts:213-219 | for x != 0, Sinc(x)·x is sin x and the Sinc slope is (cos x - Sinc x)/x |
| Catalog.Eval | src/index.ts:7-233 | dispatching on a name, the slopes of BinaryStep, Logistic, SQNL, ArcTan, SoftSign, RELU, LeakyRELU and SoftPlus lie in [0, 1]; the values of BinaryStep, Logistic, SQNL and SoftSign in [-1, 1]; RELU is never negative; Sinc is 1 / 0 at x = 0 |
| Catalog.Position | src/index.ts:235-252 | every name stands at some position of the export block |
| Catalog.ExportsEnumerateNames | src/index.ts:235-252 | the export block has 16 entries, names every activation, and lists each exactly once |
| ActivationsBuild.SQNL | build/src/index.js:64-93 | the value branches agree with src/index.ts; the slope is the tent max(0, 1 - \|x\|/2) and lies in [0, 1] |
| ActivationsBuild.SQNLSlopesDiffer | build/src/index.js:79-92 | the compiled and source SQNL slopes differ exactly on -2 < x < 0, where the compiled one is 1 + x/2 > 0 and the source one 0 |
| ActivationsBuild.SQNLSlopeFollowsValue | build/src/index.js:79-92 | the compiled slope is positive exactly on (-2, 2), and outside it the value is clamped to -1 or 1 |
| ActivationsBuild.AllActivationsIsExportBlock | build/src/index.js:261-278 | `ALL_ACTIVATIONS` is the src/index.ts export block in the same order: 16 pairwise distinct entries covering every name |
| ActivationsBuild.Eval | build/src/index.js:10-259 | the compiled slopes of BinaryStep, Logistic, SQNL, ArcTan, SoftSign, RELU, LeakyRELU and SoftPlus lie in [0, 1]; the values of BinaryStep, Logistic, SQNL and SoftSign in [-1, 1] |
| ActivationsBuild.EvalAgreesWithSource | build/src/index.js:64-93 | the compiled catalog and src/index.ts differ for exactly one entry, flag and interval: the SQNL slope on (-2, 0) |
| ActivationsBuild.PiecewiseEntries | build/src/index.js:18-244 | compiled BinaryStep is 1 for x >= 0 and 0 below, with slope 0; RELU is never negative and is x for x > 0; the LeakyRELU slope is 0.01 for x <= 0; Sinc is 1 with slope 0 at exactly 0 |

## Left out

- The `Math` functions are not defined. exp, tanh, atan, asinh, log, sin, cos and `** (1 / 2)` / `Math.pow(…, 1 / 2)` are foreign floating-point code. They are fields of a `MathLib` record that the caller supplies.
- No analytic fact about the `Math` functions is used or proved, such as tanh being odd, Logistic being monotone, or a bound on GAUSSIAN. Only e^x > 0 and the positivity of square roots of positive numbers are assumed.
- Whether each slope is the calculus derivative of its value is not stated. Doing so needs limits, which the model does not have.
- IEEE-754 behaviour is not modelled:
  - rounding, NaN and ±Infinity propagation, and -0 (which passes `x === 0`)
  - the `undefined` that the `src/index.ts` SQNL slope returns for NaN
  - The model works over exact reals, and 0.01 is the exact real 0.01.
- The `derivative = false` default is not modelled. `derivative` is an explicit `bool`.
- The test suites are not part of this model: random sampling, `closeTo` tolerance, and the namespace import.
- The type declarations in build/src/index.d.ts are not part of this model.
- Activations.Sinusiod is stated only away from 0 and only in terms of Sinc, because the sine and cosine are library calls with no assumed properties.
- Activations.GAUSSIAN states only the signs. Its value equals e^-(x^2) only under the product hypothesis of `GAUSSIANClosedForm`, because the library's exp is not otherwise constrained.
- Activations.ArSinH, Activations.BentIdentity and Activations.SiLU state only signs and bounds that follow from positivity of exp and the square root. Their values are not otherwise constrained.
