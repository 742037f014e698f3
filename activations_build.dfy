/** The older compiled copy of the catalog, build/src/index.js. Its entries
    are those of src/index.ts expression for expression, except the SQNL
    slope; it also carries the `ALL_ACTIVATIONS` list. */
module ActivationsBuild {
  import opened Primitives
  import A = Activations
  import C = Catalog

  /** SQNL as compiled. The value branches are those of src/index.ts; the
      slope branches test x > 2 first and return 0 below -2, so the
      x >= -2 branch is live and gives 1 + x / 2 on [-2, 0). The slope is
      the tent max(0, 1 - |x| / 2). */
  function SQNL(x: real, derivative: bool): (r: real)
    ensures !derivative ==> r == A.SQNL(x, false)
    ensures derivative ==> r == Max(0.0, 1.0 - Abs(x) / 2.0)
    ensures derivative ==> 0.0 <= r <= 1.0
  {
    if !derivative then
      if x > 2.0 then 1.0
      else if x >= 0.0 then x - Square(x / 2.0)
      else if x >= -2.0 then x + Square(x / 2.0)
      else -1.0
    else
      if x > 2.0 then 0.0
      else if x >= 0.0 then 1.0 - x / 2.0
      else if x >= -2.0 then 1.0 + x / 2.0
      else 0.0
  }

  /** The two SQNL slopes agree at every x except on the open interval
      (-2, 0), where src/index.ts returns 0 and this copy 1 + x / 2 > 0. At
      x = -2 both give 0. */
  lemma SQNLSlopesDiffer(x: real)
    ensures SQNL(x, true) != A.SQNL(x, true) <==> -2.0 < x < 0.0
    ensures -2.0 < x < 0.0 ==> SQNL(x, true) == 1.0 + x / 2.0 > A.SQNL(x, true) == 0.0
  {
  }

  /** Unlike the slope of src/index.ts, this one is positive exactly where
      the SQNL value rises strictly, [-2, 2], up to the end points, and 0
      where the value is clamped to -1 or 1. */
  lemma SQNLSlopeFollowsValue(x: real)
    ensures SQNL(x, true) > 0.0 <==> -2.0 < x < 2.0
    ensures (x <= -2.0 ==> A.SQNL(x, false) == -1.0) && (x >= 2.0 ==> A.SQNL(x, false) == 1.0)
  {
  }

  /** `ALL_ACTIVATIONS`, in order. */
  const AllActivations: seq<C.Name> := [
    C.Identitiy, C.BinaryStep, C.Logistic, C.TANH, C.SQNL, C.ArcTan, C.ArSinH, C.SoftSign,
    C.RELU, C.LeakyRELU, C.SoftPlus, C.BentIdentity, C.SiLU, C.Sinusiod, C.Sinc, C.GAUSSIAN
  ]

  /** The list has sixteen pairwise distinct entries, names every export, and
      is the export block of src/index.ts in the same order. */
  lemma AllActivationsIsExportBlock()
    ensures AllActivations == C.Exports
    ensures |AllActivations| == 16
    ensures forall n: C.Name :: n in AllActivations
    ensures forall i, j :: 0 <= i < j < |AllActivations| ==> AllActivations[i] != AllActivations[j]
  {
    C.ExportsEnumerateNames();
  }

  /** Calls the compiled entry `n`. Every compiled slope except those of the
      library entries lies in [0, 1]. */
  function Eval(m: MathLib, n: C.Name, x: real, derivative: bool): (r: real)
    requires C.DividesByLibrary(n) ==> m.Valid()
    ensures derivative && n in {C.BinaryStep, C.Logistic, C.SQNL, C.ArcTan, C.SoftSign, C.RELU, C.LeakyRELU, C.SoftPlus}
      ==> 0.0 <= r <= 1.0
    ensures !derivative && n in {C.BinaryStep, C.Logistic, C.SQNL, C.SoftSign} ==> -1.0 <= r <= 1.0
  {
    if n == C.SQNL then SQNL(x, derivative) else C.Eval(m, n, x, derivative)
  }

  /** The compiled catalog and src/index.ts return different numbers for
      exactly one entry, one flag and one interval: the SQNL slope on
      (-2, 0). */
  lemma EvalAgreesWithSource(m: MathLib, n: C.Name, x: real, derivative: bool)
    requires C.DividesByLibrary(n) ==> m.Valid()
    ensures Eval(m, n, x, derivative) != C.Eval(m, n, x, derivative)
      <==> n == C.SQNL && derivative && -2.0 < x < 0.0
  {
  }

  /** The piecewise entries of the compiled copy keep the tie-breaks at 0:
      the step is 1 from 0 on with slope 0, the rectifier is never negative
      and is x right of 0, the leaky slope is 0.01 from 0 down, and Sinc is
      1 with slope 0 at exactly 0. */
  lemma PiecewiseEntries(m: MathLib, x: real)
    ensures Eval(m, C.BinaryStep, x, false) == (if x >= 0.0 then 1.0 else 0.0)
    ensures Eval(m, C.BinaryStep, x, true) == 0.0
    ensures Eval(m, C.RELU, x, false) >= 0.0
    ensures x > 0.0 ==> Eval(m, C.RELU, x, false) == x
    ensures x <= 0.0 ==> Eval(m, C.LeakyRELU, x, true) == 0.01
    ensures Eval(m, C.Sinc, 0.0, false) == 1.0 && Eval(m, C.Sinc, 0.0, true) == 0.0
  {
  }
}
