/** The catalog as a whole: the names src/index.ts exports, in the order of
    its export block, and one dispatch that evaluates any of them. */
module Catalog {
  import opened Primitives
  import A = Activations

  /** The sixteen exported activations, spelled as the source spells them. */
  datatype Name =
    | Identitiy | BinaryStep | Logistic | TANH | SQNL | ArcTan | ArSinH | SoftSign
    | RELU | LeakyRELU | SoftPlus | BentIdentity | SiLU | Sinusiod | Sinc | GAUSSIAN

  /** The export block, in order. */
  const Exports: seq<Name> := [
    Identitiy, BinaryStep, Logistic, TANH, SQNL, ArcTan, ArSinH, SoftSign,
    RELU, LeakyRELU, SoftPlus, BentIdentity, SiLU, Sinusiod, Sinc, GAUSSIAN
  ]

  /** The entries that divide by e^y or by (x^2 + 1)^(1/2), and so need the
      positivity facts of `MathLib.Valid`. */
  predicate DividesByLibrary(n: Name) {
    n in {Logistic, ArSinH, SoftPlus, BentIdentity, SiLU, GAUSSIAN}
  }

  /** Calls the entry `n` with `x` and `derivative`. Every slope the catalog
      computes without a library call, and the Logistic and SoftPlus slopes,
      lie in [0, 1]; the bounded values lie in [-1, 1]. */
  function Eval(m: MathLib, n: Name, x: real, derivative: bool): (r: real)
    requires DividesByLibrary(n) ==> m.Valid()
    ensures derivative && n in {BinaryStep, Logistic, SQNL, ArcTan, SoftSign, RELU, LeakyRELU, SoftPlus}
      ==> 0.0 <= r <= 1.0
    ensures !derivative && n in {BinaryStep, Logistic, SQNL, SoftSign} ==> -1.0 <= r <= 1.0
    ensures !derivative && n == RELU ==> r >= 0.0
    ensures n == Sinc && x == 0.0 ==> r == (if derivative then 0.0 else 1.0)
  {
    match n
    case Identitiy => A.Identitiy(x, derivative)
    case BinaryStep => A.BinaryStep(x, derivative)
    case Logistic => A.Logistic(m, x, derivative)
    case TANH => A.TANH(m, x, derivative)
    case SQNL => A.SQNL(x, derivative)
    case ArcTan => A.ArcTan(m, x, derivative)
    case ArSinH => A.ArSinH(m, x, derivative)
    case SoftSign => A.SoftSign(x, derivative)
    case RELU => A.RELU(x, derivative)
    case LeakyRELU => A.LeakyRELU(x, derivative)
    case SoftPlus => A.SoftPlus(m, x, derivative)
    case BentIdentity => A.BentIdentity(m, x, derivative)
    case SiLU => A.SiLU(m, x, derivative)
    case Sinusiod => A.Sinusiod(m, x, derivative)
    case Sinc => A.Sinc(m, x, derivative)
    case GAUSSIAN => A.GAUSSIAN(m, x, derivative)
  }

  /** Where `n` stands in the export block. */
  function Position(n: Name): (i: nat)
    ensures i < |Exports| && Exports[i] == n
  {
    match n
    case Identitiy => 0
    case BinaryStep => 1
    case Logistic => 2
    case TANH => 3
    case SQNL => 4
    case ArcTan => 5
    case ArSinH => 6
    case SoftSign => 7
    case RELU => 8
    case LeakyRELU => 9
    case SoftPlus => 10
    case BentIdentity => 11
    case SiLU => 12
    case Sinusiod => 13
    case Sinc => 14
    case GAUSSIAN => 15
  }

  /** The export block lists every name exactly once: sixteen entries, each
      at its own position. */
  lemma ExportsEnumerateNames()
    ensures |Exports| == 16
    ensures forall n: Name :: n in Exports
    ensures forall i :: 0 <= i < |Exports| ==> Position(Exports[i]) == i
    ensures forall i, j :: 0 <= i < j < |Exports| ==> Exports[i] != Exports[j]
  {
    forall n: Name
      ensures n in Exports
    {
      assert Exports[Position(n)] == n;
    }
  }
}
