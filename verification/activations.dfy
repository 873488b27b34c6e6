/**
 Activation primitives of the reference LSTM: the two-branch logistic sigmoid
 and the hyperbolic tangent, over exact reals.

 The exponential and the hyperbolic tangent are library calls whose internals
 are not modelled. They enter as function values whose types carry the only
 facts the model relies on: the exponential is positive with exp(0) = 1, and
 tanh maps 0 to 0 and every real into the open interval (-1, 1).
 */
module Activations {

  /** The exponential, known only to be positive and to map 0 to 1. */
  type ExpFn = f: real -> real | (forall x: real :: PositiveAt(f, x)) && f(0.0) == 1.0
    witness (x: real) => 1.0

  /** The hyperbolic tangent, known only to map 0 to 0 and into (-1, 1). */
  type TanhFn = f: real -> real | (forall x: real :: OpenUnitAt(f, x)) && f(0.0) == 0.0
    witness (x: real) => 0.0

  // The range axioms are stated through these predicates so that the solver
  // instantiates them only where a proof names the argument.

  ghost predicate PositiveAt(f: real -> real, x: real) {
    f(x) > 0.0
  }

  ghost predicate OpenUnitAt(f: real -> real, x: real) {
    -1.0 < f(x) < 1.0
  }

  /** The two library functions the reference model calls. */
  datatype MathLib = MathLib(exp: ExpFn, tanh: TanhFn)

  function Abs(x: real): real {
    if x < 0.0 then -x else x
  }

  /** The exponential is additionally reciprocal: exp(-x) * exp(x) = 1. Only
      used to show that both branches of Sigmoid compute the same function.
      Stated through ReciprocalAt so that it is only instantiated on demand. */
  ghost predicate Reciprocal(exp: ExpFn) {
    forall x: real :: ReciprocalAt(exp, x)
  }

  ghost predicate ReciprocalAt(exp: ExpFn, x: real) {
    exp(-x) * exp(x) == 1.0
  }

  /** Logistic sigmoid, branching on the sign of x so that the exponential is
      only ever evaluated at a non-positive argument. */
  function Sigmoid(exp: ExpFn, x: real): (r: real)
    ensures 0.0 < r < 1.0
    ensures x == 0.0 ==> r == 0.5
  {
    if x >= 0.0 then
      assert PositiveAt(exp, -x);
      var z := exp(-x);
      FractionBounds(z);
      1.0 / (1.0 + z)
    else
      assert PositiveAt(exp, x);
      var z := exp(x);
      FractionBounds(z);
      z / (1.0 + z)
  }

  /** For positive z, both 1/(1+z) and z/(1+z) lie strictly between 0 and 1,
      and they add up to 1. */
  lemma FractionBounds(z: real)
    requires z > 0.0
    ensures 0.0 < 1.0 / (1.0 + z) < 1.0
    ensures 0.0 < z / (1.0 + z) < 1.0
    ensures 1.0 / (1.0 + z) + z / (1.0 + z) == 1.0
  {
  }

  /** Sigmoid is symmetric about 1/2: sigmoid(-x) = 1 - sigmoid(x). Each side
      evaluates the exponential at the same argument, so positivity and
      exp(0) = 1 are all that is needed. */
  lemma SigmoidSymmetry(exp: ExpFn, x: real)
    ensures Sigmoid(exp, -x) == 1.0 - Sigmoid(exp, x)
  {
    if x > 0.0 {
      assert PositiveAt(exp, -x);
      FractionBounds(exp(-x));
    } else if x < 0.0 {
      assert PositiveAt(exp, x);
      FractionBounds(exp(x));
    }
  }

  /** With a reciprocal exponential, Sigmoid agrees for every x with the
      textbook formula 1 / (1 + e^-x), stated here multiplied out. The
      positive branch is that formula already and the negative branch equals
      it, so the branch only changes how the value is computed, not which
      value it is. */
  lemma SigmoidIsLogistic(exp: ExpFn, x: real)
    requires Reciprocal(exp)
    ensures Sigmoid(exp, x) * (1.0 + exp(-x)) == 1.0
  {
    assert PositiveAt(exp, -x);
    if x < 0.0 {
      assert PositiveAt(exp, x) && ReciprocalAt(exp, x);
      ReciprocalFraction(exp(-x), exp(x));
    }
  }

  /** Cross-multiplication step: when y * z = 1, z/(1+z) is the reciprocal
      of 1+y. */
  lemma ReciprocalFraction(y: real, z: real)
    requires y > 0.0 && z > 0.0 && y * z == 1.0
    ensures z / (1.0 + z) * (1.0 + y) == 1.0
  {
  }

  /** Thin wrapper over the library tanh. */
  function Tanh(th: TanhFn, x: real): (r: real)
    ensures -1.0 < r < 1.0
    ensures x == 0.0 ==> r == 0.0
  {
    assert OpenUnitAt(th, x);
    th(x)
  }
}
