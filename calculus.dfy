/** The static helpers of math/Calculus.java: scalar activation functions and
    their derivatives, and the two in-place array maps driven by the five-case
    `Function` enum. */
module Calculus {
  import opened Maths

  /** Calculus's `Function` enum (its file is not shown; its five cases are the
      ones the switch statements name). */
  datatype Function = Linear | Sigmoid | Tanh | LeakyReLU | ReLU

  function SigmoidOf(exp: real -> real, d: real): real
    requires ExpPositive(exp)
  {
    1.0 / (1.0 + exp(-d))
  }

  function SigmoidDerivative(exp: real -> real, d: real): real
    requires ExpPositive(exp)
  {
    SigmoidOf(exp, d) * (1.0 - SigmoidOf(exp, d))
  }

  function TanhOf(tanh: real -> real, d: real): real
  {
    tanh(d)
  }

  /** 1 - Math.pow(Math.tanh(d), 2) */
  function TanhDerivative(tanh: real -> real, d: real): real
  {
    1.0 - tanh(d) * tanh(d)
  }

  function LeakyReLUOf(d: real): real
  {
    if d > 0.0 then d else d * 0.01
  }

  function LeakyReLUDerivative(d: real): real
  {
    if d > 0.0 then 1.0 else 0.01
  }

  /** The code returns 0 for non-positive inputs (its doc comment, which speaks of
      d*0.01, describes the leaky variant instead). */
  function ReLUOf(d: real): real
  {
    if d > 0.0 then d else 0.0
  }

  /** 0 at d == 0, as the code's comment says (its @return line says 0.01). */
  function ReLUDerivative(d: real): real
  {
    if d > 0.0 then 1.0 else 0.0
  }

  /** The value one loop step of applyFunction stores for `f`. */
  function Eval(f: Function, math: Transcendentals, d: real): real
    requires Lawful(math)
  {
    match f
    case Linear => d
    case Sigmoid => SigmoidOf(math.exp, d)
    case Tanh => TanhOf(math.tanh, d)
    case LeakyReLU => LeakyReLUOf(d)
    case ReLU => ReLUOf(d)
  }

  /** The value one loop step of applyDerivativeFunction stores for `f`. */
  function EvalDerivative(f: Function, math: Transcendentals, d: real): real
    requires Lawful(math)
  {
    match f
    case Linear => 1.0
    case Sigmoid => SigmoidDerivative(math.exp, d)
    case Tanh => TanhDerivative(math.tanh, d)
    case LeakyReLU => LeakyReLUDerivative(d)
    case ReLU => ReLUDerivative(d)
  }

  /** applyFunction: LINEAR returns at once; otherwise every element is replaced,
      in place, by f of its old value. */
  method ApplyFunction(a: array<real>, f: Function, math: Transcendentals)
    requires Lawful(math)
    modifies a
    ensures f == Linear ==> a[..] == old(a[..])
    ensures forall i :: 0 <= i < a.Length ==> a[i] == Eval(f, math, old(a[i]))
  {
    if f == Linear {
      return;
    }
    for i := 0 to a.Length
      invariant forall k :: 0 <= k < i ==> a[k] == Eval(f, math, old(a[k]))
      invariant forall k :: i <= k < a.Length ==> a[k] == old(a[k])
    {
      a[i] := Eval(f, math, a[i]);
    }
  }

  /** applyDerivativeFunction: every element is replaced by f' of its old value. */
  method ApplyDerivativeFunction(a: array<real>, f: Function, math: Transcendentals)
    requires Lawful(math)
    modifies a
    ensures f == Linear ==> forall i :: 0 <= i < a.Length ==> a[i] == 1.0
    ensures forall i :: 0 <= i < a.Length ==> a[i] == EvalDerivative(f, math, old(a[i]))
  {
    for i := 0 to a.Length
      invariant forall k :: 0 <= k < i ==> a[k] == EvalDerivative(f, math, old(a[k]))
      invariant forall k :: i <= k < a.Length ==> a[k] == old(a[k])
    {
      a[i] := EvalDerivative(f, math, a[i]);
    }
  }

  /** With exp > 0, the sigmoid lies strictly between 0 and 1. */
  lemma SigmoidRange(exp: real -> real, d: real)
    requires ExpPositive(exp)
    ensures 0.0 < SigmoidOf(exp, d) < 1.0
  {
    var e := exp(-d);
    assert e > 0.0;
    assert 1.0 / (1.0 + e) < 1.0 by {
      assert 1.0 < 1.0 + e;
    }
  }

  /** sigmoidDerivative(d) = s(1 - s) with s in (0,1), hence in (0, 1/4]. */
  lemma SigmoidDerivativeRange(exp: real -> real, d: real)
    requires ExpPositive(exp)
    ensures 0.0 < SigmoidDerivative(exp, d) <= 0.25
  {
    SigmoidRange(exp, d);
    var s := SigmoidOf(exp, d);
    assert s * (1.0 - s) == 0.25 - (s - 0.5) * (s - 0.5);
  }

  /** With tanh in (-1, 1), 1 - tanh^2 lies in (0, 1]. */
  lemma TanhDerivativeRange(tanh: real -> real, d: real)
    requires TanhBounded(tanh)
    ensures 0.0 < TanhDerivative(tanh, d) <= 1.0
  {
    var t := tanh(d);
    assert -1.0 < t < 1.0;
    if t >= 0.0 {
      assert t * t <= t;
    } else {
      assert t * t <= -t;
    }
  }

  /** Both ReLU forms are their input scaled by their derivative, and the
      derivatives take only the two values the code writes. */
  lemma RectifiersAreScaledByDerivative(d: real)
    ensures ReLUOf(d) == d * ReLUDerivative(d)
    ensures LeakyReLUOf(d) == d * LeakyReLUDerivative(d)
    ensures ReLUDerivative(d) == 1.0 <==> d > 0.0
    ensures ReLUDerivative(d) == 0.0 <==> d <= 0.0
    ensures LeakyReLUDerivative(d) == 1.0 <==> d > 0.0
    ensures LeakyReLUDerivative(d) == 0.01 <==> d <= 0.0
  {
  }
}
