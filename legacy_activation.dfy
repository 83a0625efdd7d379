/** The older enum math.ActivationFunction. Its LINEAR, RELU, LEAKY_RELU,
    SIGMOID and TANH variants run the same loops as the activation classes, so
    they dispatch to those methods; SOFTMAX differs in that its apply stops the
    program when a quotient is not a number, which is an `Err` outcome here. */
module LegacyActivation {
  import opened Maths
  import opened Outcomes
  import opened Activation

  datatype Variant = LINEAR | RELU | LEAKY_RELU | SIGMOID | TANH | SOFTMAX

  /** The class each variant computes the same function as. */
  function ClassOf(v: Variant): ActivationFunction
  {
    match v
    case LINEAR => LinearActivation
    case RELU => ReLUActivation
    case LEAKY_RELU => LeakyReLUActivation
    case SIGMOID => SigmoidActivation
    case TANH => TanhActivation
    case SOFTMAX => SoftmaxActivation
  }

  /** SOFTMAX.apply. Under exact arithmetic the only way a quotient can fail
      to be a number is a zero divisor, so a zero eSum of a non-empty input is
      the failure outcome (the program exit of the source). */
  function SoftmaxOutcome(exp: real -> real, x: seq<real>): Result<seq<real>>
    requires ExpPositive(exp)
  {
    if |x| > 0 && ExpSum(exp, x) == 0.0 then Err(NotANumber) else Ok(SoftmaxApplied(exp, x))
  }

  function ApplyOutcome(v: Variant, math: Transcendentals, x: seq<real>): Result<seq<real>>
    requires Lawful(math)
  {
    if v == SOFTMAX then SoftmaxOutcome(math.exp, x) else Ok(Activate(ClassOf(v), math, x))
  }

  /** SOFTMAX.derive calls SOFTMAX.apply, so it fails exactly when apply does. */
  function DeriveOutcome(v: Variant, math: Transcendentals, x: seq<real>): Result<seq<real>>
    requires Lawful(math)
  {
    if v == SOFTMAX then
      match SoftmaxOutcome(math.exp, x)
      case Err(e) => Err(e)
      case Ok(s) => Ok(Flatten(Jacobian(s)))
    else Ok(Derivative(ClassOf(v), math, x))
  }

  /** SOFTMAX.apply: the exponentiating pass, then the division pass with its
      not-a-number check on each quotient. */
  method SoftmaxApply(exp: real -> real, x: seq<real>) returns (r: Result<seq<real>>)
    requires ExpPositive(exp)
    ensures r == SoftmaxOutcome(exp, x)
  {
    var result, eSum := ExponentiatePass(exp, x);
    for i := 0 to |x|
      invariant i > 0 ==> eSum != 0.0
      invariant forall k :: 0 <= k < i ==> result[k] == exp(x[k]) / eSum
      invariant forall k :: i <= k < |x| ==> result[k] == exp(x[k])
    {
      if eSum == 0.0 {
        return Err(NotANumber);
      }
      result[i] := result[i] / eSum;
    }
    assert result[..] == SoftmaxApplied(exp, x);
    r := Ok(result[..]);
  }

  method Apply(v: Variant, math: Transcendentals, x: seq<real>) returns (r: Result<seq<real>>)
    requires Lawful(math)
    ensures r == ApplyOutcome(v, math, x)
  {
    if v == SOFTMAX {
      r := SoftmaxApply(math.exp, x);
    } else {
      var a := Activation.Apply(ClassOf(v), math, x);
      r := Ok(a);
    }
  }

  method Derive(v: Variant, math: Transcendentals, x: seq<real>) returns (r: Result<seq<real>>)
    requires Lawful(math)
    ensures r == DeriveOutcome(v, math, x)
  {
    if v == SOFTMAX {
      var s := SoftmaxApply(math.exp, x);
      if s.Err? {
        return Err(s.error);
      }
      var d := FlattenedJacobian(s.value);
      r := Ok(d);
    } else {
      var d := Activation.Derive(ClassOf(v), math, x);
      r := Ok(d);
    }
  }

  /** With exp > 0 the not-a-number exit is unreachable: every variant's apply
      and derive succeed and agree with the matching class, SOFTMAX included. */
  lemma NeverFails(v: Variant, math: Transcendentals, x: seq<real>)
    requires Lawful(math)
    ensures ApplyOutcome(v, math, x) == Ok(Activate(ClassOf(v), math, x))
    ensures DeriveOutcome(v, math, x) == Ok(Derivative(ClassOf(v), math, x))
  {
    ExpSumPositive(math.exp, x);
  }

  /** LEAKY_RELU: x for positive x and 0.01 x otherwise, with derivative 1 or
      0.01, 1 exactly where x > 0. */
  lemma LeakyReLUVariant(math: Transcendentals, x: seq<real>)
    requires Lawful(math)
    ensures ApplyOutcome(LEAKY_RELU, math, x).Ok? && DeriveOutcome(LEAKY_RELU, math, x).Ok?
    ensures var a := ApplyOutcome(LEAKY_RELU, math, x).value;
      var d := DeriveOutcome(LEAKY_RELU, math, x).value;
      |a| == |d| == |x| &&
      (forall i :: 0 <= i < |x| ==> a[i] == (if x[i] > 0.0 then x[i] else 0.01 * x[i])) &&
      (forall i :: 0 <= i < |x| ==> (d[i] == 1.0 <==> x[i] > 0.0) && (d[i] == 0.01 <==> x[i] <= 0.0)) &&
      (forall i :: 0 <= i < |x| ==> a[i] == x[i] * d[i])
  {
    LeakyReLUProperties(x);
  }
}
