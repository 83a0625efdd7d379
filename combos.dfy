/** The enum math.ActivationLossCombos: the derivative of a loss with respect to
    the preactivation for the three pairs the project uses, built on the older
    activation enum. */
module Combos {
  import opened Maths
  import opened Outcomes
  import opened Activation
  import LegacyActivation
  import Loss

  datatype Combo = SOFTMAX_CEE | SIGMOID_MSE | TANH_MSE

  function LossOf(c: Combo): Loss.LossFunction
  {
    if c.SOFTMAX_CEE? then Loss.CrossEntropyLoss else Loss.MeanSquaredLoss
  }

  function ActivationOf(c: Combo): ActivationFunction
  {
    match c
    case SOFTMAX_CEE => SoftmaxActivation
    case SIGMOID_MSE => SigmoidActivation
    case TANH_MSE => TanhActivation
  }

  /** derivativeLossWRTPreActivation: softmax(z) - a; or 2 (g(z) - a) g'(z) for
      g sigmoid or tanh. SOFTMAX_CEE goes through the enum's SOFTMAX.apply, so
      it fails when that does; a preactivation shorter than the target fails
      with an index error. */
  function ComboOf(c: Combo, math: Transcendentals, actual: seq<real>, preactivation: seq<real>): Result<seq<real>>
    requires Lawful(math)
  {
    match c
    case SOFTMAX_CEE =>
      (match LegacyActivation.SoftmaxOutcome(math.exp, preactivation)
       case Err(e) => Err(e)
       case Ok(s) => if |s| < |actual| then Err(IndexOutOfBounds) else Ok(Loss.Residual(s, actual)))
    case _ =>
      var g := ActivationOf(c);
      if |preactivation| < |actual| then Err(IndexOutOfBounds)
      else Ok(Loss.ChainedSquared(Activate(g, math, preactivation), Derivative(g, math, preactivation), actual))
  }

  method DerivativeLossWRTPreActivation(c: Combo, math: Transcendentals, actual: seq<real>, preactivation: seq<real>)
    returns (r: Result<seq<real>>)
    requires Lawful(math)
    ensures r == ComboOf(c, math, actual, preactivation)
  {
    match c
    case SOFTMAX_CEE =>
      var activated := LegacyActivation.SoftmaxApply(math.exp, preactivation);
      if activated.Err? {
        return Err(activated.error);
      }
      r := Loss.SubtractTarget(activated.value, actual);
    case SIGMOID_MSE =>
      var activated := SigmoidApply(math.exp, preactivation);
      var derived := SigmoidDerive(math.exp, preactivation);
      r := Loss.ChainSquared(activated, derived, actual);
    case TANH_MSE =>
      var activated := TanhApply(math.tanh, preactivation);
      var derived := TanhDerive(math.tanh, preactivation);
      r := Loss.ChainSquared(activated, derived, actual);
  }

  /** Each combination computes what the matching branch of the loss class's
      derive computes, and the pairs are exactly the supported ones. */
  lemma AgreesWithLossClasses(c: Combo, math: Transcendentals, actual: seq<real>, preactivation: seq<real>)
    requires Lawful(math)
    ensures Loss.Supported(LossOf(c), ActivationOf(c))
    ensures ComboOf(c, math, actual, preactivation) == Loss.DerivedOf(LossOf(c), ActivationOf(c), math, actual, preactivation)
  {
    LegacyActivation.NeverFails(LegacyActivation.SOFTMAX, math, preactivation);
  }
}
