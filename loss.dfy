/** The loss-function classes of math/loss: the interface LossFunction, with its
    default batch calculate, and its classes MeanSquaredLoss, MeanAbsoluteLoss
    and CrossEntropyLoss. A class's derive takes an activation function and
    handles only the combinations it implements; every other one is an
    `Err(Unsupported)` outcome. */
module Loss {
  import opened Maths
  import opened Outcomes
  import opened Calculus
  import opened Activation

  datatype LossFunction = MeanSquaredLoss | MeanAbsoluteLoss | CrossEntropyLoss

  /** The epsilon cross-entropy adds to every prediction before taking its log. */
  const Epsilon: real := 0.0000000001

  // ---------------------------------------------------------------------------
  // What calculate computes

  function SquaredTerms(actual: seq<real>, predicted: seq<real>): seq<real>
    requires |predicted| >= |actual|
  {
    seq(|actual|, i requires 0 <= i < |actual| => (actual[i] - predicted[i]) * (actual[i] - predicted[i]))
  }

  function AbsoluteTerms(actual: seq<real>, predicted: seq<real>): seq<real>
    requires |predicted| >= |actual|
  {
    seq(|actual|, i requires 0 <= i < |actual| => Abs(actual[i] - predicted[i]))
  }

  function LogTerms(log: real -> real, actual: seq<real>, predicted: seq<real>): seq<real>
    requires |predicted| >= |actual|
  {
    seq(|actual|, i requires 0 <= i < |actual| => actual[i] * log(predicted[i] + Epsilon))
  }

  /** The single-sample loss; the two means divide by actual.length, so they
      need a non-empty sample (the source yields 0/0 otherwise). */
  predicate CalculateDefined(loss: LossFunction, actual: seq<real>, predicted: seq<real>)
  {
    |predicted| >= |actual| && Measurable(loss, actual)
  }

  function LossOf(loss: LossFunction, log: real -> real, actual: seq<real>, predicted: seq<real>): real
    requires CalculateDefined(loss, actual, predicted)
  {
    match loss
    case MeanSquaredLoss => Sum(SquaredTerms(actual, predicted)) / |actual| as real
    case MeanAbsoluteLoss => Sum(AbsoluteTerms(actual, predicted)) / |actual| as real
    case CrossEntropyLoss => -Sum(LogTerms(log, actual, predicted))
  }

  /** The terms of calculate's accumulator loop. */
  function Terms(loss: LossFunction, log: real -> real, actual: seq<real>, predicted: seq<real>): seq<real>
    requires |predicted| >= |actual|
  {
    match loss
    case MeanSquaredLoss => SquaredTerms(actual, predicted)
    case MeanAbsoluteLoss => AbsoluteTerms(actual, predicted)
    case CrossEntropyLoss => LogTerms(log, actual, predicted)
  }

  /** The two means divide by actual.length, so they need a non-empty target
      (the source yields 0/0 otherwise). */
  predicate Measurable(loss: LossFunction, actual: seq<real>)
  {
    loss.CrossEntropyLoss? || |actual| > 0
  }

  /** calculate(double[], double[]): the accumulator loop, then the division by
      actual.length (the means) or the negation (cross-entropy). The loop reads
      predicted[i] for every index of actual, so a shorter prediction throws
      ArrayIndexOutOfBoundsException. */
  method Calculate(loss: LossFunction, log: real -> real, actual: seq<real>, predicted: seq<real>) returns (r: Result<real>)
    requires Measurable(loss, actual)
    ensures |predicted| < |actual| ==> r == Err(IndexOutOfBounds)
    ensures |predicted| >= |actual| ==> r == Ok(LossOf(loss, log, actual, predicted))
  {
    ghost var n := if |predicted| < |actual| then |predicted| else |actual|;
    ghost var terms := Terms(loss, log, actual[..n], predicted);
    var acc := 0.0;
    for i := 0 to |actual|
      invariant i <= |predicted|
      invariant acc == Sum(terms[..i])
    {
      if i >= |predicted| {
        return Err(IndexOutOfBounds);
      }
      PrefixSumStep(terms, i);
      TermAt(loss, log, actual[..n], predicted, i);
      acc := AddTerm(loss, log, acc, actual[i], predicted[i]);
    }
    assert actual[..n] == actual;
    assert terms[..|actual|] == terms;
    if loss.CrossEntropyLoss? {
      r := Ok(-acc);
    } else {
      r := Ok(acc / |actual| as real);
    }
  }

  /** Term i of the accumulator loop, for one pair of entries. */
  function TermOf(loss: LossFunction, log: real -> real, a: real, p: real): real
  {
    match loss
    case MeanSquaredLoss => (a - p) * (a - p)
    case MeanAbsoluteLoss => Abs(a - p)
    case CrossEntropyLoss => a * log(p + Epsilon)
  }

  lemma TermAt(loss: LossFunction, log: real -> real, actual: seq<real>, predicted: seq<real>, i: nat)
    requires |predicted| >= |actual| && i < |actual|
    ensures Terms(loss, log, actual, predicted)[i] == TermOf(loss, log, actual[i], predicted[i])
  {
  }

  /** One pass of the accumulator loop: the class's own term added to acc. */
  method AddTerm(loss: LossFunction, log: real -> real, acc: real, a: real, p: real) returns (sum: real)
    ensures sum == acc + TermOf(loss, log, a, p)
  {
    match loss
    case MeanSquaredLoss =>
      var d := a - p;
      sum := acc + d * d;
    case MeanAbsoluteLoss =>
      sum := acc + Abs(a - p);
    case CrossEntropyLoss =>
      sum := acc + a * log(p + Epsilon);
  }

  // ---------------------------------------------------------------------------
  // The batch calculate of the interface

  predicate BatchDefined(loss: LossFunction, actual: seq<seq<real>>, predicted: seq<seq<real>>)
  {
    |actual| > 0 && |predicted| >= |actual| &&
    forall i :: 0 <= i < |actual| ==> CalculateDefined(loss, actual[i], predicted[i])
  }

  function SampleLosses(loss: LossFunction, log: real -> real, actual: seq<seq<real>>, predicted: seq<seq<real>>): seq<real>
    requires |predicted| >= |actual|
    requires forall i :: 0 <= i < |actual| ==> CalculateDefined(loss, actual[i], predicted[i])
  {
    seq(|actual|, i requires 0 <= i < |actual| => LossOf(loss, log, actual[i], predicted[i]))
  }

  /** The mean of the per-sample losses over the first actual.length rows. */
  function BatchLossOf(loss: LossFunction, log: real -> real, actual: seq<seq<real>>, predicted: seq<seq<real>>): real
    requires BatchDefined(loss, actual, predicted)
  {
    Sum(SampleLosses(loss, log, actual, predicted)) / |actual| as real
  }

  /** Every target row has a prediction row at least as long. */
  predicate BatchShaped(actual: seq<seq<real>>, predicted: seq<seq<real>>)
  {
    |predicted| >= |actual| && forall i :: 0 <= i < |actual| ==> |predicted[i]| >= |actual[i]|
  }

  /** Every target row can be measured by the class. */
  predicate RowsMeasurable(loss: LossFunction, actual: seq<seq<real>>)
  {
    forall i :: 0 <= i < |actual| ==> Measurable(loss, actual[i])
  }

  /** One more row adds its own loss to the sum over the rows before it. */
  lemma SampleLossStep(loss: LossFunction, log: real -> real, actual: seq<seq<real>>, predicted: seq<seq<real>>, i: nat)
    requires i < |actual| && i < |predicted|
    requires forall k :: 0 <= k <= i ==> CalculateDefined(loss, actual[k], predicted[k])
    ensures Sum(SampleLosses(loss, log, actual[..i + 1], predicted))
         == Sum(SampleLosses(loss, log, actual[..i], predicted)) + LossOf(loss, log, actual[i], predicted[i])
  {
    var next := SampleLosses(loss, log, actual[..i + 1], predicted);
    assert next[..i] == SampleLosses(loss, log, actual[..i], predicted);
    PrefixSumStep(next, i);
    assert next[..i + 1] == next;
  }

  /** The default calculate(double[][], double[][]) of the interface: the
      per-sample calculate of every target row, summed, over actual.length. A
      missing or short prediction row throws ArrayIndexOutOfBoundsException. */
  method CalculateBatch(loss: LossFunction, log: real -> real, actual: seq<seq<real>>, predicted: seq<seq<real>>)
    returns (r: Result<real>)
    requires |actual| > 0 && RowsMeasurable(loss, actual)
    ensures !BatchShaped(actual, predicted) ==> r == Err(IndexOutOfBounds)
    ensures BatchShaped(actual, predicted) ==> r == Ok(BatchLossOf(loss, log, actual, predicted))
  {
    var acc := 0.0;
    for i := 0 to |actual|
      invariant i <= |predicted| && forall k :: 0 <= k < i ==> |predicted[k]| >= |actual[k]|
      invariant acc == Sum(SampleLosses(loss, log, actual[..i], predicted))
    {
      if i >= |predicted| {
        return Err(IndexOutOfBounds);
      }
      var l := Calculate(loss, log, actual[i], predicted[i]);
      if l.Err? {
        return Err(IndexOutOfBounds);
      }
      SampleLossStep(loss, log, actual, predicted, i);
      acc := acc + l.value;
    }
    assert actual[..|actual|] == actual;
    r := Ok(acc / |actual| as real);
  }

  // ---------------------------------------------------------------------------
  // derive

  /** The combinations a class's derive implements. */
  predicate Supported(loss: LossFunction, f: ActivationFunction)
  {
    (loss.MeanSquaredLoss? && (f.SigmoidActivation? || f.TanhActivation?)) ||
    (loss.CrossEntropyLoss? && f.SoftmaxActivation?)
  }

  /** 2 (g(z) - a) g'(z), the mean-squared error's gradient through g. */
  function ChainedSquared(activated: seq<real>, derived: seq<real>, actual: seq<real>): seq<real>
    requires |activated| >= |actual| && |derived| >= |actual|
  {
    seq(|actual|, i requires 0 <= i < |actual| => 2.0 * (activated[i] - actual[i]) * derived[i])
  }

  /** softmax(z) - a, the cross-entropy's gradient through softmax. */
  function Residual(activated: seq<real>, actual: seq<real>): seq<real>
    requires |activated| >= |actual|
  {
    seq(|actual|, i requires 0 <= i < |actual| => activated[i] - actual[i])
  }

  /** derive(activation, actual, preactivation). A supported combination reads
      one preactivation per target entry, so a shorter preactivation fails with
      an index error. */
  function DerivedOf(loss: LossFunction, f: ActivationFunction, math: Transcendentals,
                     actual: seq<real>, preactivation: seq<real>): Result<seq<real>>
    requires Lawful(math)
  {
    if !Supported(loss, f) then Err(Unsupported)
    else if |preactivation| < |actual| then Err(IndexOutOfBounds)
    else if loss.MeanSquaredLoss? then
      Ok(ChainedSquared(Activate(f, math, preactivation), Derivative(f, math, preactivation), actual))
    else Ok(Residual(Activate(f, math, preactivation), actual))
  }

  /** The loop of MeanSquaredLoss.derive's two branches over the activated and
      derived preactivation. */
  method ChainSquared(activated: seq<real>, derived: seq<real>, actual: seq<real>) returns (r: Result<seq<real>>)
    requires |activated| == |derived|
    ensures r == if |activated| < |actual| then Err(IndexOutOfBounds) else Ok(ChainedSquared(activated, derived, actual))
  {
    var result := new real[|actual|];
    for i := 0 to |actual|
      invariant i <= |activated|
      invariant forall k :: 0 <= k < i ==> result[k] == 2.0 * (activated[k] - actual[k]) * derived[k]
    {
      if i >= |activated| {
        return Err(IndexOutOfBounds);
      }
      result[i] := 2.0 * (activated[i] - actual[i]) * derived[i];
    }
    assert |activated| >= |actual|;
    forall k | 0 <= k < |actual| ensures result[k] == ChainedSquared(activated, derived, actual)[k] {
    }
    assert result[..] == ChainedSquared(activated, derived, actual);
    r := Ok(result[..]);
  }

  /** The loop of CrossEntropyLoss.derive's softmax branch. */
  method SubtractTarget(activated: seq<real>, actual: seq<real>) returns (r: Result<seq<real>>)
    ensures r == if |activated| < |actual| then Err(IndexOutOfBounds) else Ok(Residual(activated, actual))
  {
    var result := new real[|actual|];
    for i := 0 to |actual|
      invariant i <= |activated|
      invariant forall k :: 0 <= k < i ==> result[k] == activated[k] - actual[k]
    {
      if i >= |activated| {
        return Err(IndexOutOfBounds);
      }
      result[i] := activated[i] - actual[i];
    }
    assert result[..] == Residual(activated, actual);
    r := Ok(result[..]);
  }

  /** derive, dispatched on the loss class and then on the activation's class. */
  method Derive(loss: LossFunction, f: ActivationFunction, math: Transcendentals,
                actual: seq<real>, preactivation: seq<real>) returns (r: Result<seq<real>>)
    requires Lawful(math)
    ensures r == DerivedOf(loss, f, math, actual, preactivation)
  {
    match loss
    case MeanSquaredLoss =>
      if f.SigmoidActivation? {
        var activated := SigmoidApply(math.exp, preactivation);
        var derived := SigmoidDerive(math.exp, preactivation);
        r := ChainSquared(activated, derived, actual);
      } else if f.TanhActivation? {
        var activated := TanhApply(math.tanh, preactivation);
        var derived := TanhDerive(math.tanh, preactivation);
        r := ChainSquared(activated, derived, actual);
      } else {
        r := Err(Unsupported);
      }
    case MeanAbsoluteLoss =>
      r := Err(Unsupported);
    case CrossEntropyLoss =>
      if f.SoftmaxActivation? {
        var activated := SoftmaxApply(math.exp, preactivation);
        r := SubtractTarget(activated, actual);
      } else {
        r := Err(Unsupported);
      }
  }

  // ---------------------------------------------------------------------------
  // Properties

  /** derive fails as unsupported exactly outside the implemented combinations;
      inside them it succeeds whenever the preactivation is long enough, with
      one entry per target entry. Mean absolute loss never derives. */
  lemma DeriveOutcomes(loss: LossFunction, f: ActivationFunction, math: Transcendentals,
                       actual: seq<real>, preactivation: seq<real>)
    requires Lawful(math)
    ensures DerivedOf(loss, f, math, actual, preactivation) == Err(Unsupported) <==> !Supported(loss, f)
    ensures Supported(loss, f) && |preactivation| >= |actual| ==>
      DerivedOf(loss, f, math, actual, preactivation).Ok? &&
      |DerivedOf(loss, f, math, actual, preactivation).value| == |actual|
    ensures loss.MeanAbsoluteLoss? ==> DerivedOf(loss, f, math, actual, preactivation) == Err(Unsupported)
  {
  }

  /** Mean squared error through sigmoid is 2 (s - a) s (1 - s), and through
      tanh 2 (t - a) (1 - t^2), with s = sigmoid(z) and t = tanh(z). */
  lemma MeanSquaredDerivedFormulas(math: Transcendentals, actual: seq<real>, z: seq<real>)
    requires Lawful(math)
    requires |z| >= |actual|
    ensures var d := DerivedOf(MeanSquaredLoss, SigmoidActivation, math, actual, z);
      d.Ok? && |d.value| == |actual| &&
      forall i :: 0 <= i < |actual| ==>
        d.value[i] == 2.0 * (SigmoidOf(math.exp, z[i]) - actual[i]) * (SigmoidOf(math.exp, z[i]) * (1.0 - SigmoidOf(math.exp, z[i])))
    ensures var d := DerivedOf(MeanSquaredLoss, TanhActivation, math, actual, z);
      d.Ok? && |d.value| == |actual| &&
      forall i :: 0 <= i < |actual| ==>
        d.value[i] == 2.0 * (math.tanh(z[i]) - actual[i]) * (1.0 - math.tanh(z[i]) * math.tanh(z[i]))
  {
  }

  /** Cross-entropy through softmax: when the target sums to 1 and the
      preactivation has the target's length, the gradient sums to 0. */
  lemma CrossEntropyGradientSumsToZero(math: Transcendentals, actual: seq<real>, z: seq<real>)
    requires Lawful(math)
    requires |z| == |actual| > 0
    requires Sum(actual) == 1.0
    ensures DerivedOf(CrossEntropyLoss, SoftmaxActivation, math, actual, z).Ok?
    ensures Sum(DerivedOf(CrossEntropyLoss, SoftmaxActivation, math, actual, z).value) == 0.0
  {
    var s := SoftmaxApplied(math.exp, z);
    SoftmaxIsDistribution(math.exp, z);
    SumDifference(s, actual, Residual(s, actual));
  }

  /** Mean squared error is non-negative and zero exactly when the prediction
      matches the target on every target entry. */
  lemma MeanSquaredZeroIff(log: real -> real, actual: seq<real>, predicted: seq<real>)
    requires CalculateDefined(MeanSquaredLoss, actual, predicted)
    ensures LossOf(MeanSquaredLoss, log, actual, predicted) >= 0.0
    ensures LossOf(MeanSquaredLoss, log, actual, predicted) == 0.0 <==>
      forall i :: 0 <= i < |actual| ==> actual[i] == predicted[i]
  {
    var t := SquaredTerms(actual, predicted);
    forall i | 0 <= i < |actual| ensures t[i] >= 0.0 && (t[i] == 0.0 <==> actual[i] == predicted[i]) {
      SquareFacts(t[i], actual[i] - predicted[i]);
    }
    SumNonNegative(t);
    SumZeroIff(t);
  }

  /** Mean absolute error is non-negative, zero exactly when the prediction
      matches the target and symmetric in target and prediction. */
  lemma MeanAbsoluteZeroIff(log: real -> real, actual: seq<real>, predicted: seq<real>)
    requires CalculateDefined(MeanAbsoluteLoss, actual, predicted)
    ensures LossOf(MeanAbsoluteLoss, log, actual, predicted) >= 0.0
    ensures LossOf(MeanAbsoluteLoss, log, actual, predicted) == 0.0 <==>
      forall i :: 0 <= i < |actual| ==> actual[i] == predicted[i]
  {
    var t := AbsoluteTerms(actual, predicted);
    SumNonNegative(t);
    SumZeroIff(t);
    assert forall i :: 0 <= i < |actual| ==> (t[i] == 0.0 <==> actual[i] == predicted[i]);
  }

  lemma MeanAbsoluteSymmetric(log: real -> real, actual: seq<real>, predicted: seq<real>)
    requires |actual| == |predicted| > 0
    ensures LossOf(MeanAbsoluteLoss, log, actual, predicted) == LossOf(MeanAbsoluteLoss, log, predicted, actual)
  {
    assert AbsoluteTerms(actual, predicted) == AbsoluteTerms(predicted, actual);
  }

  /** Cross-entropy of a one-hot target at k is -log(p_k + epsilon). */
  lemma CrossEntropyOneHot(log: real -> real, actual: seq<real>, predicted: seq<real>, k: nat)
    requires |predicted| >= |actual| && k < |actual|
    requires forall i :: 0 <= i < |actual| ==> actual[i] == (if i == k then 1.0 else 0.0)
    ensures LossOf(CrossEntropyLoss, log, actual, predicted) == -log(predicted[k] + Epsilon)
  {
    SumOfIndicator(LogTerms(log, actual, predicted), k, log(predicted[k] + Epsilon));
  }

  /** The batch loss is non-negative when every per-sample loss is. */
  lemma BatchLossNonNegative(loss: LossFunction, log: real -> real, actual: seq<seq<real>>, predicted: seq<seq<real>>)
    requires BatchDefined(loss, actual, predicted)
    requires forall i :: 0 <= i < |actual| ==> LossOf(loss, log, actual[i], predicted[i]) >= 0.0
    ensures BatchLossOf(loss, log, actual, predicted) >= 0.0
  {
    SumNonNegative(SampleLosses(loss, log, actual, predicted));
  }

  /** The targets 0..9 against the predictions 9..0: mean squared error 33 and
      mean absolute error 5. */
  lemma TenValueExample(log: real -> real)
    ensures var actual := [0.0, 1.0, 2.0, 3.0, 4.0, 5.0, 6.0, 7.0, 8.0, 9.0];
      var predicted := [9.0, 8.0, 7.0, 6.0, 5.0, 4.0, 3.0, 2.0, 1.0, 0.0];
      LossOf(MeanSquaredLoss, log, actual, predicted) == 33.0 &&
      LossOf(MeanAbsoluteLoss, log, actual, predicted) == 5.0
  {
    var actual := [0.0, 1.0, 2.0, 3.0, 4.0, 5.0, 6.0, 7.0, 8.0, 9.0];
    var predicted := [9.0, 8.0, 7.0, 6.0, 5.0, 4.0, 3.0, 2.0, 1.0, 0.0];
    var sq := SquaredTerms(actual, predicted);
    assert sq == [81.0, 49.0, 25.0, 9.0, 1.0, 1.0, 9.0, 25.0, 49.0, 81.0];
    SumOfTen(sq);
    var ab := AbsoluteTerms(actual, predicted);
    assert ab == [9.0, 7.0, 5.0, 3.0, 1.0, 1.0, 3.0, 5.0, 7.0, 9.0];
    SumOfTen(ab);
  }

  lemma SumOfTen(s: seq<real>)
    requires |s| == 10
    ensures Sum(s) == s[0] + s[1] + s[2] + s[3] + s[4] + s[5] + s[6] + s[7] + s[8] + s[9]
  {
    assert s[..0] == [];
    PrefixSumStep(s, 0); PrefixSumStep(s, 1); PrefixSumStep(s, 2); PrefixSumStep(s, 3);
    PrefixSumStep(s, 4); PrefixSumStep(s, 5); PrefixSumStep(s, 6); PrefixSumStep(s, 7);
    PrefixSumStep(s, 8); PrefixSumStep(s, 9);
    assert s[..10] == s;
  }
}
