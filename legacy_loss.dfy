/** The older enum math.LossFunction: each variant's calculate (the same loops
    as the loss classes), its gradient with respect to the prediction, and the
    enum's batch calculate. */
module LegacyLoss {
  import opened Maths
  import opened Outcomes
  import Loss

  datatype Variant = MEAN_SQUARED_ERROR | MEAN_ABSOLUTE_ERROR | CROSS_ENTROPY_ERROR

  /** The loss class each variant computes the same function as. */
  function ClassOf(v: Variant): Loss.LossFunction
  {
    match v
    case MEAN_SQUARED_ERROR => Loss.MeanSquaredLoss
    case MEAN_ABSOLUTE_ERROR => Loss.MeanAbsoluteLoss
    case CROSS_ENTROPY_ERROR => Loss.CrossEntropyLoss
  }

  /** calculate(double[], double[]): the same loop as the variant's class, so
      a prediction shorter than the target throws. */
  method Calculate(v: Variant, log: real -> real, actual: seq<real>, predicted: seq<real>) returns (r: Result<real>)
    requires Loss.Measurable(ClassOf(v), actual)
    ensures |predicted| < |actual| ==> r == Err(IndexOutOfBounds)
    ensures |predicted| >= |actual| ==> r == Ok(Loss.LossOf(ClassOf(v), log, actual, predicted))
  {
    r := Loss.Calculate(ClassOf(v), log, actual, predicted);
  }

  /** The enum's calculate(double[][], double[][]): the class's batch mean. */
  method CalculateBatch(v: Variant, log: real -> real, actual: seq<seq<real>>, predicted: seq<seq<real>>)
    returns (r: Result<real>)
    requires |actual| > 0 && Loss.RowsMeasurable(ClassOf(v), actual)
    ensures !Loss.BatchShaped(actual, predicted) ==> r == Err(IndexOutOfBounds)
    ensures Loss.BatchShaped(actual, predicted) ==> r == Ok(Loss.BatchLossOf(ClassOf(v), log, actual, predicted))
  {
    r := Loss.CalculateBatch(ClassOf(v), log, actual, predicted);
  }

  /** Cross-entropy's gradient divides by p + epsilon, which must not vanish on
      the entries the loop reaches (a vanishing divisor has no real quotient). */
  predicate DivisorsNonZero(v: Variant, actual: seq<real>, predicted: seq<real>)
  {
    v.CROSS_ENTROPY_ERROR? ==> forall i :: 0 <= i < |actual| && i < |predicted| ==> predicted[i] + Loss.Epsilon != 0.0
  }

  predicate GradientDefined(v: Variant, actual: seq<real>, predicted: seq<real>)
  {
    |predicted| >= |actual| && DivisorsNonZero(v, actual, predicted)
  }

  function GradientEntry(v: Variant, a: real, p: real): real
    requires v.CROSS_ENTROPY_ERROR? ==> p + Loss.Epsilon != 0.0
  {
    match v
    case MEAN_SQUARED_ERROR => 2.0 * (p - a)
    case MEAN_ABSOLUTE_ERROR => if p > a then 1.0 else -1.0
    case CROSS_ENTROPY_ERROR => -a / (p + Loss.Epsilon)
  }

  function GradientOf(v: Variant, actual: seq<real>, predicted: seq<real>): seq<real>
    requires GradientDefined(v, actual, predicted)
  {
    seq(|actual|, i requires 0 <= i < |actual| => GradientEntry(v, actual[i], predicted[i]))
  }

  /** gradient(actual, predicted), one entry per target entry; the loop reads
      predicted[i] for every index of actual, so a shorter prediction throws
      ArrayIndexOutOfBoundsException. */
  method Gradient(v: Variant, actual: seq<real>, predicted: seq<real>) returns (r: Result<seq<real>>)
    requires DivisorsNonZero(v, actual, predicted)
    ensures |predicted| < |actual| ==> r == Err(IndexOutOfBounds)
    ensures |predicted| >= |actual| ==> r == Ok(GradientOf(v, actual, predicted))
  {
    var grad := new real[|actual|];
    for i := 0 to |actual|
      invariant i <= |predicted|
      invariant forall k :: 0 <= k < i ==> grad[k] == GradientEntry(v, actual[k], predicted[k])
    {
      if i >= |predicted| {
        return Err(IndexOutOfBounds);
      }
      match v
      case MEAN_SQUARED_ERROR =>
        grad[i] := 2.0 * (predicted[i] - actual[i]);
      case MEAN_ABSOLUTE_ERROR =>
        if predicted[i] > actual[i] {
          grad[i] := 1.0;
        } else {
          grad[i] := -1.0;
        }
      case CROSS_ENTROPY_ERROR =>
        grad[i] := -actual[i] / (predicted[i] + Loss.Epsilon);
    }
    assert grad[..] == GradientOf(v, actual, predicted);
    r := Ok(grad[..]);
  }

  /** The mean-squared gradient vanishes exactly where the prediction is right. */
  lemma MeanSquaredGradientZeroIff(actual: seq<real>, predicted: seq<real>)
    requires |predicted| >= |actual|
    ensures forall i :: 0 <= i < |actual| ==>
      (GradientOf(MEAN_SQUARED_ERROR, actual, predicted)[i] == 0.0 <==> predicted[i] == actual[i])
  {
  }

  /** The mean-absolute gradient is 1 where the prediction is above the target
      and -1 otherwise, ties included. */
  lemma MeanAbsoluteGradientSign(actual: seq<real>, predicted: seq<real>)
    requires |predicted| >= |actual|
    ensures forall i :: 0 <= i < |actual| ==>
      (GradientOf(MEAN_ABSOLUTE_ERROR, actual, predicted)[i] == 1.0 <==> predicted[i] > actual[i]) &&
      (GradientOf(MEAN_ABSOLUTE_ERROR, actual, predicted)[i] == -1.0 <==> predicted[i] <= actual[i])
  {
  }

  /** The cross-entropy gradient is 0 wherever the target is 0. */
  lemma CrossEntropyGradientZeroWhereTargetZero(actual: seq<real>, predicted: seq<real>)
    requires GradientDefined(CROSS_ENTROPY_ERROR, actual, predicted)
    ensures forall i :: 0 <= i < |actual| && actual[i] == 0.0 ==>
      GradientOf(CROSS_ENTROPY_ERROR, actual, predicted)[i] == 0.0
  {
  }
}
