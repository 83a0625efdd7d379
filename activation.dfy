/** The activation-function classes of math/activation: the interface
    ActivationFunction with apply and derive over double[], and its classes
    LinearActivation, ReLUActivation, LeakyReLUActivation, SigmoidActivation,
    TanhActivation and SoftmaxActivation. The classes are stateless, so the
    interface is a datatype with one constructor per class; `Activate` and
    `Derivative` say what apply and derive compute, and the methods `Apply` and
    `Derive` run each class's loops. */
module Activation {
  import opened Maths
  import opened Calculus

  datatype ActivationFunction =
    | LinearActivation
    | ReLUActivation
    | LeakyReLUActivation
    | SigmoidActivation
    | TanhActivation
    | SoftmaxActivation

  /** The activations whose derivative is elementwise (all but softmax, whose
      derivative is a flattened n-by-n Jacobian). */
  predicate IsElementwise(f: ActivationFunction)
  {
    !f.SoftmaxActivation?
  }

  // ---------------------------------------------------------------------------
  // What each class computes

  function ReLUApplied(x: seq<real>): seq<real>
  {
    seq(|x|, i requires 0 <= i < |x| => ReLUOf(x[i]))
  }

  function ReLUDerived(x: seq<real>): seq<real>
  {
    seq(|x|, i requires 0 <= i < |x| => ReLUDerivative(x[i]))
  }

  function LeakyReLUApplied(x: seq<real>): seq<real>
  {
    seq(|x|, i requires 0 <= i < |x| => LeakyReLUOf(x[i]))
  }

  function LeakyReLUDerived(x: seq<real>): seq<real>
  {
    seq(|x|, i requires 0 <= i < |x| => LeakyReLUDerivative(x[i]))
  }

  function SigmoidApplied(exp: real -> real, x: seq<real>): seq<real>
    requires ExpPositive(exp)
  {
    seq(|x|, i requires 0 <= i < |x| => SigmoidOf(exp, x[i]))
  }

  function SigmoidDerived(exp: real -> real, x: seq<real>): seq<real>
    requires ExpPositive(exp)
  {
    seq(|x|, i requires 0 <= i < |x| => SigmoidDerivative(exp, x[i]))
  }

  function TanhApplied(tanh: real -> real, x: seq<real>): seq<real>
  {
    seq(|x|, i requires 0 <= i < |x| => TanhOf(tanh, x[i]))
  }

  function TanhDerived(tanh: real -> real, x: seq<real>): seq<real>
  {
    seq(|x|, i requires 0 <= i < |x| => TanhDerivative(tanh, x[i]))
  }

  function Exps(exp: real -> real, x: seq<real>): seq<real>
  {
    seq(|x|, i requires 0 <= i < |x| => exp(x[i]))
  }

  /** The normalising sum eSum of softmax. */
  function ExpSum(exp: real -> real, x: seq<real>): real
  {
    Sum(Exps(exp, x))
  }

  lemma ExpsPositive(exp: real -> real, x: seq<real>)
    requires ExpPositive(exp)
    ensures forall i :: 0 <= i < |x| ==> Exps(exp, x)[i] > 0.0
  {
    forall i | 0 <= i < |x| ensures Exps(exp, x)[i] > 0.0 {
      var v := x[i];
      assert exp(v) > 0.0;
      assert Exps(exp, x)[i] == exp(v);
    }
  }

  /** With exp > 0, eSum of a non-empty input is positive, so softmax never
      divides by zero. */
  lemma ExpSumPositive(exp: real -> real, x: seq<real>)
    requires ExpPositive(exp)
    ensures |x| > 0 ==> ExpSum(exp, x) > 0.0
  {
    ExpsPositive(exp, x);
    if |x| > 0 {
      SumPositive(Exps(exp, x));
    }
  }

  function SoftmaxApplied(exp: real -> real, x: seq<real>): seq<real>
    requires ExpPositive(exp)
  {
    ExpSumPositive(exp, x);
    seq(|x|, i requires 0 <= i < |x| => exp(x[i]) / ExpSum(exp, x))
  }

  /** Entry [i][j] of the softmax Jacobian built from the softmax outputs s. */
  function JacobianEntry(s: seq<real>, i: nat, j: nat): real
    requires i < |s| && j < |s|
  {
    if i == j then s[i] * (1.0 - s[j]) else s[i] * -s[j]
  }

  function Jacobian(s: seq<real>): seq<seq<real>>
  {
    seq(|s|, i requires 0 <= i < |s| => JacobianRow(s, i))
  }

  function JacobianRow(s: seq<real>, i: nat): seq<real>
    requires i < |s|
  {
    seq(|s|, j requires 0 <= j < |s| => JacobianEntry(s, i, j))
  }

  /** The rows laid end to end, as Arrays.stream(result).flatMapToDouble does. */
  function Flatten(rows: seq<seq<real>>): seq<real>
  {
    if |rows| == 0 then [] else rows[0] + Flatten(rows[1..])
  }

  function SoftmaxDerived(exp: real -> real, x: seq<real>): seq<real>
    requires ExpPositive(exp)
  {
    Flatten(Jacobian(SoftmaxApplied(exp, x)))
  }

  /** apply, dispatched on the class. */
  function Activate(f: ActivationFunction, math: Transcendentals, x: seq<real>): seq<real>
    requires Lawful(math)
  {
    match f
    case LinearActivation => x
    case ReLUActivation => ReLUApplied(x)
    case LeakyReLUActivation => LeakyReLUApplied(x)
    case SigmoidActivation => SigmoidApplied(math.exp, x)
    case TanhActivation => TanhApplied(math.tanh, x)
    case SoftmaxActivation => SoftmaxApplied(math.exp, x)
  }

  /** derive, dispatched on the class. */
  function Derivative(f: ActivationFunction, math: Transcendentals, x: seq<real>): seq<real>
    requires Lawful(math)
  {
    match f
    case LinearActivation => seq(|x|, i => 1.0)
    case ReLUActivation => ReLUDerived(x)
    case LeakyReLUActivation => LeakyReLUDerived(x)
    case SigmoidActivation => SigmoidDerived(math.exp, x)
    case TanhActivation => TanhDerived(math.tanh, x)
    case SoftmaxActivation => SoftmaxDerived(math.exp, x)
  }

  // ---------------------------------------------------------------------------
  // The classes' loops

  /** LinearActivation.apply: a fresh copy equal to the input. */
  function LinearApply(x: seq<real>): (r: seq<real>)
    ensures r == x
  {
    x[..]
  }

  /** LinearActivation.derive: a fresh array filled with ones. */
  function LinearDerive(x: seq<real>): (r: seq<real>)
    ensures |r| == |x| && forall i :: 0 <= i < |r| ==> r[i] == 1.0
  {
    seq(|x|, i => 1.0)
  }

  method ReLUApply(x: seq<real>) returns (r: seq<real>)
    ensures r == ReLUApplied(x)
  {
    var result := new real[|x|];
    for i := 0 to |x|
      invariant forall k :: 0 <= k < i ==> result[k] == ReLUOf(x[k])
    {
      result[i] := if x[i] > 0.0 then x[i] else 0.0;
    }
    r := result[..];
  }

  method ReLUDerive(x: seq<real>) returns (r: seq<real>)
    ensures r == ReLUDerived(x)
  {
    var result := new real[|x|];
    for i := 0 to |x|
      invariant forall k :: 0 <= k < i ==> result[k] == ReLUDerivative(x[k])
    {
      result[i] := if x[i] > 0.0 then 1.0 else 0.0;
    }
    r := result[..];
  }

  method LeakyReLUApply(x: seq<real>) returns (r: seq<real>)
    ensures r == LeakyReLUApplied(x)
  {
    var result := new real[|x|];
    for i := 0 to |x|
      invariant forall k :: 0 <= k < i ==> result[k] == LeakyReLUOf(x[k])
    {
      result[i] := if x[i] > 0.0 then x[i] else x[i] * 0.01;
    }
    r := result[..];
  }

  method LeakyReLUDerive(x: seq<real>) returns (r: seq<real>)
    ensures r == LeakyReLUDerived(x)
  {
    var result := new real[|x|];
    for i := 0 to |x|
      invariant forall k :: 0 <= k < i ==> result[k] == LeakyReLUDerivative(x[k])
    {
      result[i] := if x[i] > 0.0 then 1.0 else 0.01;
    }
    r := result[..];
  }

  method SigmoidApply(exp: real -> real, x: seq<real>) returns (r: seq<real>)
    requires ExpPositive(exp)
    ensures r == SigmoidApplied(exp, x)
  {
    var result := new real[|x|];
    for i := 0 to |x|
      invariant forall k :: 0 <= k < i ==> result[k] == SigmoidOf(exp, x[k])
    {
      result[i] := SigmoidOf(exp, x[i]);
    }
    r := result[..];
  }

  method SigmoidDerive(exp: real -> real, x: seq<real>) returns (r: seq<real>)
    requires ExpPositive(exp)
    ensures r == SigmoidDerived(exp, x)
  {
    var result := new real[|x|];
    for i := 0 to |x|
      invariant forall k :: 0 <= k < i ==> result[k] == SigmoidDerivative(exp, x[k])
    {
      var sigmoid := SigmoidOf(exp, x[i]);
      result[i] := sigmoid * (1.0 - sigmoid);
    }
    r := result[..];
  }

  method TanhApply(tanh: real -> real, x: seq<real>) returns (r: seq<real>)
    ensures r == TanhApplied(tanh, x)
  {
    var result := new real[|x|];
    for i := 0 to |x|
      invariant forall k :: 0 <= k < i ==> result[k] == TanhOf(tanh, x[k])
    {
      result[i] := tanh(x[i]);
    }
    r := result[..];
  }

  method TanhDerive(tanh: real -> real, x: seq<real>) returns (r: seq<real>)
    ensures r == TanhDerived(tanh, x)
  {
    var result := new real[|x|];
    for i := 0 to |x|
      invariant forall k :: 0 <= k < i ==> result[k] == TanhDerivative(tanh, x[k])
    {
      var t := tanh(x[i]);
      result[i] := 1.0 - t * t;
    }
    r := result[..];
  }

  /** SoftmaxActivation.apply: a first pass stores exp(x[i]) and accumulates
      eSum, a second divides every entry by eSum in place. */
  method SoftmaxApply(exp: real -> real, x: seq<real>) returns (r: seq<real>)
    requires ExpPositive(exp)
    ensures r == SoftmaxApplied(exp, x)
  {
    var result, eSum := ExponentiatePass(exp, x);
    ExpSumPositive(exp, x);
    for i := 0 to |x|
      invariant forall k :: 0 <= k < i ==> result[k] == exp(x[k]) / eSum
      invariant forall k :: i <= k < |x| ==> result[k] == exp(x[k])
    {
      result[i] := result[i] / eSum;
    }
    r := result[..];
  }

  /** The first pass of SoftmaxActivation.apply. */
  method ExponentiatePass(exp: real -> real, x: seq<real>) returns (result: array<real>, eSum: real)
    requires ExpPositive(exp)
    ensures fresh(result) && result[..] == Exps(exp, x)
    ensures eSum == ExpSum(exp, x)
  {
    result := new real[|x|];
    eSum := 0.0;
    ghost var e := Exps(exp, x);
    for i := 0 to |x|
      invariant forall k :: 0 <= k < i ==> result[k] == e[k]
      invariant eSum == Sum(e[..i])
    {
      result[i] := exp(x[i]);
      SumAppend(e[..i], e[i]);
      assert e[..i + 1] == e[..i] + [e[i]];
      eSum := eSum + result[i];
    }
    assert e[..|x|] == e;
  }

  /** SoftmaxActivation.derive: the Jacobian of the softmax outputs. */
  method SoftmaxDerive(exp: real -> real, x: seq<real>) returns (r: seq<real>)
    requires ExpPositive(exp)
    ensures r == SoftmaxDerived(exp, x)
  {
    var softmaxArray := SoftmaxApply(exp, x);
    r := FlattenedJacobian(softmaxArray);
  }

  /** The n-by-n Jacobian of the softmax outputs s, filled by nested loops and
      then flattened row by row (shared by the class and the enum variant). */
  method FlattenedJacobian(s: seq<real>) returns (r: seq<real>)
    ensures r == Flatten(Jacobian(s))
  {
    var n := |s|;
    var result := new real[n, n];
    for i := 0 to n
      invariant forall a, b :: 0 <= a < i && 0 <= b < n ==> result[a, b] == JacobianEntry(s, a, b)
    {
      for j := 0 to n
        invariant forall a, b :: 0 <= a < i && 0 <= b < n ==> result[a, b] == JacobianEntry(s, a, b)
        invariant forall b :: 0 <= b < j ==> result[i, b] == JacobianEntry(s, i, b)
      {
        if i == j {
          result[i, j] := s[i] * (1.0 - s[j]);
        } else {
          result[i, j] := s[i] * -s[j];
        }
      }
    }
    var rows := seq(n, i requires 0 <= i < n reads result =>
      seq(n, j requires 0 <= j < n reads result => result[i, j]));
    assert forall a :: 0 <= a < n ==> rows[a] == Jacobian(s)[a];
    assert rows == Jacobian(s);
    r := Flatten(rows);
  }

  /** The interface call apply, dispatched to the class's loop. */
  method Apply(f: ActivationFunction, math: Transcendentals, x: seq<real>) returns (r: seq<real>)
    requires Lawful(math)
    ensures r == Activate(f, math, x)
  {
    match f
    case LinearActivation => r := LinearApply(x);
    case ReLUActivation => r := ReLUApply(x);
    case LeakyReLUActivation => r := LeakyReLUApply(x);
    case SigmoidActivation => r := SigmoidApply(math.exp, x);
    case TanhActivation => r := TanhApply(math.tanh, x);
    case SoftmaxActivation => r := SoftmaxApply(math.exp, x);
  }

  /** The interface call derive, dispatched to the class's loop. */
  method Derive(f: ActivationFunction, math: Transcendentals, x: seq<real>) returns (r: seq<real>)
    requires Lawful(math)
    ensures r == Derivative(f, math, x)
  {
    match f
    case LinearActivation => r := LinearDerive(x);
    case ReLUActivation => r := ReLUDerive(x);
    case LeakyReLUActivation => r := LeakyReLUDerive(x);
    case SigmoidActivation => r := SigmoidDerive(math.exp, x);
    case TanhActivation => r := TanhDerive(math.tanh, x);
    case SoftmaxActivation => r := SoftmaxDerive(math.exp, x);
  }

  // ---------------------------------------------------------------------------
  // Properties

  /** Every apply keeps the length; every elementwise derive does too. */
  lemma ActivateKeepsLength(f: ActivationFunction, math: Transcendentals, x: seq<real>)
    requires Lawful(math)
    ensures |Activate(f, math, x)| == |x|
    ensures IsElementwise(f) ==> |Derivative(f, math, x)| == |x|
  {
  }

  /** ReLU outputs are non-negative, ReLU is idempotent, its output is the input
      scaled by its derivative, and the derivative is 1 exactly where x > 0. */
  lemma ReLUProperties(x: seq<real>)
    ensures forall i :: 0 <= i < |x| ==> ReLUApplied(x)[i] >= 0.0
    ensures ReLUApplied(ReLUApplied(x)) == ReLUApplied(x)
    ensures forall i :: 0 <= i < |x| ==> ReLUApplied(x)[i] == x[i] * ReLUDerived(x)[i]
    ensures forall i :: 0 <= i < |x| ==> (ReLUDerived(x)[i] == 1.0 <==> x[i] > 0.0)
    ensures forall i :: 0 <= i < |x| ==> (ReLUDerived(x)[i] == 0.0 <==> x[i] <= 0.0)
  {
  }

  /** The test vector {1, -2, 3}. */
  lemma ReLUExample()
    ensures ReLUApplied([1.0, -2.0, 3.0]) == [1.0, 0.0, 3.0]
    ensures ReLUDerived([1.0, -2.0, 3.0]) == [1.0, 0.0, 1.0]
  {
  }

  /** LinearActivation: apply is the identity (so idempotent), derive is all ones;
      the test vector {1, 2, 3}. */
  lemma LinearProperties(x: seq<real>)
    ensures LinearApply(LinearApply(x)) == LinearApply(x) == x
    ensures LinearApply([1.0, 2.0, 3.0]) == [1.0, 2.0, 3.0]
    ensures LinearDerive([1.0, 2.0, 3.0]) == [1.0, 1.0, 1.0]
  {
  }

  /** Leaky ReLU: the derivative is 1 or 0.01, 1 exactly where x > 0, and the
      output is the input scaled by the derivative. */
  lemma LeakyReLUProperties(x: seq<real>)
    ensures forall i :: 0 <= i < |x| ==> LeakyReLUApplied(x)[i] == x[i] * LeakyReLUDerived(x)[i]
    ensures forall i :: 0 <= i < |x| ==> (LeakyReLUDerived(x)[i] == 1.0 <==> x[i] > 0.0)
    ensures forall i :: 0 <= i < |x| ==> (LeakyReLUDerived(x)[i] == 0.01 <==> x[i] <= 0.0)
  {
  }

  /** Sigmoid outputs lie in (0, 1); its derivative is s(1 - s) and lies in
      (0, 1/4]. */
  lemma SigmoidProperties(exp: real -> real, x: seq<real>)
    requires ExpPositive(exp)
    ensures forall i :: 0 <= i < |x| ==> 0.0 < SigmoidApplied(exp, x)[i] < 1.0
    ensures forall i :: 0 <= i < |x| ==>
      SigmoidDerived(exp, x)[i] == SigmoidApplied(exp, x)[i] * (1.0 - SigmoidApplied(exp, x)[i])
    ensures forall i :: 0 <= i < |x| ==> 0.0 < SigmoidDerived(exp, x)[i] <= 0.25
  {
    forall i | 0 <= i < |x|
      ensures 0.0 < SigmoidApplied(exp, x)[i] < 1.0
      ensures 0.0 < SigmoidDerived(exp, x)[i] <= 0.25
    {
      SigmoidRange(exp, x[i]);
      SigmoidDerivativeRange(exp, x[i]);
    }
  }

  /** Tanh applies tanh elementwise; its derivative is 1 - tanh^2 and lies in
      (0, 1]. */
  lemma TanhProperties(tanh: real -> real, x: seq<real>)
    requires TanhBounded(tanh)
    ensures forall i :: 0 <= i < |x| ==> TanhApplied(tanh, x)[i] == tanh(x[i])
    ensures forall i :: 0 <= i < |x| ==>
      TanhDerived(tanh, x)[i] == 1.0 - TanhApplied(tanh, x)[i] * TanhApplied(tanh, x)[i]
    ensures forall i :: 0 <= i < |x| ==> 0.0 < TanhDerived(tanh, x)[i] <= 1.0
  {
    forall i | 0 <= i < |x| ensures 0.0 < TanhDerived(tanh, x)[i] <= 1.0 {
      TanhDerivativeRange(tanh, x[i]);
    }
  }

  /** For a non-empty input the softmax outputs sum to 1 and each lies in (0, 1]. */
  lemma {:induction false} SoftmaxIsDistribution(exp: real -> real, x: seq<real>)
    requires ExpPositive(exp)
    requires |x| > 0
    ensures Sum(SoftmaxApplied(exp, x)) == 1.0
    ensures forall i :: 0 <= i < |x| ==> 0.0 < SoftmaxApplied(exp, x)[i] <= 1.0
  {
    var e := Exps(exp, x);
    var s := ExpSum(exp, x);
    var p := SoftmaxApplied(exp, x);
    ExpsPositive(exp, x);
    ExpSumPositive(exp, x);
    forall i | 0 <= i < |x| ensures p[i] == (1.0 / s) * e[i] {
      QuotientIsScaled(e[i], s);
    }
    SumScale(e, p, 1.0 / s);
    QuotientIsScaled(s, s);
    forall i | 0 <= i < |x| ensures 0.0 < p[i] <= 1.0 {
      SumAtLeastTerm(e, i);
      FractionBounds(e[i], s);
    }
  }

  lemma QuotientIsScaled(a: real, s: real)
    requires s > 0.0
    ensures a / s == (1.0 / s) * a
  {
  }

  lemma FractionBounds(a: real, s: real)
    requires 0.0 < a <= s
    ensures 0.0 < a / s <= 1.0
  {
  }

  /** A term of a sum of positive numbers is at most the sum. */
  lemma {:induction false} SumAtLeastTerm(e: seq<real>, i: nat)
    requires i < |e|
    requires forall k :: 0 <= k < |e| ==> e[k] > 0.0
    ensures e[i] <= Sum(e)
  {
    var init := e[..|e| - 1];
    if i < |e| - 1 {
      SumAtLeastTerm(init, i);
    } else {
      SumNonNegative(init);
    }
  }

  lemma {:induction false} FlattenIndex(rows: seq<seq<real>>, n: nat, i: nat, j: nat)
    requires forall k :: 0 <= k < |rows| ==> |rows[k]| == n
    requires i < |rows| && j < n
    ensures |Flatten(rows)| == |rows| * n
    ensures i * n + j < |Flatten(rows)| && Flatten(rows)[i * n + j] == rows[i][j]
  {
    FlattenLength(rows, n);
    if i > 0 {
      FlattenIndex(rows[1..], n, i - 1, j);
      assert (i - 1) * n == i * n - n;
    }
  }

  lemma {:induction false} FlattenLength(rows: seq<seq<real>>, n: nat)
    requires forall k :: 0 <= k < |rows| ==> |rows[k]| == n
    ensures |Flatten(rows)| == |rows| * n
  {
    if |rows| > 0 {
      FlattenLength(rows[1..], n);
      assert |rows| * n == n + (|rows| - 1) * n;
    }
  }

  /** derive has n*n entries; entry i*n+j is s_i(1 - s_j) on the diagonal and
      -s_i*s_j off it, and the flattened Jacobian is symmetric. */
  lemma SoftmaxJacobianEntries(exp: real -> real, x: seq<real>, i: nat, j: nat)
    requires ExpPositive(exp)
    requires i < |x| && j < |x|
    ensures |SoftmaxDerived(exp, x)| == |x| * |x|
    ensures var s := SoftmaxApplied(exp, x);
      i * |x| + j < |x| * |x| &&
      SoftmaxDerived(exp, x)[i * |x| + j] == (if i == j then s[i] * (1.0 - s[j]) else -(s[i] * s[j]))
    ensures j * |x| + i < |x| * |x| &&
      SoftmaxDerived(exp, x)[i * |x| + j] == SoftmaxDerived(exp, x)[j * |x| + i]
  {
    SoftmaxDerivedEntry(exp, x, i, j);
    SoftmaxDerivedEntry(exp, x, j, i);
    EntrySymmetric(SoftmaxApplied(exp, x), i, j);
  }

  /** Entry i*n+j of derive is entry (i, j) of the Jacobian. */
  lemma SoftmaxDerivedEntry(exp: real -> real, x: seq<real>, i: nat, j: nat)
    requires ExpPositive(exp)
    requires i < |x| && j < |x|
    ensures |SoftmaxDerived(exp, x)| == |x| * |x|
    ensures i * |x| + j < |x| * |x|
    ensures SoftmaxDerived(exp, x)[i * |x| + j] == JacobianEntry(SoftmaxApplied(exp, x), i, j)
  {
    var s := SoftmaxApplied(exp, x);
    var rows := Jacobian(s);
    forall k | 0 <= k < |rows| ensures |rows[k]| == |x| {
      assert rows[k] == JacobianRow(s, k);
    }
    FlattenIndex(rows, |x|, i, j);
    assert rows[i] == JacobianRow(s, i);
  }

  lemma EntrySymmetric(s: seq<real>, i: nat, j: nat)
    requires i < |s| && j < |s|
    ensures JacobianEntry(s, i, j) == JacobianEntry(s, j, i)
    ensures JacobianEntry(s, i, j) == if i == j then s[i] * (1.0 - s[j]) else -(s[i] * s[j])
  {
  }

  /** Each Jacobian row sums to 0 because the softmax outputs sum to 1. */
  lemma SoftmaxJacobianRowsSumToZero(exp: real -> real, x: seq<real>, i: nat)
    requires ExpPositive(exp)
    requires i < |x|
    ensures Sum(Jacobian(SoftmaxApplied(exp, x))[i]) == 0.0
  {
    var s := SoftmaxApplied(exp, x);
    JacobianRowSum(s, i);
    SoftmaxIsDistribution(exp, x);
  }

  /** Row i of the Jacobian of any vector s sums to s_i - s_i * (sum of s). */
  lemma {:induction false} JacobianRowSum(s: seq<real>, i: nat)
    requires i < |s|
    ensures Sum(Jacobian(s)[i]) == s[i] - s[i] * Sum(s)
  {
    JacobianRowIs(s, i);
    RowSumSplit(s, i);
    IndicatorSum(|s|, i, s[i]);
    ScaledSum(s, s[i]);
  }

  lemma JacobianRowIs(s: seq<real>, i: nat)
    requires i < |s|
    ensures Jacobian(s)[i] == JacobianRow(s, i)
  {
  }

  lemma RowSumSplit(s: seq<real>, i: nat)
    requires i < |s|
    ensures Sum(JacobianRow(s, i)) == Sum(Indicator(|s|, i, s[i])) - Sum(Scaled(s, s[i]))
  {
    JacobianRowIsDifference(s, i);
    SumDifference(Indicator(|s|, i, s[i]), Scaled(s, s[i]), JacobianRow(s, i));
  }

  lemma IndicatorSum(n: nat, i: nat, c: real)
    requires i < n
    ensures Sum(Indicator(n, i, c)) == c
  {
    SumOfIndicator(Indicator(n, i, c), i, c);
  }

  lemma ScaledSum(s: seq<real>, c: real)
    ensures Sum(Scaled(s, c)) == c * Sum(s)
  {
    SumScale(s, Scaled(s, c), c);
  }

  function Scaled(s: seq<real>, c: real): seq<real>
  {
    seq(|s|, j requires 0 <= j < |s| => c * s[j])
  }

  lemma JacobianRowIsDifference(s: seq<real>, i: nat)
    requires i < |s|
    ensures forall j :: 0 <= j < |s| ==>
      JacobianRow(s, i)[j] == Indicator(|s|, i, s[i])[j] - Scaled(s, s[i])[j]
  {
    forall j | 0 <= j < |s|
      ensures JacobianRow(s, i)[j] == Indicator(|s|, i, s[i])[j] - Scaled(s, s[i])[j]
    {
      if j == i {
        RealDistributes(s[i], s[j]);
      } else {
        RealNegates(s[i], s[j]);
      }
    }
  }

  lemma RealDistributes(a: real, b: real)
    ensures a * (1.0 - b) == a - a * b
  {
  }

  lemma RealNegates(a: real, b: real)
    ensures a * -b == 0.0 - a * b
  {
  }
}
