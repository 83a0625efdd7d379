/** Real-number stand-ins for the java.lang.Math facilities the code uses.
    Every Java `double` is a Dafny `real`. The transcendental functions are not
    computable here, so every member that needs one takes them as a parameter;
    where a property needs the usual axioms (exp is positive, tanh lies in
    (-1, 1), cos in [-1, 1], Math.random in [0, 1)) it requires `Lawful`. */
module Maths {

  /** The transcendental functions the activation, loss and learning-rate code
      calls: Math.exp, Math.tanh, Math.log and Math.cos. */
  datatype Transcendentals = Transcendentals(
    exp: real -> real, tanh: real -> real, log: real -> real, cos: real -> real)

  /** The axioms the model relies on. */
  ghost predicate Lawful(math: Transcendentals)
  {
    ExpPositive(math.exp) && TanhBounded(math.tanh) && CosBounded(math.cos)
  }

  ghost predicate ExpPositive(exp: real -> real) { forall x :: exp(x) > 0.0 }

  ghost predicate TanhBounded(tanh: real -> real) { forall x :: -1.0 < tanh(x) < 1.0 }

  ghost predicate CosBounded(cos: real -> real) { forall x :: -1.0 <= cos(x) <= 1.0 }

  /** Successive results of Math.random(), each in [0, 1). */
  ghost predicate UnitDraws(draws: nat -> real)
  {
    forall k :: 0.0 <= draws(k) < 1.0
  }

  /** Math.PI */
  const Pi: real := 3.141592653589793

  /** Math.floor followed by an int cast, for values in int range. */
  function Floor(r: real): int { r.Floor }

  /** Math.ceil followed by an int cast, for values in int range. */
  function Ceil(r: real): (c: int)
    ensures r <= c as real < r + 1.0
  {
    -((-r).Floor)
  }

  /** The Java cast (int) of a double: truncation toward zero (saturation at the
      int range is not modelled). */
  function Truncate(r: real): (t: int)
    ensures r >= 0.0 ==> 0 <= t && t as real <= r < t as real + 1.0
    ensures r < 0.0 ==> t <= 0 && t as real - 1.0 < r <= t as real
  {
    if r >= 0.0 then r.Floor else -((-r).Floor)
  }

  function Abs(x: real): real { if x < 0.0 then -x else x }

  function Min(a: int, b: int): int { if a < b then a else b }

  function Max(a: int, b: int): int { if a < b then b else a }

  /** Sum of a sequence, left to right. */
  function Sum(s: seq<real>): real
  {
    if |s| == 0 then 0.0 else Sum(s[..|s| - 1]) + s[|s| - 1]
  }

  lemma {:induction false} SumAppend(s: seq<real>, x: real)
    ensures Sum(s + [x]) == Sum(s) + x
  {
    assert (s + [x])[..|s|] == s;
  }

  lemma {:induction false} SumConcat(a: seq<real>, b: seq<real>)
    ensures Sum(a + b) == Sum(a) + Sum(b)
  {
    if |b| == 0 {
      assert a + b == a;
    } else {
      SumConcat(a, b[..|b| - 1]);
      assert (a + b)[..|a + b| - 1] == a + b[..|b| - 1];
    }
  }

  lemma {:induction false} SumNonNegative(s: seq<real>)
    requires forall i :: 0 <= i < |s| ==> s[i] >= 0.0
    ensures Sum(s) >= 0.0
  {
    if |s| > 0 {
      SumNonNegative(s[..|s| - 1]);
    }
  }

  /** A sum of non-negative terms is zero exactly when every term is. */
  lemma {:induction false} SumZeroIff(s: seq<real>)
    requires forall i :: 0 <= i < |s| ==> s[i] >= 0.0
    ensures Sum(s) == 0.0 <==> forall i :: 0 <= i < |s| ==> s[i] == 0.0
  {
    if |s| > 0 {
      var init := s[..|s| - 1];
      SumZeroIff(init);
      SumNonNegative(init);
      if Sum(s) == 0.0 {
        forall i | 0 <= i < |s| ensures s[i] == 0.0 {
          if i < |s| - 1 { assert s[i] == init[i]; }
        }
      }
    }
  }

  lemma {:induction false} SumPositive(s: seq<real>)
    requires |s| > 0
    requires forall i :: 0 <= i < |s| ==> s[i] > 0.0
    ensures Sum(s) > 0.0
  {
    SumNonNegative(s[..|s| - 1]);
  }

  lemma {:induction false} SumBounded(s: seq<real>, lo: real, hi: real)
    requires forall i :: 0 <= i < |s| ==> lo <= s[i] <= hi
    ensures |s| as real * lo <= Sum(s) <= |s| as real * hi
  {
    if |s| > 0 {
      SumBounded(s[..|s| - 1], lo, hi);
    }
  }

  /** Sums of pointwise differences and scalings. */
  lemma {:induction false} SumScale(s: seq<real>, t: seq<real>, c: real)
    requires |s| == |t|
    requires forall i :: 0 <= i < |s| ==> t[i] == c * s[i]
    ensures Sum(t) == c * Sum(s)
  {
    if |s| > 0 {
      SumScale(s[..|s| - 1], t[..|t| - 1], c);
    }
  }

  lemma {:induction false} SumDifference(s: seq<real>, t: seq<real>, u: seq<real>)
    requires |s| == |t| == |u|
    requires forall i :: 0 <= i < |s| ==> u[i] == s[i] - t[i]
    ensures Sum(u) == Sum(s) - Sum(t)
  {
    if |s| > 0 {
      SumDifference(s[..|s| - 1], t[..|t| - 1], u[..|u| - 1]);
    }
  }

  /** c at position i and 0 elsewhere. */
  function Indicator(n: nat, i: nat, c: real): seq<real>
  {
    seq(n, j requires 0 <= j < n => if j == i then c else 0.0)
  }

  /** The sum of one prefix more. */
  lemma PrefixSumStep(s: seq<real>, i: nat)
    requires i < |s|
    ensures Sum(s[..i + 1]) == Sum(s[..i]) + s[i]
  {
    assert s[..i + 1][..i] == s[..i];
  }

  lemma {:induction false} SumOfIndicator(d: seq<real>, i: nat, c: real)
    requires i < |d|
    requires forall j :: 0 <= j < |d| ==> d[j] == (if j == i then c else 0.0)
    ensures Sum(d) == c
  {
    var init := d[..|d| - 1];
    if i < |d| - 1 {
      SumOfIndicator(init, i, c);
    } else {
      assert forall j :: 0 <= j < |init| ==> init[j] == 0.0;
      SumZeroIff(init);
    }
  }

  lemma ProductPositive(t: real, a: real, b: real)
    requires t == a * b && a > 0.0 && b > 0.0
    ensures t > 0.0
  {
  }

  /** A square is non-negative and zero exactly at zero (stated about a name t
      for the square). */
  lemma SquareFacts(t: real, d: real)
    requires t == d * d
    ensures t >= 0.0 && (t == 0.0 <==> d == 0.0)
  {
    if d > 0.0 {
      ProductPositive(t, d, d);
    } else if d < 0.0 {
      ProductPositive(t, -d, -d);
    }
  }
}
