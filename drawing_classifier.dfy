/** The two pieces of the drawing window's classifier that are plain logic:
    the rule that turns the network's ten outputs into the digit shown, and
    transformToString, which lists the outputs for the result label. The
    number format (a DecimalFormat "#.##") is a parameter: any total map from
    a number to its text. */
module DrawingClassifier {
  import opened Strings

  /** A prediction is taken when the network's output is above one half. */
  const Threshold: real := 0.5

  /** classify: finalResult starts at -1 and every index whose prediction is
      above the threshold overwrites it, so it ends as the last such index, or
      -1 when there is none. */
  method FinalResult(predictions: seq<real>) returns (r: int)
    ensures r == -1 <==> forall i :: 0 <= i < |predictions| ==> predictions[i] <= Threshold
    ensures r != -1 ==> 0 <= r < |predictions| && predictions[r] > Threshold
    ensures r != -1 ==> forall i :: r < i < |predictions| ==> predictions[i] <= Threshold
  {
    r := -1;
    var i := 0;
    while i < |predictions|
      invariant 0 <= i <= |predictions|
      invariant -1 <= r < i
      invariant r != -1 ==> predictions[r] > Threshold
      invariant forall k :: r < k < i ==> predictions[k] <= Threshold
    {
      if predictions[i] > Threshold {
        r := i;
      }
      i := i + 1;
    }
  }

  /** The StringBuilder after the loop of transformToString: every formatted
      value followed by ", ". */
  function Appended(values: seq<real>, fmt: real -> string): string
  {
    if |values| == 0 then ""
    else Appended(values[..|values| - 1], fmt) + fmt(values[|values| - 1]) + ", "
  }

  /** The formatted values, in order. */
  function Formatted(values: seq<real>, fmt: real -> string): (parts: seq<string>)
    ensures |parts| == |values| && forall i :: 0 <= i < |values| ==> parts[i] == fmt(values[i])
  {
    seq(|values|, i requires 0 <= i < |values| => fmt(values[i]))
  }

  /** transformToString: the builder's content, shortened by the trailing
      ", " when it is longer than two characters. */
  function Transformed(values: seq<real>, fmt: real -> string): string
  {
    var sb := Appended(values, fmt);
    if |sb| > 2 then sb[..|sb| - 2] else sb
  }

  /** transformToString as the loop it is: append each formatted value and a
      separator, then drop the last separator when the builder holds more than
      two characters. No values give the empty string; otherwise the result is
      the formatted values joined by ", " exactly when that join is not empty
      (a single value formatted as "" leaves ", " behind). */
  method TransformToString(values: seq<real>, fmt: real -> string) returns (s: string)
    ensures s == Transformed(values, fmt)
    ensures values == [] ==> s == ""
    ensures values != [] ==> (s == Join(", ", Formatted(values, fmt)) <==> Join(", ", Formatted(values, fmt)) != "")
  {
    var sb := "";
    var i := 0;
    while i < |values|
      invariant 0 <= i <= |values|
      invariant sb == Appended(values[..i], fmt)
    {
      assert values[..i + 1][..i] == values[..i];
      sb := sb + fmt(values[i]) + ", ";
      i := i + 1;
    }
    assert values[..|values|] == values;
    if |sb| > 2 {
      sb := sb[..|sb| - 2];
    }
    s := sb;
    if values != [] {
      TransformedJoin(values, fmt);
    }
  }

  /** Appending one more part to a join of at least one part adds the
      separator and the part. */
  lemma {:induction false} JoinSnoc(sep: string, parts: seq<string>, x: string)
    requires |parts| >= 1
    ensures Join(sep, parts + [x]) == Join(sep, parts) + sep + x
    decreases |parts|
  {
    if |parts| > 1 {
      assert (parts + [x])[1..] == parts[1..] + [x];
      JoinSnoc(sep, parts[1..], x);
    }
  }

  /** For at least one value the builder holds the join of the formatted
      values followed by one separator. */
  lemma {:induction false} AppendedJoin(values: seq<real>, fmt: real -> string)
    requires |values| >= 1
    ensures Appended(values, fmt) == Join(", ", Formatted(values, fmt)) + ", "
    decreases |values|
  {
    var n := |values|;
    if n > 1 {
      var front := values[..n - 1];
      AppendedJoin(front, fmt);
      assert Formatted(values, fmt) == Formatted(front, fmt) + [fmt(values[n - 1])];
      JoinSnoc(", ", Formatted(front, fmt), fmt(values[n - 1]));
    }
  }

  /** A join of two or more parts holds the separator, so it is empty only
      when it is a single empty part. */
  lemma JoinEmpty(sep: string, parts: seq<string>)
    requires |parts| >= 1 && sep != ""
    ensures Join(sep, parts) == "" <==> |parts| == 1 && parts[0] == ""
  {
    if |parts| > 1 {
      assert |Join(sep, parts)| >= |sep|;
    }
  }

  /** transformToString of at least one value is the ", "-join of the
      formatted values, with no separator at the end, whenever that join is
      not empty: there are two or more values, or the one value formats to
      some text. A single value that formats to "" leaves ", ". */
  lemma TransformedJoin(values: seq<real>, fmt: real -> string)
    requires |values| >= 1
    ensures Join(", ", Formatted(values, fmt)) != "" <==> |values| >= 2 || fmt(values[0]) != ""
    ensures Join(", ", Formatted(values, fmt)) != "" ==> Transformed(values, fmt) == Join(", ", Formatted(values, fmt))
    ensures Join(", ", Formatted(values, fmt)) == "" ==> Transformed(values, fmt) == ", "
  {
    AppendedJoin(values, fmt);
    JoinEmpty(", ", Formatted(values, fmt));
  }

  /** When every value formats to some text, transformToString is the join
      of the formatted values with ", " between them and none at the end. */
  lemma TransformedNonEmptyParts(values: seq<real>, fmt: real -> string)
    requires |values| >= 1 && forall i :: 0 <= i < |values| ==> fmt(values[i]) != ""
    ensures Transformed(values, fmt) == Join(", ", Formatted(values, fmt))
  {
    TransformedJoin(values, fmt);
  }
}
