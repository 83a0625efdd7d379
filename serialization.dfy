/** The network's text form: toString is Arrays.deepToString of toArray, and
    arrayFromString takes that text apart again with three nested splits.
    Double.toString and Double.parseDouble are the two fields of `NumberText`;
    the round trip holds for every pair of them that inverts each other and
    whose number text has no ',' and no ']'. */
module Serialization {
  import opened Outcomes
  import opened Strings
  import opened Neurons
  import opened Layers
  import opened Networks

  datatype NumberText = NumberText(show: real -> string, parse: string -> Option<real>)

  /** What Double.toString and Double.parseDouble promise each other here:
      parsing gives the number back, and the text is a non-empty token with
      no separator character in it. */
  ghost predicate Faithful(t: NumberText)
  {
    forall r {:trigger t.show(r)} :: t.parse(t.show(r)) == Some(r) && t.show(r) != "" && Avoids(t.show(r), ',') && Avoids(t.show(r), ']')
  }

  const ValueSeparator := ", "
  const RowSeparator := "], ["
  const LayerSeparator := "]], [["

  /** The numbers of one row, as text. */
  function Shown(t: NumberText, row: seq<real>): (r: seq<string>)
    ensures |r| == |row| && forall i :: 0 <= i < |row| ==> r[i] == t.show(row[i])
  {
    seq(|row|, i requires 0 <= i < |row| => t.show(row[i]))
  }

  /** deepToString of a double[], of a double[][] and of a double[][][]. */
  function RowText(t: NumberText, row: seq<real>): string
  {
    "[" + Join(ValueSeparator, Shown(t, row)) + "]"
  }

  function LayerText(t: NumberText, rows: seq<seq<real>>): string
  {
    "[" + Join(ValueSeparator, seq(|rows|, i requires 0 <= i < |rows| => RowText(t, rows[i]))) + "]"
  }

  function ArrayText(t: NumberText, a: seq<seq<seq<real>>>): string
  {
    "[" + Join(ValueSeparator, seq(|a|, l requires 0 <= l < |a| => LayerText(t, a[l]))) + "]"
  }

  /** toString: the text of toArray, which fails on an empty layer. */
  function NetworkToString(t: NumberText, net: NetworkV): (r: Result<string>)
    ensures r.Err? <==> NetworkToArray(net).Err?
    ensures r.Ok? ==> r.value == ArrayText(t, NetworkToArray(net).value)
  {
    match NetworkToArray(net)
    case Err(e) => Err(e)
    case Ok(a) => Ok(ArrayText(t, a))
  }

  /** The innermost split: the numbers of one row. */
  function ParseRow(t: NumberText, text: string): (r: Result<seq<real>>)
    ensures var tokens := Split(text, ValueSeparator);
      && (r.Err? <==> exists k :: 0 <= k < |tokens| && t.parse(tokens[k]).None?)
      && (r.Err? ==> r.error == NumberFormat)
      && (r.Ok? ==> |r.value| == |tokens| && forall k :: 0 <= k < |tokens| ==> t.parse(tokens[k]) == Some(r.value[k]))
  {
    var tokens := Split(text, ValueSeparator);
    if exists k :: 0 <= k < |tokens| && t.parse(tokens[k]).None? then Err(NumberFormat)
    else Ok(seq(|tokens|, k requires 0 <= k < |tokens| => t.parse(tokens[k]).value))
  }

  /** The middle split: the rows of one layer. */
  function ParseLayer(t: NumberText, text: string): (r: Result<seq<seq<real>>>)
    ensures var rows := Split(text, RowSeparator);
      && (r.Err? <==> exists k :: 0 <= k < |rows| && ParseRow(t, rows[k]).Err?)
      && (r.Err? ==> r.error == NumberFormat)
      && (r.Ok? ==> |r.value| == |rows| && forall k :: 0 <= k < |rows| ==> ParseRow(t, rows[k]) == Ok(r.value[k]))
  {
    var rows := Split(text, RowSeparator);
    if exists k :: 0 <= k < |rows| && ParseRow(t, rows[k]).Err? then Err(NumberFormat)
    else Ok(seq(|rows|, k requires 0 <= k < |rows| => ParseRow(t, rows[k]).value))
  }

  /** arrayFromString: drop three characters at each end (substring fails
      below six), split into layers, rows and numbers, parse every number. */
  function ArrayFromText(t: NumberText, s: string): (r: Result<seq<seq<seq<real>>>>)
    ensures |s| < 6 <==> r == Err(StringIndexOutOfBounds)
    ensures r.Err? ==> r.error == StringIndexOutOfBounds || r.error == NumberFormat
    ensures r.Ok? ==> var layers := Split(s[3..|s| - 3], LayerSeparator);
      |r.value| == |layers| && forall l :: 0 <= l < |layers| ==> ParseLayer(t, layers[l]) == Ok(r.value[l])
  {
    match Substring(s, 3, |s| - 3)
    case Err(e) => Err(e)
    case Ok(inner) =>
      var layers := Split(inner, LayerSeparator);
      if exists l :: 0 <= l < |layers| && ParseLayer(t, layers[l]).Err? then Err(NumberFormat)
      else Ok(seq(|layers|, l requires 0 <= l < |layers| => ParseLayer(t, layers[l]).value))
  }

  /** Every dimension of the array is non-empty. */
  predicate Full(a: seq<seq<seq<real>>>)
  {
    |a| > 0 && forall l :: 0 <= l < |a| ==> |a[l]| > 0 && forall i :: 0 <= i < |a[l]| ==> |a[l][i]| > 0
  }

  /** What a row's brackets hold, and what a layer's double brackets hold. */
  function RowInner(t: NumberText, row: seq<real>): string
  {
    Join(ValueSeparator, Shown(t, row))
  }

  function RowInners(t: NumberText, rows: seq<seq<real>>): (r: seq<string>)
    ensures |r| == |rows| && forall i :: 0 <= i < |rows| ==> r[i] == RowInner(t, rows[i])
  {
    seq(|rows|, i requires 0 <= i < |rows| => RowInner(t, rows[i]))
  }

  function LayerInner(t: NumberText, rows: seq<seq<real>>): string
  {
    Join(RowSeparator, RowInners(t, rows))
  }

  function LayerInners(t: NumberText, a: seq<seq<seq<real>>>): (r: seq<string>)
    ensures |r| == |a| && forall l :: 0 <= l < |a| ==> r[l] == LayerInner(t, a[l])
  {
    seq(|a|, l requires 0 <= l < |a| => LayerInner(t, a[l]))
  }

  /** A non-empty layer's text is its rows joined by "], [" inside "[[" and "]]". */
  lemma LayerTextShape(t: NumberText, rows: seq<seq<real>>)
    requires |rows| > 0
    ensures LayerText(t, rows) == "[[" + LayerInner(t, rows) + "]]"
  {
    var q := RowInners(t, rows);
    assert seq(|rows|, i requires 0 <= i < |rows| => RowText(t, rows[i])) == Bracket(q);
    JoinBracketed(ValueSeparator, q);
    assert "]" + ValueSeparator + "[" == RowSeparator;
  }

  /** A non-empty array's text is its layers joined by "]], [[" inside "[[[" and "]]]". */
  lemma ArrayTextShape(t: NumberText, a: seq<seq<seq<real>>>)
    requires Full(a)
    ensures ArrayText(t, a) == "[[[" + Join(LayerSeparator, LayerInners(t, a)) + "]]]"
  {
    var q := LayerInners(t, a);
    forall l | 0 <= l < |a| ensures LayerText(t, a[l]) == "[" + ("[" + q[l] + "]") + "]" {
      LayerTextShape(t, a[l]);
    }
    assert seq(|a|, l requires 0 <= l < |a| => LayerText(t, a[l])) == Bracket(Bracket(q));
    JoinBracketed(ValueSeparator, Bracket(q));
    assert "]" + ValueSeparator + "[" == RowSeparator;
    JoinBracketed(RowSeparator, q);
    assert "]" + RowSeparator + "[" == LayerSeparator;
  }

  lemma ShowFacts(t: NumberText, r: real)
    requires Faithful(t)
    ensures t.parse(t.show(r)) == Some(r)
    ensures t.show(r) != "" && Avoids(t.show(r), ']') && NoPair(t.show(r), ',', ' ')
  {
  }

  /** The text of a non-empty row: non-empty, free of ']', and parsed back. */
  lemma RowTextRoundTrip(t: NumberText, row: seq<real>)
    requires Faithful(t) && |row| > 0
    ensures RowInner(t, row) != "" && Avoids(RowInner(t, row), ']')
    ensures ParseRow(t, RowInner(t, row)) == Ok(row)
  {
    var shown := Shown(t, row);
    forall k | 0 <= k < |shown|
      ensures t.parse(shown[k]) == Some(row[k])
      ensures shown[k] != "" && Avoids(shown[k], ']') && NoPair(shown[k], ',', ' ')
    {
      assert shown[k] == t.show(row[k]);
      ShowFacts(t, row[k]);
    }
    JoinNonEmpty(ValueSeparator, shown);
    JoinAvoids(ValueSeparator, shown, ']');
    SplitJoin(ValueSeparator, shown);
    var back := ParseRow(t, RowInner(t, row));
    assert back.Ok? && back.value == row;
  }

  /** The text of a full layer: non-empty, every ']' followed by ',', parsed back. */
  lemma LayerTextRoundTrip(t: NumberText, rows: seq<seq<real>>)
    requires Faithful(t) && |rows| > 0 && forall i :: 0 <= i < |rows| ==> |rows[i]| > 0
    ensures LayerInner(t, rows) != "" && NoPair(LayerInner(t, rows), ']', ']')
    ensures ParseLayer(t, LayerInner(t, rows)) == Ok(rows)
  {
    var q := RowInners(t, rows);
    forall i | 0 <= i < |rows| ensures q[i] != "" && Avoids(q[i], ']') && ParseRow(t, q[i]) == Ok(rows[i]) {
      RowTextRoundTrip(t, rows[i]);
    }
    JoinNonEmpty(RowSeparator, q);
    JoinNoPair(RowSeparator, q, ']', ']');
    SplitJoin(RowSeparator, q);
    var back := ParseLayer(t, LayerInner(t, rows));
    assert back.Ok? && back.value == rows;
  }

  /** arrayFromString inverts deepToString on arrays with no empty dimension. */
  lemma TextRoundTrip(t: NumberText, a: seq<seq<seq<real>>>)
    requires Faithful(t) && Full(a)
    ensures ArrayFromText(t, ArrayText(t, a)) == Ok(a)
  {
    var q := LayerInners(t, a);
    forall l | 0 <= l < |a| ensures q[l] != "" && NoPair(q[l], ']', ']') && ParseLayer(t, q[l]) == Ok(a[l]) {
      LayerTextRoundTrip(t, a[l]);
    }
    var joined := Join(LayerSeparator, q);
    ArrayTextShape(t, a);
    var s := ArrayText(t, a);
    assert s[3..|s| - 3] == joined;
    SplitJoin(LayerSeparator, q);
    var back := ArrayFromText(t, s);
    assert back.Ok? && back.value == a;
  }

  /** Parsing toString gives back toArray, for a network with at least one
      layer and no empty layer; fromArray as written then gives back the
      network with every neuron shifted, so the save and load of
      NeuralNetworkTest gives back the network exactly when every weight of
      every neuron equals that neuron's bias. */
  lemma NetworkTextRoundTrip(t: NumberText, net: NetworkV)
    requires Faithful(t) && |net| > 0 && forall l :: 0 <= l < |net| ==> |net[l]| > 0
    ensures NetworkToString(t, net).Ok? && NetworkToArray(net).Ok?
    ensures ArrayFromText(t, NetworkToString(t, net).value) == NetworkToArray(net)
    ensures NetworkFromArray(NetworkToArray(net).value) == Ok(ShiftedNetwork(net))
    ensures NetworkFromArray(NetworkToArray(net).value) == Ok(net) <==> UniformNetwork(net)
  {
    TextOfArray(t, net);
    Networks.NetworkRoundTrip(net);
  }

  /** With the corrected fromArray, parsing toString and decoding give back
      the network, which is what NeuralNetworkTest asserts. */
  lemma NetworkTextRoundTripIntended(t: NumberText, net: NetworkV)
    requires Faithful(t) && |net| > 0 && forall l :: 0 <= l < |net| ==> |net[l]| > 0
    ensures NetworkToString(t, net).Ok? && NetworkToArray(net).Ok?
    ensures ArrayFromText(t, NetworkToString(t, net).value) == NetworkToArray(net)
    ensures NetworkFromArrayIntended(NetworkToArray(net).value) == Ok(net)
  {
    TextOfArray(t, net);
    Networks.NetworkRoundTripIntended(net);
  }

  /** The text of a network without empty layers parses back to its toArray. */
  lemma TextOfArray(t: NumberText, net: NetworkV)
    requires Faithful(t) && |net| > 0 && forall l :: 0 <= l < |net| ==> |net[l]| > 0
    ensures NetworkToString(t, net).Ok? && NetworkToArray(net).Ok?
    ensures ArrayFromText(t, NetworkToString(t, net).value) == NetworkToArray(net)
  {
    var a := NetworkToArray(net).value;
    forall l | 0 <= l < |a| ensures |a[l]| > 0 && forall i :: 0 <= i < |a[l]| ==> |a[l][i]| > 0 {
      assert Ok(a[l]) == LayerToArray(net[l]);
    }
    TextRoundTrip(t, a);
  }

  /** A network without layers prints as "[]", which is too short to parse back. */
  lemma EmptyNetworkText(t: NumberText)
    ensures NetworkToString(t, []) == Ok("[]")
    ensures ArrayFromText(t, "[]") == Err(StringIndexOutOfBounds)
  {
    var a: seq<seq<seq<real>>> := [];
    assert NetworkToArray([]) == Ok(a);
    assert seq(|a|, l requires 0 <= l < |a| => LayerText(t, a[l])) == [];
    assert ArrayText(t, a) == "[]";
  }

  /** toString on the class. */
  method ToText(t: NumberText, n: NeuralNetwork) returns (r: Result<string>)
    requires n.Valid()
    ensures r == NetworkToString(t, n.View())
  {
    var a := n.ToArray();
    if a.Err? {
      return Err(a.error);
    }
    r := Ok(ArrayText(t, a.value));
  }

  /** arrayFromString: the three nested loops over the split pieces. */
  method ArrayFromString(t: NumberText, s: string) returns (r: Result<seq<seq<seq<real>>>>)
    ensures r == ArrayFromText(t, s)
  {
    if |s| < 6 {
      return Err(StringIndexOutOfBounds);
    }
    assert Substring(s, 3, |s| - 3) == Ok(s[3..|s| - 3]);
    var layers := Split(s[3..|s| - 3], LayerSeparator);
    var parsed: seq<seq<seq<real>>> := [];
    for i := 0 to |layers|
      invariant |parsed| == i && forall l :: 0 <= l < i ==> ParseLayer(t, layers[l]) == Ok(parsed[l])
    {
      var layer := ParseLayerText(t, layers[i]);
      if layer.Err? {
        return Err(layer.error);
      }
      parsed := parsed + [layer.value];
    }
    assert parsed == ArrayFromText(t, s).value;
    r := Ok(parsed);
  }

  /** The middle loop: one layer's rows. */
  method ParseLayerText(t: NumberText, text: string) returns (r: Result<seq<seq<real>>>)
    ensures r == ParseLayer(t, text)
  {
    var elements := Split(text, RowSeparator);
    var rows: seq<seq<real>> := [];
    for j := 0 to |elements|
      invariant |rows| == j && forall k :: 0 <= k < j ==> ParseRow(t, elements[k]) == Ok(rows[k])
    {
      var row := ParseRowText(t, elements[j]);
      if row.Err? {
        return Err(row.error);
      }
      rows := rows + [row.value];
    }
    assert rows == ParseLayer(t, text).value;
    r := Ok(rows);
  }

  /** The innermost loop: one row's numbers. */
  method ParseRowText(t: NumberText, text: string) returns (r: Result<seq<real>>)
    ensures r == ParseRow(t, text)
  {
    var values := Split(text, ValueSeparator);
    var row: seq<real> := [];
    for k := 0 to |values|
      invariant |row| == k && forall m :: 0 <= m < k ==> t.parse(values[m]) == Some(row[m])
    {
      var value := t.parse(values[k]);
      if value.None? {
        return Err(NumberFormat);
      }
      row := row + [value.value];
    }
    assert row == ParseRow(t, text).value;
    r := Ok(row);
  }

  /** fromFile, with the file given as its lines: the lines are appended without
      separators, parsed, and decoded by fromArray, whose neurons are read by
      Neuron.fromArray as written. */
  method FromFile(t: NumberText, lines: seq<string>) returns (r: Result<NeuralNetwork>)
    ensures var a := ArrayFromText(t, Concat(lines));
      && (r.Err? <==> a.Err? || NetworkFromArray(a.value).Err?)
      && (r.Ok? ==> fresh(r.value.Repr) && r.value.Valid() && r.value.View() == NetworkFromArray(a.value).value)
  {
    var text := "";
    for i := 0 to |lines|
      invariant text == Concat(lines[..i])
    {
      assert lines[..i + 1][..i] == lines[..i];
      text := text + lines[i];
    }
    assert lines[..|lines|] == lines;
    var decoded := ArrayFromString(t, text);
    if decoded.Err? {
      return Err(decoded.error);
    }
    r := Networks.FromArray(decoded.value);
  }
}
