/** ai/Layer: an array of neurons. `LayerV` is its value; the class keeps the
    array and proves each method against the functions on values. */
module Layers {
  import opened Maths
  import opened Outcomes
  import opened Neurons

  type LayerV = seq<NeuronV>

  /** Every neuron has a weight for each of `inputs` inputs. */
  predicate Accepts(layer: LayerV, inputs: nat)
  {
    forall i :: 0 <= i < |layer| ==> |layer[i].weights| >= inputs
  }

  /** The pre-activation of neuron i: its bias plus its weighted inputs. */
  function Preactivation(layer: LayerV, inputs: seq<real>): (z: seq<real>)
    requires Accepts(layer, |inputs|)
    ensures |z| == |layer|
    ensures forall i :: 0 <= i < |layer| ==> z[i] == layer[i].bias + Dot(layer[i].weights, inputs)
  {
    seq(|layer|, i requires 0 <= i < |layer| => layer[i].bias + Dot(layer[i].weights, inputs))
  }

  /** toArray reads neurons[0] to size the result, so an empty layer fails. */
  function LayerToArray(layer: LayerV): (r: Result<seq<seq<real>>>)
    ensures r.Err? <==> |layer| == 0
    ensures r.Ok? ==> |r.value| == |layer| && forall i :: 0 <= i < |layer| ==> r.value[i] == ToArray(layer[i])
  {
    if |layer| == 0 then Err(IndexOutOfBounds)
    else Ok(seq(|layer|, i requires 0 <= i < |layer| => ToArray(layer[i])))
  }

  /** fromArray: every row goes through Neuron.fromArray as written, which
      copies the weights from offset 1; an empty row fails there. */
  function LayerFromArray(rows: seq<seq<real>>): (r: Result<LayerV>)
    ensures r.Err? <==> exists i :: 0 <= i < |rows| && |rows[i]| == 0
    ensures r.Ok? ==> |r.value| == |rows| && forall i :: 0 <= i < |rows| ==> Ok(r.value[i]) == FromArrayAsWritten(rows[i])
  {
    if exists i :: 0 <= i < |rows| && |rows[i]| == 0 then Err(NegativeArraySize)
    else Ok(seq(|rows|, i requires 0 <= i < |rows| => FromArrayAsWritten(rows[i]).value))
  }

  /** Every neuron of the layer shifted as the written decoder shifts it. */
  function ShiftedLayer(layer: LayerV): (s: LayerV)
    ensures |s| == |layer| && forall i :: 0 <= i < |layer| ==> s[i] == Shifted(layer[i])
  {
    seq(|layer|, i requires 0 <= i < |layer| => Shifted(layer[i]))
  }

  /** As written, a non-empty layer comes back from toArray then fromArray
      with every neuron shifted, so it comes back unchanged exactly when every
      weight of every neuron equals that neuron's bias. */
  lemma LayerRoundTrip(layer: LayerV)
    requires |layer| > 0
    ensures LayerToArray(layer).Ok? && LayerFromArray(LayerToArray(layer).value) == Ok(ShiftedLayer(layer))
    ensures LayerFromArray(LayerToArray(layer).value) == Ok(layer) <==> forall i :: 0 <= i < |layer| ==> Uniform(layer[i])
  {
    var rows := LayerToArray(layer).value;
    forall i | 0 <= i < |rows| ensures FromArrayAsWritten(rows[i]) == Ok(Shifted(layer[i])) {
      AsWrittenRoundTrip(layer[i]);
    }
    var back := LayerFromArray(rows).value;
    forall i | 0 <= i < |layer| ensures back[i] == Shifted(layer[i]) {
      assert Ok(back[i]) == FromArrayAsWritten(rows[i]);
    }
    assert back == ShiftedLayer(layer);
    if back == layer {
      forall i | 0 <= i < |layer| ensures Uniform(layer[i]) {
        AsWrittenRoundTrip(layer[i]);
        assert back[i] == layer[i];
      }
    }
    if forall i :: 0 <= i < |layer| ==> Uniform(layer[i]) {
      forall i | 0 <= i < |layer| ensures back[i] == layer[i] {
        AsWrittenRoundTrip(layer[i]);
      }
    }
  }

  /** fromArray as intended: every row through the corrected neuron decoder. */
  function LayerFromArrayIntended(rows: seq<seq<real>>): (r: Result<LayerV>)
    ensures r.Err? <==> exists i :: 0 <= i < |rows| && |rows[i]| == 0
    ensures r.Ok? ==> |r.value| == |rows| && forall i :: 0 <= i < |rows| ==> Ok(r.value[i]) == FromArray(rows[i])
  {
    if exists i :: 0 <= i < |rows| && |rows[i]| == 0 then Err(NegativeArraySize)
    else Ok(seq(|rows|, i requires 0 <= i < |rows| => FromArray(rows[i]).value))
  }

  /** With the corrected decoder every non-empty layer survives toArray then
      fromArray unchanged. */
  lemma LayerRoundTripIntended(layer: LayerV)
    requires |layer| > 0
    ensures LayerToArray(layer).Ok? && LayerFromArrayIntended(LayerToArray(layer).value) == Ok(layer)
  {
    var rows := LayerToArray(layer).value;
    forall i | 0 <= i < |rows| ensures FromArray(rows[i]) == Ok(layer[i]) {
      FromArrayInvertsToArray(layer[i], []);
    }
    var back := LayerFromArrayIntended(rows).value;
    assert |back| == |layer|;
    forall i | 0 <= i < |layer| ensures back[i] == layer[i] {
      assert Ok(back[i]) == FromArray(rows[i]);
    }
    assert back == layer;
  }

  /** The objects a layer over `ns` depends on: the array, its neurons and
      their weight arrays. */
  ghost function Footprint(ns: array<Neuron>): set<object>
    reads ns, set i | 0 <= i < ns.Length :: ns[i]
  {
    {ns as object} + (set i | 0 <= i < ns.Length :: ns[i] as object)
      + (set i | 0 <= i < ns.Length :: ns[i].connections as object)
  }

  class Layer {
    const neurons: array<Neuron>
    ghost const Repr: set<object>

    /** The footprint is the one recorded at construction, and no two slots
        share a neuron or a weight array, so updating one neuron leaves the
        others alone. */
    ghost predicate Valid()
      reads Repr
    {
      neurons in Repr &&
      (forall i :: 0 <= i < neurons.Length ==> neurons[i] in Repr && neurons[i].connections in Repr) &&
      Distinct(neurons[..])
    }

    function View(): (v: LayerV)
      requires Valid()
      reads Repr
      ensures |v| == neurons.Length
    {
      seq(neurons.Length, i requires 0 <= i < neurons.Length
        reads neurons, (if 0 <= i < neurons.Length then {neurons[i], neurons[i].connections} else {}) =>
          neurons[i].View())
    }

    /** Layer(Neuron[]) keeps the caller's array. */
    constructor (neurons: array<Neuron>)
      ensures this.neurons == neurons && Repr == Footprint(neurons)
      ensures Distinct(neurons[..]) ==> Valid()
    {
      this.neurons := neurons;
      Repr := Footprint(neurons);
    }

    /** calculateInputs: bias plus weighted inputs for every neuron, into a
        fresh array; no neuron changes. */
    method CalculateInputs(inputs: seq<real>) returns (r: seq<real>)
      requires Valid() && Accepts(View(), |inputs|)
      ensures r == Preactivation(View(), inputs)
    {
      ghost var layer := View();
      var result := new real[neurons.Length](_ => 0.0);
      for i := 0 to neurons.Length
        invariant forall k :: 0 <= k < i ==> result[k] == layer[k].bias + Dot(layer[k].weights, inputs)
      {
        assert neurons[i].View() == layer[i];
        result[i] := NeuronInput(neurons[i], inputs);
      }
      r := result[..];
    }

    /** copy: a new layer of copied neurons, sharing nothing with this one. */
    method Copy() returns (l: Layer)
      requires Valid()
      ensures fresh(l.Repr) && l.Valid() && l.View() == View()
    {
      var copies: seq<Neuron> := [];
      for i := 0 to neurons.Length
        invariant |copies| == i
        invariant Distinct(copies) && forall k :: 0 <= k < i ==> fresh(copies[k]) && fresh(copies[k].connections)
        invariant forall k :: 0 <= k < i ==> copies[k].View() == View()[k]
      {
        assert neurons[i].View() == View()[i];
        var n := neurons[i].Copy();
        copies := copies + [n];
      }
      l := MakeLayer(copies);
    }

    /** toArray: row i is neuron i's array form. */
    method ToArray() returns (r: Result<seq<seq<real>>>)
      requires Valid()
      ensures r == LayerToArray(View())
    {
      if neurons.Length == 0 {
        return Err(IndexOutOfBounds);
      }
      var result := new seq<real>[neurons.Length];
      for i := 0 to neurons.Length
        invariant forall k :: 0 <= k < i ==> result[k] == Neurons.ToArray(View()[k])
      {
        assert neurons[i].View() == View()[i];
        result[i] := neurons[i].ToArrayMethod();
      }
      assert result[..] == LayerToArray(View()).value;
      r := Ok(result[..]);
    }
  }

  ghost function Objects(ns: seq<Neuron>): set<object>
    reads set i | 0 <= i < |ns| :: ns[i]
  {
    (set i | 0 <= i < |ns| :: ns[i] as object) + (set i | 0 <= i < |ns| :: ns[i].connections as object)
  }

  lemma ObjectsSnoc(ns: seq<Neuron>, n: Neuron)
    ensures Objects(ns + [n]) == Objects(ns) + {n, n.connections}
  {
    var ms := ns + [n];
    assert forall i :: 0 <= i < |ns| ==> ms[i] == ns[i];
    assert ms[|ns|] == n;
  }

  /** Neurons made since the old state, with their weight arrays, are all new. */
  twostate lemma FreshObjects(new made: seq<Neuron>)
    requires forall k :: 0 <= k < |made| ==> fresh(made[k]) && fresh(made[k].connections)
    ensures fresh(Objects(made))
  {
  }

  /** A layer over a fresh array holding the given neurons. */
  method MakeLayer(made: seq<Neuron>) returns (l: Layer)
    requires Distinct(made)
    ensures fresh(l) && fresh(l.neurons) && l.Repr == {l.neurons as object} + Objects(made)
    ensures l.Valid() && |l.View()| == |made|
    ensures forall i :: 0 <= i < |made| ==> l.View()[i] == made[i].View()
  {
    var n := new Neuron[|made|](k requires 0 <= k < |made| => made[k]);
    assert n[..] == made;
    l := new Layer(n);
  }

  /** The inner loop of calculateInputs, for one neuron: bias first, then
      each weighted input in order. */
  method NeuronInput(n: Neuron, inputs: seq<real>) returns (z: real)
    requires |inputs| <= n.connections.Length
    ensures z == n.bias + Dot(n.connections[..], inputs)
  {
    ghost var terms := Products(n.connections[..], inputs);
    z := n.bias;
    for o := 0 to |inputs|
      invariant z == n.bias + Sum(terms[..o])
    {
      PrefixSumStep(terms, o);
      z := z + inputs[o] * n.connections[o];
    }
    assert terms[..|inputs|] == terms;
  }

  /** No two entries share a neuron or a weight array. */
  ghost predicate Distinct(ns: seq<Neuron>)
    reads set i | 0 <= i < |ns| :: ns[i]
  {
    forall i, j :: 0 <= i < |ns| && 0 <= j < |ns| && i != j ==> ns[i] != ns[j] && ns[i].connections != ns[j].connections
  }

  /** Math.random()*2 - 1 for the draw at position k of the stream. */
  function Weight(draws: nat -> real, k: nat): real
  {
    draws(k) * 2.0 - 1.0
  }

  /** The neuron the random constructor makes from the draws at start, ...,
      start + count: count weights, then the bias. */
  function RandomNeuronV(count: nat, draws: nat -> real, start: nat): (n: NeuronV)
    ensures |n.weights| == count
  {
    NeuronV(seq(count, o requires 0 <= o < count => Weight(draws, start + o)), Weight(draws, start + count))
  }

  /** The start of block k of consecutive blocks of `step` draws each. */
  function Offset(k: nat, step: nat): nat
  {
    if k == 0 then 0 else Offset(k - 1, step) + step
  }

  lemma {:induction false} OffsetIsProduct(k: nat, step: nat)
    ensures Offset(k, step) == k * step
  {
    if k > 0 {
      OffsetIsProduct(k - 1, step);
      MultiplySuccessor(k - 1, step);
    }
  }

  lemma MultiplySuccessor(i: nat, step: nat)
    ensures (i + 1) * step == i * step + step
  {
  }

  /** The position of the first draw of neuron j of a random layer whose
      draws start at `start`. */
  function NeuronStart(start: nat, j: nat, weights: nat): nat
  {
    start + Offset(j, weights + 1)
  }

  /** The draws the random constructor takes: one per weight and one per bias,
      numNeurons * (numPreviousNeurons + 1) in all (OffsetIsProduct). */
  function LayerDraws(neurons: nat, weights: nat): nat
  {
    Offset(neurons, weights + 1)
  }

  /** The layer the random constructor makes from the draws from start on:
      neuron j takes the weights + 1 draws after those of neurons 0 .. j - 1. */
  function RandomLayerV(neurons: nat, weights: nat, draws: nat -> real, start: nat): (layer: LayerV)
    ensures |layer| == neurons
    ensures forall j :: 0 <= j < neurons ==> layer[j] == RandomNeuronV(weights, draws, NeuronStart(start, j, weights))
  {
    seq(neurons, j requires 0 <= j < neurons => RandomNeuronV(weights, draws, NeuronStart(start, j, weights)))
  }

  /** Every weight and bias of a random layer is in [-1, 1). */
  lemma RandomLayerShape(neurons: nat, weights: nat, draws: nat -> real, start: nat)
    requires UnitDraws(draws)
    ensures RandomShape(RandomLayerV(neurons, weights, draws, start), neurons, weights)
  {
    var layer := RandomLayerV(neurons, weights, draws, start);
    forall j | 0 <= j < neurons ensures InUnitInterval(layer[j]) {
      var n := layer[j];
      var first := NeuronStart(start, j, weights);
      assert n == RandomNeuronV(weights, draws, first);
      assert 0.0 <= draws(first + weights) < 1.0;
      forall o | 0 <= o < |n.weights| ensures -1.0 <= n.weights[o] < 1.0 {
        assert 0.0 <= draws(first + o) < 1.0;
      }
    }
  }

  /** Layer(numNeurons, numPreviousNeurons) does not throw: `new
      Neuron[numNeurons]` needs a count of at least 0, and `new
      double[numPreviousNeurons]`, made in every pass of the loop, needs one
      too when the loop runs at all. */
  predicate RandomLayerSizes(numNeurons: int, numPreviousNeurons: int)
  {
    numNeurons >= 0 && (numNeurons == 0 || numPreviousNeurons >= 0)
  }

  /** A size as the random constructor uses it: a negative one only when no
      array of it is made, where it counts as 0. */
  function Clamp(n: int): (c: nat)
    ensures n >= 0 ==> c == n
    ensures n < 0 ==> c == 0
  {
    if n < 0 then 0 else n
  }

  /** The random constructor: numNeurons fresh neurons with numPreviousNeurons
      weights each. Math.random is the stream `draws`; the constructor's calls
      are draws start, start + 1, ..., and `next` is the position after the
      last. A negative size throws NegativeArraySizeException before any
      draw. */
  method RandomLayer(numNeurons: int, numPreviousNeurons: int, draws: nat -> real, start: nat)
    returns (r: Result<Layer>, next: nat)
    ensures !RandomLayerSizes(numNeurons, numPreviousNeurons) ==> r == Err(NegativeArraySize) && next == start
    ensures RandomLayerSizes(numNeurons, numPreviousNeurons) ==>
      r.Ok? && fresh(r.value.Repr) && r.value.Valid() &&
      r.value.View() == RandomLayerV(numNeurons, Clamp(numPreviousNeurons), draws, start) &&
      next == start + LayerDraws(numNeurons, Clamp(numPreviousNeurons))
  {
    if numNeurons < 0 || (numNeurons > 0 && numPreviousNeurons < 0) {
      return Err(NegativeArraySize), start;
    }
    var l;
    l, next := RandomNeurons(numNeurons, Clamp(numPreviousNeurons), draws, start);
    r := Ok(l);
  }

  /** The loop of the random constructor once both sizes are known to be
      valid: numNeurons neurons of `weights` weights each. */
  method RandomNeurons(numNeurons: nat, weights: nat, draws: nat -> real, start: nat)
    returns (l: Layer, next: nat)
    ensures fresh(l.Repr) && l.Valid()
    ensures l.View() == RandomLayerV(numNeurons, weights, draws, start)
    ensures next == start + LayerDraws(numNeurons, weights)
  {
    var made: seq<Neuron> := [];
    next := start;
    for i := 0 to numNeurons
      invariant |made| == i && Distinct(made)
      invariant forall k :: 0 <= k < i ==> fresh(made[k]) && fresh(made[k].connections)
      invariant forall k :: 0 <= k < i ==>
        made[k].View() == RandomNeuronV(weights, draws, NeuronStart(start, k, weights))
      invariant next == NeuronStart(start, i, weights)
    {
      made, next := AddRandomNeuron(made, weights, draws, start, next);
    }
    l := MakeLayer(made);
    ghost var v, w := l.View(), RandomLayerV(numNeurons, weights, draws, start);
    forall k | 0 <= k < numNeurons ensures v[k] == w[k] {
      assert v[k] == made[k].View();
    }
    assert v == w;
  }

  /** One pass of the random constructor's loop: neuron |made|. */
  method AddRandomNeuron(made: seq<Neuron>, count: nat, draws: nat -> real, ghost start: nat, next: nat)
    returns (grown: seq<Neuron>, after: nat)
    requires Distinct(made)
    requires forall k :: 0 <= k < |made| ==> made[k].View() == RandomNeuronV(count, draws, NeuronStart(start, k, count))
    requires next == NeuronStart(start, |made|, count)
    ensures |grown| == |made| + 1 && grown[..|made|] == made && Distinct(grown)
    ensures fresh(grown[|made|]) && fresh(grown[|made|].connections)
    ensures forall k :: 0 <= k < |grown| ==> grown[k].View() == RandomNeuronV(count, draws, NeuronStart(start, k, count))
    ensures after == NeuronStart(start, |grown|, count)
  {
    var n;
    n, after := RandomNeuron(count, draws, next);
    grown := made + [n];
  }

  /** One neuron of the random constructor: its weights, then its bias. */
  method RandomNeuron(count: nat, draws: nat -> real, start: nat) returns (n: Neuron, next: nat)
    ensures fresh(n) && fresh(n.connections)
    ensures n.View() == RandomNeuronV(count, draws, start)
    ensures next == start + count + 1
  {
    var connections := RandomWeights(count, draws, start);
    var u := draws(start + count);
    n := new Neuron(connections, u * 2.0 - 1.0);
    next := start + count + 1;
  }

  /** The inner loop of the random constructor: weight o is Math.random()*2 - 1
      for the draw at start + o. */
  method RandomWeights(count: nat, draws: nat -> real, start: nat) returns (connections: array<real>)
    ensures fresh(connections) && connections.Length == count
    ensures connections[..] == RandomNeuronV(count, draws, start).weights
  {
    connections := new real[count];
    for o := 0 to count
      invariant forall k :: 0 <= k < o ==> connections[k] == Weight(draws, start + k)
    {
      var u := draws(start + o);
      connections[o] := u * 2.0 - 1.0;
    }
  }

  /** `neurons` neurons of `weights` weights each, every weight and bias in [-1, 1). */
  ghost predicate RandomShape(layer: LayerV, neurons: nat, weights: nat)
  {
    |layer| == neurons &&
    forall j :: 0 <= j < neurons ==> |layer[j].weights| == weights && InUnitInterval(layer[j])
  }

  ghost predicate InUnitInterval(n: NeuronV)
  {
    -1.0 <= n.bias < 1.0 && forall o :: 0 <= o < |n.weights| ==> -1.0 <= n.weights[o] < 1.0
  }

  /** Rows that each decode, as written, to the matching view decode to the
      layer of those views. */
  lemma DecodedLayer(rows: seq<seq<real>>, views: LayerV)
    requires |views| == |rows| && forall k :: 0 <= k < |rows| ==> Ok(views[k]) == FromArrayAsWritten(rows[k])
    ensures LayerFromArray(rows) == Ok(views)
  {
    assert forall k :: 0 <= k < |rows| ==> |rows[k]| > 0;
    var decoded := LayerFromArray(rows);
    assert forall k :: 0 <= k < |rows| ==> Ok(decoded.value[k]) == Ok(views[k]);
    assert decoded.value == views;
  }

  /** fromArray: a fresh layer of neurons decoded by Neuron.fromArray as
      written. */
  method FromArrayMethod(rows: seq<seq<real>>) returns (r: Result<Layer>)
    ensures r.Err? <==> LayerFromArray(rows).Err?
    ensures r.Ok? ==> fresh(r.value.Repr) && r.value.Valid() && r.value.View() == LayerFromArray(rows).value
  {
    var made: seq<Neuron> := [];
    for i := 0 to |rows|
      invariant |made| == i && Distinct(made)
      invariant forall k :: 0 <= k < i ==> fresh(made[k]) && fresh(made[k].connections)
      invariant forall k :: 0 <= k < i ==> Ok(made[k].View()) == FromArrayAsWritten(rows[k])
    {
      var grown := AddDecodedNeuron(made, rows);
      if grown.Err? {
        return Err(grown.error);
      }
      made := grown.value;
    }
    var l := MakeLayer(made);
    FreshObjects(made);
    DecodedLayer(rows, l.View());
    r := Ok(l);
  }

  /** One pass of fromArray's loop: neuron |made| decoded from its row. */
  method AddDecodedNeuron(made: seq<Neuron>, rows: seq<seq<real>>) returns (r: Result<seq<Neuron>>)
    requires |made| < |rows| && Distinct(made)
    requires forall k :: 0 <= k < |made| ==> Ok(made[k].View()) == FromArrayAsWritten(rows[k])
    ensures r.Err? <==> |rows[|made|]| == 0
    ensures r.Ok? ==> |r.value| == |made| + 1 && r.value[..|made|] == made && Distinct(r.value)
    ensures r.Ok? ==> fresh(r.value[|made|]) && fresh(r.value[|made|].connections)
    ensures r.Ok? ==> forall k :: 0 <= k < |r.value| ==> Ok(r.value[k].View()) == FromArrayAsWritten(rows[k])
  {
    var decoded := Neurons.FromArrayAsWrittenMethod(rows[|made|]);
    if decoded.Err? {
      return Err(decoded.error);
    }
    r := Ok(made + [decoded.value]);
  }
}
