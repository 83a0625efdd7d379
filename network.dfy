/** ai/NeuralNetwork: an array of layers, forward propagation through the
    hidden and output activations, and back-propagation of the loss gradient.
    The functions over `NetworkV` say what the methods of the class compute. */
module Networks {
  import opened Maths
  import opened Outcomes
  import opened Neurons
  import opened Layers
  import opened Activation
  import opened Loss

  type NetworkV = seq<LayerV>

  /** The strategies the network is built with: the hidden layers' activation,
      the output layer's activation and the loss. */
  datatype Config = Config(hidden: ActivationFunction, output: ActivationFunction, loss: LossFunction)

  /** NeuralNetwork's static choices: leaky ReLU, softmax and cross-entropy. */
  const Default := Config(LeakyReLUActivation, SoftmaxActivation, CrossEntropyLoss)

  /** Each layer accepts the previous layer's output (the first, the input). */
  predicate Chained(net: NetworkV, inputs: nat)
  {
    (|net| > 0 ==> Accepts(net[0], inputs)) &&
    forall l :: 0 < l < |net| ==> Accepts(net[l], |net[l - 1]|)
  }

  /** Each neuron has exactly one weight per output of the previous layer. */
  predicate Shaped(net: NetworkV, inputs: nat)
  {
    forall l, j :: 0 <= l < |net| && 0 <= j < |net[l]| ==>
      |net[l][j].weights| == if l == 0 then inputs else |net[l - 1]|
  }

  /** Layer l has sizes[l + 1] neurons with sizes[l] weights each. */
  predicate HasSizes(net: NetworkV, sizes: seq<nat>)
  {
    |net| + 1 == |sizes| &&
    forall l :: 0 <= l < |net| ==> (|net[l]| == sizes[l + 1] &&
      forall j :: 0 <= j < |net[l]| ==> |net[l][j].weights| == sizes[l])
  }

  lemma ShapedIsChained(net: NetworkV, inputs: nat)
    requires Shaped(net, inputs)
    ensures Chained(net, inputs)
  {
    forall l | 0 < l < |net| ensures Accepts(net[l], |net[l - 1]|) {
      assert forall j :: 0 <= j < |net[l]| ==> |net[l][j].weights| == |net[l - 1]|;
    }
    if |net| > 0 {
      assert forall j :: 0 <= j < |net[0]| ==> |net[0][j].weights| == inputs;
    }
  }

  /** The activation used after layer i: the output one for the last layer. */
  function ActivationAt(c: Config, net: NetworkV, i: int): ActivationFunction
  {
    if i < |net| - 1 then c.hidden else c.output
  }

  /** forwardPropagate(x, maxIndex): the activated output of layer maxIndex,
      or x itself when maxIndex is negative. */
  function Forward(c: Config, math: Transcendentals, net: NetworkV, x: seq<real>, maxIndex: int): (r: seq<real>)
    requires Lawful(math) && Chained(net, |x|) && maxIndex < |net|
    ensures |r| == if maxIndex < 0 then |x| else |net[maxIndex]|
    decreases maxIndex + 1
  {
    if maxIndex < 0 then x
    else
      var z := Preactivation(net[maxIndex], Forward(c, math, net, x, maxIndex - 1));
      ActivateKeepsLength(ActivationAt(c, net, maxIndex), math, z);
      Activate(ActivationAt(c, net, maxIndex), math, z)
  }

  /** forwardPropagateNoActivation(x, maxIndex): layer maxIndex's
      pre-activation, or x itself when maxIndex is negative. */
  function Preactivations(c: Config, math: Transcendentals, net: NetworkV, x: seq<real>, maxIndex: int): (z: seq<real>)
    requires Lawful(math) && Chained(net, |x|) && maxIndex < |net|
    ensures |z| == if maxIndex < 0 then |x| else |net[maxIndex]|
  {
    if maxIndex < 0 then x
    else
      Preactivation(net[maxIndex], Forward(c, math, net, x, maxIndex - 1))
  }

  /** Σ_j delta[j] · w_j[k]: the loss's sensitivity to output k of the layer
      below `next`. */
  function BackTerms(next: LayerV, delta: seq<real>, k: nat): seq<real>
    requires |delta| <= |next| && forall j :: 0 <= j < |delta| ==> k < |next[j].weights|
  {
    seq(|delta|, j requires 0 <= j < |delta| => delta[j] * next[j].weights[k])
  }

  function BackSum(next: LayerV, delta: seq<real>, k: nat): real
    requires |delta| <= |next| && forall j :: 0 <= j < |delta| ==> k < |next[j].weights|
  {
    Sum(BackTerms(next, delta, k))
  }

  /** The preconditions of back-propagation: a sample that fits the network. */
  predicate Fits(c: Config, net: NetworkV, x: seq<real>, target: seq<real>)
  {
    IsElementwise(c.hidden) && |net| > 0 && Shaped(net, |x|) && |target| == |net[|net| - 1]|
  }

  /** The sums of BackSum for every output of the layer below `next`. */
  function BackSums(next: LayerV, delta: seq<real>, count: nat): (r: seq<real>)
    requires |delta| <= |next| && forall j :: 0 <= j < |delta| ==> count <= |next[j].weights|
    ensures |r| == count
  {
    seq(count, k requires 0 <= k < count => BackSum(next, delta, k))
  }

  /** a[k] · b[k] for every index of b. */
  function Pointwise(a: seq<real>, b: seq<real>): (r: seq<real>)
    requires |a| >= |b|
    ensures |r| == |b|
  {
    seq(|b|, k requires 0 <= k < |b| => a[k] * b[k])
  }

  /** δL/δz of layer k, given the output layer's `top`: a hidden layer's is
      the next layer's pulled back through that layer's weights, times the
      hidden activation's derivative at this layer's pre-activation. */
  function Gradient(c: Config, math: Transcendentals, net: NetworkV, x: seq<real>, top: seq<real>, k: nat)
    : (g: seq<real>)
    requires Lawful(math) && IsElementwise(c.hidden) && |net| > 0 && Shaped(net, |x|)
    requires |top| == |net[|net| - 1]| && k < |net|
    ensures |g| == |net[k]|
    decreases |net| - k
  {
    if k == |net| - 1 then top
    else GradientBelow(c, math, net, x, k, Gradient(c, math, net, x, top, k + 1))
  }

  /** Below the output layer, Gradient pulls the next layer's back. */
  lemma GradientStep(c: Config, math: Transcendentals, net: NetworkV, x: seq<real>, top: seq<real>, k: nat)
    requires Lawful(math) && IsElementwise(c.hidden) && |net| > 0 && Shaped(net, |x|)
    requires |top| == |net[|net| - 1]| && k + 1 < |net|
    ensures Gradient(c, math, net, x, top, k) == GradientBelow(c, math, net, x, k, Gradient(c, math, net, x, top, k + 1))
  {
  }

  /** Hidden layer k's δL/δz from layer k + 1's `next`. */
  function GradientBelow(c: Config, math: Transcendentals, net: NetworkV, x: seq<real>, k: nat, next: seq<real>)
    : (g: seq<real>)
    requires Lawful(math) && IsElementwise(c.hidden) && Shaped(net, |x|)
    requires k + 1 < |net| && |next| == |net[k + 1]|
    ensures |g| == |net[k]|
  {
    ShapedIsChained(net, |x|);
    var z := Preactivations(c, math, net, x, k);
    ActivateKeepsLength(c.hidden, math, z);
    Pointwise(BackSums(net[k + 1], next, |net[k]|), Derivative(c.hidden, math, z))
  }

  /** One step of the error recursion: δ_k[i] is Σ_j δ_{k+1}[j] · w_j[i] over
      layer k + 1, times the hidden activation's derivative at layer k's
      pre-activation. */
  lemma GradientBelowAt(c: Config, math: Transcendentals, net: NetworkV, x: seq<real>, k: nat, next: seq<real>, i: nat)
    requires Lawful(math) && IsElementwise(c.hidden) && Shaped(net, |x|)
    requires k + 1 < |net| && |next| == |net[k + 1]| && i < |net[k]|
    ensures (
      ShapedIsChained(net, |x|);
      var z := Preactivations(c, math, net, x, k);
      ActivateKeepsLength(c.hidden, math, z);
      GradientBelow(c, math, net, x, k, next)[i] == BackSum(net[k + 1], next, i) * Derivative(c.hidden, math, z)[i])
  {
  }

  /** One neuron's row of changes: previous activation i times δ for weight
      i, and δ itself for the bias. */
  function NeuronChanges(previous: seq<real>, weights: nat, delta: real): (row: seq<real>)
    requires |previous| >= weights
    ensures |row| == weights + 1 && row[weights] == delta
    ensures forall i :: 0 <= i < weights ==> row[i] == previous[i] * delta
  {
    seq(weights + 1, i requires 0 <= i <= weights => if i < weights then previous[i] * delta else delta)
  }

  /** The rows of one layer, from the previous layer's activations and the
      layer's gradient. */
  function LayerChangesOf(previous: seq<real>, layer: LayerV, g: seq<real>): seq<seq<real>>
    requires |g| == |layer| && forall j :: 0 <= j < |layer| ==> |layer[j].weights| <= |previous|
  {
    seq(|layer|, j requires 0 <= j < |layer| => NeuronChanges(previous, |layer[j].weights|, g[j]))
  }

  function Changes(c: Config, math: Transcendentals, net: NetworkV, x: seq<real>, top: seq<real>): seq<seq<seq<real>>>
    requires Lawful(math) && IsElementwise(c.hidden) && |net| > 0 && Shaped(net, |x|)
    requires |top| == |net[|net| - 1]|
  {
    seq(|net|, l requires 0 <= l < |net| => LayerChangesAt(c, math, net, x, l, Gradient(c, math, net, x, top, l)))
  }

  /** Layer l's rows of changes, from its gradient g. */
  function LayerChangesAt(c: Config, math: Transcendentals, net: NetworkV, x: seq<real>, l: nat, g: seq<real>)
    : seq<seq<real>>
    requires Lawful(math) && Shaped(net, |x|) && l < |net| && |g| == |net[l]|
  {
    ShapedIsChained(net, |x|);
    LayerChangesOf(Forward(c, math, net, x, l - 1), net[l], g)
  }

  /** The changes backPropagate assembles, layer by layer, are Changes. */
  lemma ChangesFromGradients(c: Config, math: Transcendentals, net: NetworkV, x: seq<real>, top: seq<real>,
                             gradients: seq<seq<real>>, deltas: seq<seq<seq<real>>>)
    requires Lawful(math) && IsElementwise(c.hidden) && |net| > 0 && Shaped(net, |x|) && Chained(net, |x|)
    requires |top| == |net[|net| - 1]| && |gradients| == |net| && |deltas| == |net|
    requires forall m :: 0 <= m < |net| ==> gradients[m] == Gradient(c, math, net, x, top, m)
    requires forall m :: 0 <= m < |net| ==>
      |gradients[m]| == |net[m]| && deltas[m] == LayerChangesAt(c, math, net, x, m, gradients[m])
    ensures deltas == Changes(c, math, net, x, top)
  {
    forall m | 0 <= m < |net| ensures deltas[m] == Changes(c, math, net, x, top)[m] {
    }
  }

  /** The loss's derive at the output layer's pre-activation: it fails exactly
      for an unsupported activation and loss. */
  function OutputGradient(c: Config, math: Transcendentals, net: NetworkV, x: seq<real>, target: seq<real>)
    : (r: Result<seq<real>>)
    requires Lawful(math) && Fits(c, net, x, target)
    ensures r.Err? <==> !Supported(c.loss, c.output)
    ensures r.Err? ==> r.error == Unsupported
    ensures r.Ok? ==> |r.value| == |target|
  {
    ShapedIsChained(net, |x|);
    var z := Preactivations(c, math, net, x, |net| - 1);
    DeriveOutcomes(c.loss, c.output, math, target, z);
    DerivedOf(c.loss, c.output, math, target, z)
  }

  /** backPropagate(x, target): the loss's derive at the output layer, which
      fails for an unsupported activation, then the changes of every weight
      and bias. */
  function Backprop(c: Config, math: Transcendentals, net: NetworkV, x: seq<real>, target: seq<real>): Result<seq<seq<seq<real>>>>
    requires Lawful(math) && Fits(c, net, x, target)
  {
    match OutputGradient(c, math, net, x, target)
    case Err(e) => Err(e)
    case Ok(top) => Ok(Changes(c, math, net, x, top))
  }

  /** backPropagate fails exactly when the loss does not support the output
      activation; otherwise its result is the changes from the loss's
      gradient. */
  lemma BackpropOutcome(c: Config, math: Transcendentals, net: NetworkV, x: seq<real>, target: seq<real>)
    requires Lawful(math) && Fits(c, net, x, target)
    ensures Backprop(c, math, net, x, target).Ok? <==> Supported(c.loss, c.output)
    ensures Backprop(c, math, net, x, target).Err? ==> Backprop(c, math, net, x, target).error == Unsupported
    ensures Backprop(c, math, net, x, target).Ok? ==>
      Backprop(c, math, net, x, target).value == Changes(c, math, net, x, OutputGradient(c, math, net, x, target).value)
  {
  }

  /** The changes have the network's shape: the row of neuron j of layer l
      is NeuronChanges of the previous layer's activations and the neuron's δ,
      so weights + 1 entries, the bias's last. */
  lemma ChangesShape(c: Config, math: Transcendentals, net: NetworkV, x: seq<real>, top: seq<real>)
    requires Lawful(math) && IsElementwise(c.hidden) && |net| > 0 && Shaped(net, |x|)
    requires |top| == |net[|net| - 1]|
    ensures (ShapedIsChained(net, |x|);
      var d := Changes(c, math, net, x, top);
      |d| == |net| &&
      forall l, j :: 0 <= l < |net| && 0 <= j < |net[l]| ==>
        |d[l]| == |net[l]| &&
        d[l][j] == NeuronChanges(Forward(c, math, net, x, l - 1), |net[l][j].weights|, Gradient(c, math, net, x, top, l)[j]))
  {
    ShapedIsChained(net, |x|);
    var d := Changes(c, math, net, x, top);
    forall l, j | 0 <= l < |net| && 0 <= j < |net[l]|
      ensures |d[l]| == |net[l]|
      ensures d[l][j] == NeuronChanges(Forward(c, math, net, x, l - 1), |net[l][j].weights|, Gradient(c, math, net, x, top, l)[j])
    {
      assert d[l] == LayerChangesAt(c, math, net, x, l, Gradient(c, math, net, x, top, l));
    }
  }

  /** With NeuralNetwork's own choices (cross-entropy over softmax),
      backPropagate never fails on a sample that fits. */
  lemma DefaultBackpropSucceeds(math: Transcendentals, net: NetworkV, x: seq<real>, target: seq<real>)
    requires Lawful(math) && Fits(Default, net, x, target)
    ensures Backprop(Default, math, net, x, target).Ok?
  {
    BackpropOutcome(Default, math, net, x, target);
  }

  /** forwardPropagate(x, -1) is x itself, and for a layer m the activated
      output is the layer's activation applied to forwardPropagateNoActivation:
      the hidden activation below the output layer, the output activation at it. */
  lemma ForwardIsActivatedPreactivation(c: Config, math: Transcendentals, net: NetworkV, x: seq<real>, m: nat)
    requires Lawful(math) && Chained(net, |x|) && m < |net|
    ensures Forward(c, math, net, x, -1) == x
    ensures Forward(c, math, net, x, m) == Activate(ActivationAt(c, net, m), math, Preactivations(c, math, net, x, m))
    ensures ActivationAt(c, net, m) == if m < |net| - 1 then c.hidden else c.output
  {
  }

  /** toArray fails on the first empty layer (Layer.toArray reads neurons[0]). */
  function NetworkToArray(net: NetworkV): (r: Result<seq<seq<seq<real>>>>)
    ensures r.Err? <==> exists l :: 0 <= l < |net| && |net[l]| == 0
    ensures r.Ok? ==> |r.value| == |net| && forall l :: 0 <= l < |net| ==> Ok(r.value[l]) == LayerToArray(net[l])
  {
    if exists l :: 0 <= l < |net| && |net[l]| == 0 then Err(IndexOutOfBounds)
    else Ok(seq(|net|, l requires 0 <= l < |net| => LayerToArray(net[l]).value))
  }

  /** fromArray: every layer through Layer.fromArray, and so every neuron
      through Neuron.fromArray as written; it fails on the first empty neuron
      row. */
  function NetworkFromArray(a: seq<seq<seq<real>>>): (r: Result<NetworkV>)
    ensures r.Err? <==> exists l, i :: 0 <= l < |a| && 0 <= i < |a[l]| && |a[l][i]| == 0
    ensures r.Ok? ==> |r.value| == |a| && forall l :: 0 <= l < |a| ==> Ok(r.value[l]) == LayerFromArray(a[l])
  {
    if exists l, i :: 0 <= l < |a| && 0 <= i < |a[l]| && |a[l][i]| == 0 then Err(NegativeArraySize)
    else Ok(seq(|a|, l requires 0 <= l < |a| => LayerFromArray(a[l]).value))
  }

  /** Every neuron of every layer shifted as the written decoder shifts it. */
  function ShiftedNetwork(net: NetworkV): (s: NetworkV)
    ensures |s| == |net| && forall l :: 0 <= l < |net| ==> s[l] == ShiftedLayer(net[l])
  {
    seq(|net|, l requires 0 <= l < |net| => ShiftedLayer(net[l]))
  }

  /** Every weight of every neuron equals that neuron's bias. */
  predicate UniformNetwork(net: NetworkV)
  {
    forall l, i :: 0 <= l < |net| && 0 <= i < |net[l]| ==> Uniform(net[l][i])
  }

  /** As written, a network without empty layers comes back from toArray then
      fromArray with every neuron shifted, so it comes back unchanged exactly
      when every weight of every neuron equals that neuron's bias. */
  lemma NetworkRoundTrip(net: NetworkV)
    requires forall l :: 0 <= l < |net| ==> |net[l]| > 0
    ensures NetworkToArray(net).Ok? && NetworkFromArray(NetworkToArray(net).value) == Ok(ShiftedNetwork(net))
    ensures NetworkFromArray(NetworkToArray(net).value) == Ok(net) <==> UniformNetwork(net)
  {
    var a := NetworkToArray(net).value;
    forall l | 0 <= l < |net| ensures LayerFromArray(a[l]) == Ok(ShiftedLayer(net[l])) {
      LayerRoundTrip(net[l]);
    }
    var back := NetworkFromArray(a).value;
    forall l | 0 <= l < |net| ensures back[l] == ShiftedLayer(net[l]) {
      assert Ok(back[l]) == LayerFromArray(a[l]);
    }
    assert back == ShiftedNetwork(net);
    if back == net {
      forall l, i | 0 <= l < |net| && 0 <= i < |net[l]| ensures Uniform(net[l][i]) {
        LayerRoundTrip(net[l]);
        assert back[l] == net[l];
      }
    }
    if UniformNetwork(net) {
      forall l | 0 <= l < |net| ensures back[l] == net[l] {
        LayerRoundTrip(net[l]);
      }
    }
  }

  /** fromArray as intended: every layer through the corrected decoder. */
  function NetworkFromArrayIntended(a: seq<seq<seq<real>>>): (r: Result<NetworkV>)
    ensures r.Err? <==> exists l, i :: 0 <= l < |a| && 0 <= i < |a[l]| && |a[l][i]| == 0
    ensures r.Ok? ==> |r.value| == |a| && forall l :: 0 <= l < |a| ==> Ok(r.value[l]) == LayerFromArrayIntended(a[l])
  {
    if exists l, i :: 0 <= l < |a| && 0 <= i < |a[l]| && |a[l][i]| == 0 then Err(NegativeArraySize)
    else Ok(seq(|a|, l requires 0 <= l < |a| => LayerFromArrayIntended(a[l]).value))
  }

  /** With the corrected decoder every network without empty layers survives
      toArray then fromArray unchanged. */
  lemma NetworkRoundTripIntended(net: NetworkV)
    requires forall l :: 0 <= l < |net| ==> |net[l]| > 0
    ensures NetworkToArray(net).Ok? && NetworkFromArrayIntended(NetworkToArray(net).value) == Ok(net)
  {
    var a := NetworkToArray(net).value;
    forall l | 0 <= l < |net| ensures LayerFromArrayIntended(a[l]) == Ok(net[l]) {
      LayerRoundTripIntended(net[l]);
    }
    var back := NetworkFromArrayIntended(a).value;
    forall l | 0 <= l < |net| ensures back[l] == net[l] {
      assert Ok(back[l]) == LayerFromArrayIntended(a[l]);
    }
    assert back == net;
  }

  /** Every object of the given layers. */
  ghost function Union(ls: seq<Layer>): set<object>
  {
    set l, o | 0 <= l < |ls| && o in ls[l].Repr :: o
  }

  /** Valid layers whose footprints do not overlap. */
  ghost predicate Separate(ls: seq<Layer>)
    reads Union(ls)
  {
    (forall l :: 0 <= l < |ls| ==> ls[l].Valid()) &&
    forall l, m :: 0 <= l < |ls| && 0 <= m < |ls| && l != m ==> ls[l].Repr !! ls[m].Repr
  }

  class NeuralNetwork {
    const layers: array<Layer>
    ghost const Repr: set<object>

    ghost predicate Valid()
      reads Repr
    {
      layers in Repr &&
      (forall l :: 0 <= l < layers.Length ==> layers[l].Repr <= Repr && layers !in layers[l].Repr) &&
      Separate(layers[..])
    }

    function View(): (v: NetworkV)
      requires Valid()
      reads Repr
      ensures |v| == layers.Length
    {
      seq(layers.Length, l requires 0 <= l < layers.Length && layers[l].Valid()
        reads layers, (if 0 <= l < layers.Length then layers[l].Repr else {}) =>
          layers[l].View())
    }

    /** NeuralNetwork(Layer[]) keeps the caller's array. */
    constructor (layers: array<Layer>)
      ensures this.layers == layers && Repr == {layers as object} + Union(layers[..])
      ensures Separate(layers[..]) && layers !in Union(layers[..]) ==> Valid()
    {
      this.layers := layers;
      Repr := {layers as object} + Union(layers[..]);
    }

    /** copy: a network of copied layers, sharing nothing with this one. */
    method Copy() returns (n: NeuralNetwork)
      requires Valid()
      ensures fresh(n.Repr) && n.Valid() && n.View() == View()
    {
      ghost var net := View();
      var copies: seq<Layer> := [];
      for i := 0 to layers.Length
        invariant |copies| == i && View() == net
        invariant fresh(Union(copies)) && Separate(copies)
        invariant forall k :: 0 <= k < i ==> copies[k].View() == net[k]
      {
        assert layers[i].View() == net[i];
        var l := layers[i].Copy();
        SeparateSnoc(copies, l);
        copies := copies + [l];
      }
      n := MakeNetwork(copies);
    }

    /** toArray: entry l is layer l's array form; an empty layer throws. */
    method ToArray() returns (r: Result<seq<seq<seq<real>>>>)
      requires Valid()
      ensures r == NetworkToArray(View())
    {
      ghost var net := View();
      var result: seq<seq<seq<real>>> := [];
      for i := 0 to layers.Length
        invariant |result| == i && View() == net
        invariant forall k :: 0 <= k < i ==> |net[k]| > 0 && Ok(result[k]) == LayerToArray(net[k])
      {
        assert layers[i].View() == net[i];
        var rows := layers[i].ToArray();
        if rows.Err? {
          return Err(rows.error);
        }
        result := result + [rows.value];
      }
      assert result == NetworkToArray(net).value;
      r := Ok(result);
    }

    /** forwardPropagate(x, maxIndex). */
    method ForwardPropagateTo(c: Config, math: Transcendentals, x: seq<real>, maxIndex: int) returns (r: seq<real>)
      requires Valid() && Lawful(math) && Chained(View(), |x|) && maxIndex < layers.Length
      ensures r == Forward(c, math, View(), x, maxIndex)
    {
      var inputs := x;
      var i := 0;
      while i <= maxIndex
        invariant 0 <= i <= if maxIndex < 0 then 0 else maxIndex + 1
        invariant inputs == Forward(c, math, View(), x, i - 1)
      {
        inputs := Step(c, math, x, i, inputs);
        i := i + 1;
      }
      r := inputs;
    }

    /** forwardPropagate(x): through every layer. */
    method ForwardPropagate(c: Config, math: Transcendentals, x: seq<real>) returns (r: seq<real>)
      requires Valid() && Lawful(math) && Chained(View(), |x|)
      ensures r == Forward(c, math, View(), x, layers.Length - 1)
    {
      r := ForwardPropagateTo(c, math, x, layers.Length - 1);
    }

    /** One iteration of the forward loops: layer i's pre-activation, then the
        hidden or output activation. */
    method Step(c: Config, math: Transcendentals, x: seq<real>, i: nat, inputs: seq<real>) returns (r: seq<real>)
      requires Valid() && Lawful(math) && Chained(View(), |x|) && i < layers.Length
      requires inputs == Forward(c, math, View(), x, i - 1)
      ensures r == Forward(c, math, View(), x, i)
    {
      assert layers[i].View() == View()[i];
      var z := layers[i].CalculateInputs(inputs);
      if i < layers.Length - 1 {
        r := Activation.Apply(c.hidden, math, z);
      } else {
        r := Activation.Apply(c.output, math, z);
      }
    }

    /** forwardPropagateNoActivation(x, maxIndex): as forwardPropagate up to
        maxIndex, without the activation of layer maxIndex. */
    method ForwardPropagateNoActivation(c: Config, math: Transcendentals, x: seq<real>, maxIndex: int) returns (r: seq<real>)
      requires Valid() && Lawful(math) && Chained(View(), |x|) && maxIndex < layers.Length
      ensures r == Preactivations(c, math, View(), x, maxIndex)
    {
      var inputs := x;
      var i := 0;
      while i <= maxIndex
        invariant 0 <= i <= if maxIndex < 0 then 0 else maxIndex + 1
        invariant maxIndex < 0 ==> inputs == x
        invariant i <= maxIndex ==> inputs == Forward(c, math, View(), x, i - 1)
        invariant 0 <= maxIndex && i == maxIndex + 1 ==> inputs == Preactivations(c, math, View(), x, maxIndex)
      {
        if i == maxIndex {
          assert layers[i].View() == View()[i];
          inputs := layers[i].CalculateInputs(inputs);
        } else {
          inputs := Step(c, math, x, i, inputs);
        }
        i := i + 1;
      }
      r := inputs;
    }
  
    /** backPropagate(x, target): the output layer's gradient from the loss,
        the hidden layers' gradients from the top down, then every neuron's
        row of changes. Nothing in the network changes. */
    method BackPropagate(c: Config, math: Transcendentals, x: seq<real>, target: seq<real>)
      returns (r: Result<seq<seq<seq<real>>>>)
      requires Valid() && Lawful(math) && Fits(c, View(), x, target)
      ensures r == Backprop(c, math, View(), x, target)
    {
      ghost var net := View();
      ShapedIsChained(net, |x|);
      var n := layers.Length;
      var z := ForwardPropagateNoActivation(c, math, x, n - 1);
      assert View() == net;
      var top := Loss.Derive(c.loss, c.output, math, target, z);
      assert top == OutputGradient(c, math, net, x, target);
      if top.Err? {
        return Err(top.error);
      }
      var deltaLayers := ChangesFromTop(c, math, x, top.value);
      assert View() == net;
      r := Ok(deltaLayers);
    }

    /** backPropagate after the loss's derive: both loops, from the output
        layer's gradient `top`. */
    method ChangesFromTop(c: Config, math: Transcendentals, x: seq<real>, top: seq<real>)
      returns (deltaLayers: seq<seq<seq<real>>>)
      requires Valid() && Lawful(math) && IsElementwise(c.hidden) && layers.Length > 0 && Shaped(View(), |x|)
      requires |top| == |View()[layers.Length - 1]|
      ensures deltaLayers == Changes(c, math, View(), x, top)
    {
      ghost var net := View();
      var gradients := ErrorGradients(c, math, x, top);
      assert View() == net;
      deltaLayers := DeltaLayers(c, math, x, gradients);
      assert View() == net;
      ChangesFromGradients(c, math, net, x, top, gradients, deltaLayers);
    }

    /** backPropagate's first loop: δL/δz of every layer, from the output
        layer's down to the first. */
    method ErrorGradients(c: Config, math: Transcendentals, x: seq<real>, top: seq<real>)
      returns (gradients: seq<seq<real>>)
      requires Valid() && Lawful(math) && IsElementwise(c.hidden) && layers.Length > 0 && Shaped(View(), |x|)
      requires |top| == |View()[layers.Length - 1]|
      ensures |gradients| == layers.Length
      ensures forall m :: 0 <= m < layers.Length ==> gradients[m] == Gradient(c, math, View(), x, top, m)
    {
      ghost var net := View();
      var n := layers.Length;
      // errorGradients[l + 1..], built from the top down
      gradients := [top];
      var l := n - 2;
      while l >= 0
        invariant -1 <= l <= n - 2
        invariant View() == net && |gradients| == n - 1 - l
        invariant forall m :: 0 <= m < |gradients| ==> gradients[m] == Gradient(c, math, net, x, top, l + 1 + m)
      {
        gradients := PrependGradient(c, math, x, top, l, gradients);
        assert View() == net;
        l := l - 1;
      }
    }

    /** One pass of backPropagate's first loop: layer l's gradient in front of
        those of layers l + 1 .. the output layer. */
    method PrependGradient(c: Config, math: Transcendentals, x: seq<real>, top: seq<real>, l: nat,
                           gradients: seq<seq<real>>)
      returns (grown: seq<seq<real>>)
      requires Valid() && Lawful(math) && IsElementwise(c.hidden) && Shaped(View(), |x|)
      requires l + 1 < layers.Length && |top| == |View()[layers.Length - 1]|
      requires |gradients| == layers.Length - 1 - l
      requires forall m :: 0 <= m < |gradients| ==> gradients[m] == Gradient(c, math, View(), x, top, l + 1 + m)
      ensures |grown| == |gradients| + 1
      ensures forall m :: 0 <= m < |grown| ==> grown[m] == Gradient(c, math, View(), x, top, l + m)
    {
      ghost var net := View();
      assert gradients[0] == Gradient(c, math, net, x, top, l + 1);
      var g := LayerGradient(c, math, x, l, gradients[0]);
      assert View() == net;
      GradientStep(c, math, net, x, top, l);
      grown := [g] + gradients;
      forall m | 0 <= m < |grown| ensures grown[m] == Gradient(c, math, net, x, top, l + m) {
        if m > 0 {
          assert grown[m] == gradients[m - 1];
        }
      }
    }

    /** backPropagate's second loop: the rows of changes of every layer, from
        the previous layer's activations and the layer's gradient. */
    method DeltaLayers(c: Config, math: Transcendentals, x: seq<real>, gradients: seq<seq<real>>)
      returns (deltaLayers: seq<seq<seq<real>>>)
      requires Valid() && Lawful(math) && Shaped(View(), |x|) && |gradients| == layers.Length
      requires forall m :: 0 <= m < layers.Length ==> |gradients[m]| == |View()[m]|
      ensures Chained(View(), |x|) && |deltaLayers| == layers.Length
      ensures forall m :: 0 <= m < layers.Length ==>
        deltaLayers[m] == LayerChangesAt(c, math, View(), x, m, gradients[m])
    {
      ghost var net := View();
      ShapedIsChained(net, |x|);
      deltaLayers := [];
      for l := 0 to layers.Length
        invariant View() == net && |deltaLayers| == l
        invariant forall m :: 0 <= m < l ==>
          deltaLayers[m] == LayerChangesAt(c, math, net, x, m, gradients[m])
      {
        var rows := LayerChanges(c, math, x, l, gradients[l]);
        assert View() == net;
        deltaLayers := deltaLayers + [rows];
      }
    }

    /** One pass of backPropagate's first loop: layer l's gradient from layer
        l + 1's. */
    method LayerGradient(c: Config, math: Transcendentals, x: seq<real>, l: nat, next: seq<real>)
      returns (g: seq<real>)
      requires Valid() && Lawful(math) && IsElementwise(c.hidden) && Shaped(View(), |x|)
      requires l + 1 < layers.Length && |next| == |View()[l + 1]|
      ensures g == GradientBelow(c, math, View(), x, l, next)
    {
      ghost var net := View();
      ShapedIsChained(net, |x|);
      assert layers[l + 1].View() == net[l + 1];
      var sums := ErrorSums(layers[l + 1], next, layers[l].neurons.Length);
      assert View() == net;
      var preactivation := ForwardPropagateNoActivation(c, math, x, l);
      assert View() == net;
      g := HiddenGradient(c.hidden, math, sums, preactivation);
      assert View() == net;
    }

    /** backPropagate's second loop, for layer l: each neuron's row, from the
        previous layer's activations and the neuron's gradient. */
    method LayerChanges(c: Config, math: Transcendentals, x: seq<real>, l: nat, g: seq<real>)
      returns (rows: seq<seq<real>>)
      requires Valid() && Lawful(math) && Shaped(View(), |x|)
      requires l < layers.Length && |g| == |View()[l]|
      ensures rows == LayerChangesAt(c, math, View(), x, l, g)
    {
      ghost var net := View();
      ShapedIsChained(net, |x|);
      ghost var expected := Forward(c, math, net, x, l - 1);
      assert layers[l].View() == net[l];
      rows := [];
      for j := 0 to layers[l].neurons.Length
        invariant View() == net && |rows| == j
        invariant forall k :: 0 <= k < j ==> rows[k] == NeuronChanges(expected, |net[l][k].weights|, g[k])
      {
        rows := AddNeuronRow(c, math, x, l, g, rows);
        assert View() == net;
      }
      forall k | 0 <= k < |rows| ensures rows[k] == LayerChangesOf(expected, net[l], g)[k] {
      }
    }

    /** One pass of the neuron loop: the row of neuron |rows| of layer l. */
    method AddNeuronRow(c: Config, math: Transcendentals, x: seq<real>, l: nat, g: seq<real>, rows: seq<seq<real>>)
      returns (grown: seq<seq<real>>)
      requires Valid() && Lawful(math) && Shaped(View(), |x|)
      requires l < layers.Length && |g| == |View()[l]| && |rows| < |g|
      ensures Chained(View(), |x|) && |grown| == |rows| + 1 && grown[..|rows|] == rows
      ensures grown[|rows|] == NeuronChanges(Forward(c, math, View(), x, l - 1), |View()[l][|rows|].weights|, g[|rows|])
    {
      ghost var net := View();
      var row := NeuronRow(c, math, x, l, |rows|, g[|rows|]);
      assert View() == net;
      grown := rows + [row];
    }

    /** One pass of the innermost loops: neuron j of layer l's row, from a
        fresh forward propagation to layer l - 1. */
    method NeuronRow(c: Config, math: Transcendentals, x: seq<real>, l: nat, j: nat, delta: real)
      returns (row: seq<real>)
      requires Valid() && Lawful(math) && Shaped(View(), |x|)
      requires l < layers.Length && j < |View()[l]|
      ensures Chained(View(), |x|) &&
        row == NeuronChanges(Forward(c, math, View(), x, l - 1), |View()[l][j].weights|, delta)
    {
      ghost var net := View();
      ShapedIsChained(net, |x|);
      var previous := ForwardPropagateTo(c, math, x, l - 1);
      assert View() == net;
      assert layers[l].View() == net[l];
      assert layers[l].neurons[j].View() == net[l][j];
      row := NeuronChangesOf(previous, layers[l].neurons[j].connections.Length, delta);
    }
  }

  /** δL/δz of a hidden layer: the error sums times the activation's
      derivative at the layer's pre-activation. */
  method HiddenGradient(f: ActivationFunction, math: Transcendentals, sums: seq<real>, preactivation: seq<real>)
    returns (g: seq<real>)
    requires Lawful(math) && IsElementwise(f) && |sums| >= |preactivation|
    ensures |Derivative(f, math, preactivation)| == |preactivation|
    ensures g == Pointwise(sums, Derivative(f, math, preactivation))
  {
    var derivatives := Activation.Derive(f, math, preactivation);
    ActivateKeepsLength(f, math, preactivation);
    g := PointwiseProduct(sums, derivatives);
  }

  /** The loop that fills errorGradients[l]: sums[j] · derivatives[j]. */
  method PointwiseProduct(sums: seq<real>, derivatives: seq<real>) returns (r: seq<real>)
    requires |sums| >= |derivatives|
    ensures r == Pointwise(sums, derivatives)
  {
    var result := new real[|derivatives|];
    for j := 0 to |derivatives|
      invariant forall k :: 0 <= k < j ==> result[k] == sums[k] * derivatives[k]
    {
      result[j] := sums[j] * derivatives[j];
    }
    r := result[..];
    forall k | 0 <= k < |r| ensures r[k] == Pointwise(sums, derivatives)[k] {
    }
  }

  /** The inner loop of layerErrorSums: acc[k] += d · w[k] for every k. */
  method AddScaled(acc: array<real>, d: real, w: seq<real>)
    requires acc.Length <= |w|
    modifies acc
    ensures forall k :: 0 <= k < acc.Length ==> acc[k] == old(acc[k]) + d * w[k]
  {
    for k := 0 to acc.Length
      invariant forall m :: 0 <= m < k ==> acc[m] == old(acc[m]) + d * w[m]
      invariant forall m :: k <= m < acc.Length ==> acc[m] == old(acc[m])
    {
      acc[k] := acc[k] + d * w[k];
    }
  }

  /** The row of one neuron: δL/δw_i = previous_i · δ, then δL/δb = δ. */
  method NeuronChangesOf(previous: seq<real>, weights: nat, delta: real) returns (row: seq<real>)
    requires |previous| >= weights
    ensures row == NeuronChanges(previous, weights, delta)
  {
    var result := new real[weights + 1];
    for i := 0 to weights
      invariant forall k :: 0 <= k < i ==> result[k] == previous[k] * delta
    {
      result[i] := previous[i] * delta;
    }
    result[weights] := delta;
    row := result[..];
    assert row == NeuronChanges(previous, weights, delta);
  }

  /** One pass of layerErrorSums' outer loop adds neuron j's term to every sum. */
  lemma BackSumsStep(layer: LayerV, delta: seq<real>, count: nat, j: nat, before: seq<real>, after: seq<real>)
    requires |delta| <= |layer| && forall i :: 0 <= i < |delta| ==> count <= |layer[i].weights|
    requires j < |delta| && |before| == count && |after| == count
    requires forall k :: 0 <= k < count ==> before[k] == Sum(BackTerms(layer, delta, k)[..j])
    requires forall k :: 0 <= k < count ==> after[k] == before[k] + delta[j] * layer[j].weights[k]
    ensures forall k :: 0 <= k < count ==> after[k] == Sum(BackTerms(layer, delta, k)[..j + 1])
  {
    forall k | 0 <= k < count ensures after[k] == Sum(BackTerms(layer, delta, k)[..j + 1]) {
      PrefixSumStep(BackTerms(layer, delta, k), j);
    }
  }

  /** layerErrorSums: for each output k of the layer below, the sum over the
      next layer's neurons j of delta[j] · w_j[k], accumulated j by j. */
  method ErrorSums(next: Layer, delta: seq<real>, count: nat) returns (sums: seq<real>)
    requires next.Valid() && |delta| <= |next.View()|
    requires forall j :: 0 <= j < |delta| ==> count <= |next.View()[j].weights|
    ensures sums == BackSums(next.View(), delta, count)
  {
    ghost var layer := next.View();
    var acc := new real[count](_ => 0.0);
    for j := 0 to |delta|
      invariant next.Valid() && next.View() == layer
      invariant forall k :: 0 <= k < count ==> acc[k] == Sum(BackTerms(layer, delta, k)[..j])
    {
      AccumulateNeuron(acc, next, delta, j);
    }
    forall k | 0 <= k < count ensures acc[k] == BackSum(layer, delta, k) {
      assert BackTerms(layer, delta, k)[..|delta|] == BackTerms(layer, delta, k);
    }
    sums := acc[..];
    assert sums == BackSums(layer, delta, count);
  }

  /** One pass of layerErrorSums' outer loop: neuron j's weights, scaled by
      delta[j], added to every sum. */
  method AccumulateNeuron(acc: array<real>, next: Layer, delta: seq<real>, j: nat)
    requires next.Valid() && acc !in next.Repr && j < |delta| <= |next.View()|
    requires forall i :: 0 <= i < |delta| ==> acc.Length <= |next.View()[i].weights|
    requires forall k :: 0 <= k < acc.Length ==> acc[k] == Sum(BackTerms(next.View(), delta, k)[..j])
    modifies acc
    ensures forall k :: 0 <= k < acc.Length ==> acc[k] == Sum(BackTerms(next.View(), delta, k)[..j + 1])
  {
    ghost var layer := next.View();
    assert next.neurons[j].View() == layer[j];
    ghost var before := acc[..];
    AddScaled(acc, delta[j], next.neurons[j].connections[..]);
    assert next.View() == layer;
    BackSumsStep(layer, delta, acc.Length, j, before, acc[..]);
  }

  lemma SeparateSnoc(ls: seq<Layer>, l: Layer)
    requires Separate(ls) && l.Valid() && Union(ls) !! l.Repr
    ensures Separate(ls + [l]) && Union(ls + [l]) == Union(ls) + l.Repr
  {
    var ms := ls + [l];
    assert forall i :: 0 <= i < |ls| ==> ms[i] == ls[i];
    assert ms[|ls|] == l;
    forall i | 0 <= i < |ls| ensures ls[i].Repr !! l.Repr {
      assert ls[i].Repr <= Union(ls);
    }
    assert Union(ms) == Union(ls) + l.Repr;
  }

  /** Layers none of whose objects changed keep their views. */
  twostate lemma LayersUnchanged(made: seq<Layer>)
    requires old(Separate(made)) && unchanged(Union(made))
    ensures Separate(made)
    ensures forall k :: 0 <= k < |made| ==> made[k].View() == old(made[k].View())
  {
    forall k | 0 <= k < |made| ensures made[k].Valid() && made[k].View() == old(made[k].View()) {
      assert made[k].Repr <= Union(made);
    }
  }

  /** A network over a fresh array holding the given layers. */
  method MakeNetwork(made: seq<Layer>) returns (n: NeuralNetwork)
    requires Separate(made)
    ensures fresh(n) && fresh(n.layers) && n.Repr == {n.layers as object} + Union(made)
    ensures n.Valid() && |n.View()| == |made|
    ensures forall i :: 0 <= i < |made| ==> n.View()[i] == made[i].View()
  {
    var ls := new Layer[|made|](k requires 0 <= k < |made| => made[k]);
    assert ls[..] == made;
    n := new NeuralNetwork(ls);
  }

  /** fromArray: a fresh network of layers decoded by Layer.fromArray, each
      neuron by Neuron.fromArray as written; an empty neuron row fails. */
  method FromArray(a: seq<seq<seq<real>>>) returns (r: Result<NeuralNetwork>)
    ensures r.Err? <==> NetworkFromArray(a).Err?
    ensures r.Ok? ==> fresh(r.value.Repr) && r.value.Valid() && r.value.View() == NetworkFromArray(a).value
  {
    var made: seq<Layer> := [];
    for i := 0 to |a|
      invariant |made| == i
      invariant forall k :: 0 <= k < i ==> LayerFromArray(a[k]).Ok?
      invariant fresh(Union(made)) && Separate(made)
      invariant forall k :: 0 <= k < i ==> Ok(made[k].View()) == LayerFromArray(a[k])
    {
      var grown := AddArrayLayer(made, a);
      if grown.Err? {
        return Err(grown.error);
      }
      made := grown.value;
    }
    var n := MakeNetwork(made);
    assert n.View() == NetworkFromArray(a).value;
    r := Ok(n);
  }

  /** One pass of fromArray's loop: layer |made| decoded from a[|made|]. */
  method AddArrayLayer(made: seq<Layer>, a: seq<seq<seq<real>>>) returns (r: Result<seq<Layer>>)
    requires |made| < |a| && Separate(made)
    requires forall k :: 0 <= k < |made| ==> Ok(made[k].View()) == LayerFromArray(a[k])
    ensures r.Err? <==> LayerFromArray(a[|made|]).Err?
    ensures r.Ok? ==> |r.value| == |made| + 1 && Separate(r.value)
    ensures r.Ok? ==> Union(r.value) == Union(made) + r.value[|made|].Repr && fresh(r.value[|made|].Repr)
    ensures r.Ok? ==> forall k :: 0 <= k < |r.value| ==> Ok(r.value[k].View()) == LayerFromArray(a[k])
  {
    label before:
    var decoded := Layers.FromArrayMethod(a[|made|]);
    if decoded.Err? {
      return Err(decoded.error);
    }
    LayersUnchanged@before(made);
    SeparateSnoc(made, decoded.value);
    r := Ok(made + [decoded.value]);
  }

  /** Every weight and bias of the network lies in [-1, 1). */
  ghost predicate InUnitIntervals(net: NetworkV)
  {
    forall l, j :: 0 <= l < |net| && 0 <= j < |net[l]| ==> InUnitInterval(net[l][j])
  }

  /** The draws NeuralNetwork(int[]) takes for its first k layers. */
  function Draws(sizes: seq<nat>, k: nat): nat
    requires k < |sizes|
  {
    if k == 0 then 0 else Draws(sizes, k - 1) + LayerDraws(sizes[k], sizes[k - 1])
  }

  /** The position of the first draw of layer k. */
  function LayerStart(sizes: seq<nat>, start: nat, k: nat): nat
    requires k < |sizes|
  {
    start + Draws(sizes, k)
  }

  /** The network NeuralNetwork(int[] sizes) builds from the draws from start
      on: layer k is a random layer of sizes[k + 1] neurons over sizes[k]
      inputs, taking the draws after those of layers 0 .. k - 1. */
  function RandomNetworkV(sizes: seq<nat>, draws: nat -> real, start: nat): (net: NetworkV)
    requires |sizes| > 0
    ensures |net| + 1 == |sizes|
    ensures forall k :: 0 <= k < |net| ==> net[k] == RandomLayerAt(sizes, draws, start, k)
  {
    seq(|sizes| - 1, k requires 0 <= k < |sizes| - 1 => RandomLayerAt(sizes, draws, start, k))
  }

  /** Layer k of the random network of `sizes`. */
  function RandomLayerAt(sizes: seq<nat>, draws: nat -> real, start: nat, k: nat): LayerV
    requires k + 1 < |sizes|
  {
    RandomLayerV(sizes[k + 1], sizes[k], draws, LayerStart(sizes, start, k))
  }

  /** A random network has the requested sizes, and with draws in [0, 1)
      every weight and bias is in [-1, 1); it is shaped for sizes[0] inputs. */
  lemma RandomNetworkShape(sizes: seq<nat>, draws: nat -> real, start: nat)
    requires |sizes| > 0
    ensures HasSizes(RandomNetworkV(sizes, draws, start), sizes)
    ensures Shaped(RandomNetworkV(sizes, draws, start), sizes[0])
    ensures UnitDraws(draws) ==> InUnitIntervals(RandomNetworkV(sizes, draws, start))
  {
    var net: NetworkV := RandomNetworkV(sizes, draws, start);
    forall l | 0 <= l < |net|
      ensures |net[l]| == sizes[l + 1]
      ensures forall j :: 0 <= j < |net[l]| ==> |net[l][j].weights| == sizes[l]
      ensures UnitDraws(draws) ==> forall j :: 0 <= j < |net[l]| ==> InUnitInterval(net[l][j])
    {
      if UnitDraws(draws) {
        RandomLayerShape(sizes[l + 1], sizes[l], draws, LayerStart(sizes, start, l));
      }
    }
    HasSizesIsShaped(net, sizes);
  }

  /** A network with the sizes of `sizes` is shaped for sizes[0] inputs. */
  lemma HasSizesIsShaped(net: NetworkV, sizes: seq<nat>)
    requires HasSizes(net, sizes)
    ensures Shaped(net, sizes[0])
  {
    forall l, j | 0 <= l < |net| && 0 <= j < |net[l]|
      ensures |net[l][j].weights| == if l == 0 then sizes[0] else |net[l - 1]|
    {
    }
  }

  /** A network over the given layers, whose views it keeps. */
  method Assemble(made: seq<Layer>, ghost net: NetworkV) returns (n: NeuralNetwork)
    requires Separate(made) && |made| == |net|
    requires forall k :: 0 <= k < |made| ==> made[k].View() == net[k]
    ensures fresh(n) && fresh(n.layers) && n.Repr == {n.layers as object} + Union(made)
    ensures n.Valid() && n.View() == net
  {
    n := MakeNetwork(made);
    ghost var v: NetworkV := n.View();
    forall k | 0 <= k < |made| ensures v[k] == net[k] {
      assert v[k] == made[k].View();
    }
  }

  /** The sizes as the layers use them, negative ones counting as 0. */
  function Clamps(sizes: seq<int>): (c: seq<nat>)
    ensures |c| == |sizes| && forall k :: 0 <= k < |sizes| ==> c[k] == Clamp(sizes[k])
  {
    seq(|sizes|, k requires 0 <= k < |sizes| => Clamp(sizes[k]))
  }

  /** Layer k of NeuralNetwork(int[]) can be built: Layer(sizes[k + 1],
      sizes[k]) does not throw. */
  predicate Buildable(sizes: seq<int>, k: nat)
  {
    k + 1 < |sizes| && RandomLayerSizes(sizes[k + 1], sizes[k])
  }

  predicate AllBuildable(sizes: seq<int>)
  {
    forall k :: 0 <= k < |sizes| - 1 ==> Buildable(sizes, k)
  }

  /** Layer b is the first one whose constructor throws. */
  predicate FirstUnbuildable(sizes: seq<int>, b: nat)
  {
    b + 1 < |sizes| && !Buildable(sizes, b) && forall k :: 0 <= k < b ==> Buildable(sizes, k)
  }

  /** The layers can all be built exactly when every size after the first is
      at least 0 and a negative first size is followed by an empty layer: a
      size typed as negative for a hidden layer always makes the constructor
      throw. */
  lemma BuildableSizes(sizes: seq<int>)
    ensures AllBuildable(sizes) <==>
      (forall k :: 1 <= k < |sizes| ==> sizes[k] >= 0) && (|sizes| >= 2 && sizes[0] < 0 ==> sizes[1] == 0)
  {
    if AllBuildable(sizes) {
      forall k | 1 <= k < |sizes| ensures sizes[k] >= 0 {
        assert Buildable(sizes, k - 1);
      }
      if |sizes| >= 2 {
        assert Buildable(sizes, 0);
      }
    }
  }

  /** Sizes that are all at least 0 can all be built, and clamping leaves them
      as they are. */
  lemma NaturalSizes(sizes: seq<nat>)
    ensures AllBuildable(sizes) && Clamps(sizes) == sizes
  {
    forall k | 0 <= k < |sizes| - 1 ensures Buildable(sizes, k) {
      assert sizes[k] >= 0 && sizes[k + 1] >= 0;
    }
  }

  /** NeuralNetwork(int[] layerSizes): layer i - 1 has layerSizes[i] random
      neurons over layerSizes[i - 1] inputs; an empty size array makes
      `new Layer[-1]` throw, and so does the first layer whose sizes make the
      Layer constructor throw, after the layers before it have taken their
      draws. Math.random is the stream `draws` from `start`; `next` is the
      position after the last draw taken. */
  method FromSizes(sizes: seq<int>, draws: nat -> real, start: nat) returns (r: Result<NeuralNetwork>, next: nat)
    ensures |sizes| == 0 ==> r == Err(NegativeArraySize) && next == start
    ensures |sizes| > 0 && !AllBuildable(sizes) ==>
      r == Err(NegativeArraySize) && exists b :: FirstUnbuildable(sizes, b) && next == LayerStart(Clamps(sizes), start, b)
    ensures |sizes| > 0 && AllBuildable(sizes) ==>
      r.Ok? && fresh(r.value.Repr) && r.value.Valid() &&
      r.value.View() == RandomNetworkV(Clamps(sizes), draws, start) &&
      next == start + Draws(Clamps(sizes), |sizes| - 1)
  {
    if |sizes| == 0 {
      return Err(NegativeArraySize), start;
    }
    var made;
    made, next := RandomLayers(sizes, draws, start);
    if made.Err? {
      return Err(made.error), next;
    }
    var n := Assemble(made.value, RandomNetworkV(Clamps(sizes), draws, start));
    r := Ok(n);
  }

  /** The layer loop of NeuralNetwork(int[]): one random layer per size after
      the first, each over the previous size, up to the first that throws. */
  method RandomLayers(sizes: seq<int>, draws: nat -> real, start: nat) returns (r: Result<seq<Layer>>, next: nat)
    requires |sizes| > 0
    ensures !AllBuildable(sizes) ==>
      r == Err(NegativeArraySize) && exists b :: FirstUnbuildable(sizes, b) && next == LayerStart(Clamps(sizes), start, b)
    ensures AllBuildable(sizes) ==>
      r.Ok? && |r.value| + 1 == |sizes| && fresh(Union(r.value)) && Separate(r.value) &&
      (forall k :: 0 <= k < |r.value| ==> r.value[k].View() == RandomLayerAt(Clamps(sizes), draws, start, k)) &&
      next == start + Draws(Clamps(sizes), |sizes| - 1)
  {
    assert Union([]) == {};
    r, next := ExtendRandomLayers([], sizes, draws, start, start, |sizes| - 1);
  }

  lemma BuildablePrefix(sizes: seq<int>, i: nat)
    requires forall k :: 0 <= k < i ==> Buildable(sizes, k)
    requires Buildable(sizes, i)
    ensures forall k :: 0 <= k < i + 1 ==> Buildable(sizes, k)
  {
  }

  /** The layer loop from layer |made| up to layer count - 1. */
  method ExtendRandomLayers(made: seq<Layer>, sizes: seq<int>, draws: nat -> real, ghost start: nat, next: nat,
                            count: nat)
    returns (r: Result<seq<Layer>>, after: nat)
    requires |made| <= count < |sizes| && Separate(made)
    requires forall k :: 0 <= k < |made| ==> Buildable(sizes, k)
    requires forall k :: 0 <= k < |made| ==> made[k].View() == RandomLayerAt(Clamps(sizes), draws, start, k)
    requires next == LayerStart(Clamps(sizes), start, |made|)
    ensures (exists k :: |made| <= k < count && !Buildable(sizes, k)) ==>
      r == Err(NegativeArraySize) && exists b :: |made| <= b < count && FirstUnbuildable(sizes, b) && after == LayerStart(Clamps(sizes), start, b)
    ensures (forall k :: |made| <= k < count ==> Buildable(sizes, k)) ==>
      r.Ok? && |r.value| == count && Separate(r.value) &&
      Union(made) <= Union(r.value) && fresh(Union(r.value) - Union(made)) &&
      (forall k :: 0 <= k < count ==> r.value[k].View() == RandomLayerAt(Clamps(sizes), draws, start, k)) &&
      after == LayerStart(Clamps(sizes), start, count)
  {
    var grown := made;
    after := next;
    for i := |made| to count
      invariant |grown| == i && Separate(grown)
      invariant forall k :: 0 <= k < i ==> Buildable(sizes, k)
      invariant Union(made) <= Union(grown) && fresh(Union(grown) - Union(made))
      invariant forall k :: 0 <= k < i ==> grown[k].View() == RandomLayerAt(Clamps(sizes), draws, start, k)
      invariant after == LayerStart(Clamps(sizes), start, i)
    {
      var step;
      step, after := AddRandomLayer(grown, sizes, draws, start, after);
      if step.Err? {
        assert FirstUnbuildable(sizes, i);
        return Err(NegativeArraySize), after;
      }
      BuildablePrefix(sizes, i);
      grown := step.value;
    }
    r := Ok(grown);
  }

  /** One pass of the layer loop: a random layer for sizes[|made| + 1], or the
      constructor's exception. */
  method AddRandomLayer(made: seq<Layer>, sizes: seq<int>, draws: nat -> real, ghost start: nat, next: nat)
    returns (r: Result<seq<Layer>>, after: nat)
    requires |made| + 1 < |sizes| && Separate(made)
    requires forall k :: 0 <= k < |made| ==> made[k].View() == RandomLayerAt(Clamps(sizes), draws, start, k)
    requires next == LayerStart(Clamps(sizes), start, |made|)
    ensures r.Ok? <==> Buildable(sizes, |made|)
    ensures !Buildable(sizes, |made|) ==> r == Err(NegativeArraySize) && after == next
    ensures Buildable(sizes, |made|) ==>
      r.Ok? && |r.value| == |made| + 1 && Separate(r.value) &&
      Union(r.value) == Union(made) + r.value[|made|].Repr && fresh(r.value[|made|].Repr) &&
      (forall k :: 0 <= k < |r.value| ==> r.value[k].View() == RandomLayerAt(Clamps(sizes), draws, start, k)) &&
      after == LayerStart(Clamps(sizes), start, |r.value|)
  {
    var i := |made|;
    label before:
    var l;
    l, after := RandomLayer(sizes[i + 1], sizes[i], draws, next);
    if l.Err? {
      return Err(l.error), after;
    }
    LayersUnchanged@before(made);
    SeparateSnoc(made, l.value);
    r := Ok(made + [l.value]);
  }

  /** The sizes the four-argument constructor's parameters describe:
      numInput inputs, numHidden layers of numPerHidden, numOutput outputs. */
  function HiddenSizes(numInput: nat, numHidden: nat, numPerHidden: nat, numOutput: nat): (s: seq<nat>)
    ensures |s| == numHidden + 2 && s[0] == numInput && s[|s| - 1] == numOutput
    ensures forall k :: 1 <= k <= numHidden ==> s[k] == numPerHidden
  {
    [numInput] + seq(numHidden, _ => numPerHidden) + [numOutput]
  }

  /** The network NeuralNetwork(numInput, numHidden, numPerHidden, numOutput)
      builds, as written: with a hidden layer it is the random network of
      HiddenSizes; with none, the output layer, built after the first layer's
      draws, overwrites the first layer in the one slot. */
  function NewNetworkV(numInput: nat, numHidden: nat, numPerHidden: nat, numOutput: nat,
                       draws: nat -> real, start: nat): NetworkV
  {
    if numHidden == 0 then
      [RandomLayerV(numOutput, numPerHidden, draws, start + LayerDraws(numPerHidden, numInput))]
    else
      RandomNetworkV(HiddenSizes(numInput, numHidden, numPerHidden, numOutput), draws, start)
  }

  /** The draws the four-argument constructor takes. */
  function NewNetworkDraws(numInput: nat, numHidden: nat, numPerHidden: nat, numOutput: nat): nat
  {
    if numHidden == 0 then
      LayerDraws(numPerHidden, numInput) + LayerDraws(numOutput, numPerHidden)
    else
      Draws(HiddenSizes(numInput, numHidden, numPerHidden, numOutput), numHidden + 1)
  }

  /** NeuralNetwork(numInput, numHidden, numPerHidden, numOutput): the first
      layer over numInput inputs, numHidden - 1 more of numPerHidden, then the
      output layer over numPerHidden in the last slot. */
  method NewNetwork(numInput: nat, numHidden: nat, numPerHidden: nat, numOutput: nat,
                    draws: nat -> real, start: nat)
    returns (n: NeuralNetwork, next: nat)
    ensures fresh(n.Repr) && n.Valid()
    ensures n.View() == NewNetworkV(numInput, numHidden, numPerHidden, numOutput, draws, start)
    ensures next == start + NewNetworkDraws(numInput, numHidden, numPerHidden, numOutput)
  {
    if numHidden == 0 {
      n, next := NoHiddenNetwork(numInput, numPerHidden, numOutput, draws, start);
      return;
    }
    var sizes := HiddenSizes(numInput, numHidden, numPerHidden, numOutput);
    NaturalSizes(sizes);
    var made;
    made, next := RandomLayers(sizes, draws, start);
    n := Assemble(made.value, RandomNetworkV(sizes, draws, start));
  }

  /** The four-argument constructor with numHidden = 0: the layer built for
      slot 0 is overwritten by the output layer, after both took their draws. */
  method NoHiddenNetwork(numInput: nat, numPerHidden: nat, numOutput: nat, draws: nat -> real, start: nat)
    returns (n: NeuralNetwork, next: nat)
    ensures fresh(n.Repr) && n.Valid()
    ensures n.View() == NewNetworkV(numInput, 0, numPerHidden, numOutput, draws, start)
    ensures next == start + NewNetworkDraws(numInput, 0, numPerHidden, numOutput)
  {
    // Both constructor calls get sizes of type nat, so neither can throw.
    var first, layer;
    first, next := RandomNeurons(numPerHidden, numInput, draws, start);
    layer, next := RandomNeurons(numOutput, numPerHidden, draws, next);
    SeparateSnoc([], layer);
    assert [] + [layer] == [layer];
    assert Union([]) == {};
    n := Assemble([layer], NewNetworkV(numInput, 0, numPerHidden, numOutput, draws, start));
  }

  /** With at least one hidden layer the four-argument constructor builds
      numHidden + 1 layers: the first over numInput inputs, numPerHidden wide
      hidden layers, numOutput outputs. */
  lemma NewNetworkShape(numInput: nat, numHidden: nat, numPerHidden: nat, numOutput: nat,
                        draws: nat -> real, start: nat)
    requires numHidden > 0
    ensures HasSizes(NewNetworkV(numInput, numHidden, numPerHidden, numOutput, draws, start),
                     HiddenSizes(numInput, numHidden, numPerHidden, numOutput))
    ensures Shaped(NewNetworkV(numInput, numHidden, numPerHidden, numOutput, draws, start), numInput)
    ensures UnitDraws(draws) ==> InUnitIntervals(NewNetworkV(numInput, numHidden, numPerHidden, numOutput, draws, start))
  {
    RandomNetworkShape(HiddenSizes(numInput, numHidden, numPerHidden, numOutput), draws, start);
  }

  /** With no hidden layer the constructor's one layer is the output layer
      over numPerHidden inputs, not numInput: for numInput != numPerHidden the
      network does not have the sizes [numInput, numOutput] and cannot take
      numInput inputs. */
  lemma NoHiddenLayerIgnoresInputs(numInput: nat, numPerHidden: nat, numOutput: nat, draws: nat -> real, start: nat)
    requires numOutput > 0 && numInput != numPerHidden
    ensures var net := NewNetworkV(numInput, 0, numPerHidden, numOutput, draws, start);
      |net| == 1 && |net[0]| == numOutput &&
      (forall j :: 0 <= j < numOutput ==> |net[0][j].weights| == numPerHidden) &&
      !HasSizes(net, HiddenSizes(numInput, 0, numPerHidden, numOutput)) &&
      !Shaped(net, numInput)
  {
    var net: NetworkV := NewNetworkV(numInput, 0, numPerHidden, numOutput, draws, start);
    assert |net[0][0].weights| == numPerHidden;
  }

  /** The four-argument constructor as intended: the random network of
      HiddenSizes for every numHidden, so with none a single layer of numOutput
      neurons over numInput inputs. */
  method NewNetworkIntended(numInput: nat, numHidden: nat, numPerHidden: nat, numOutput: nat,
                            draws: nat -> real, start: nat)
    returns (n: NeuralNetwork, next: nat)
    ensures fresh(n.Repr) && n.Valid()
    ensures n.View() == RandomNetworkV(HiddenSizes(numInput, numHidden, numPerHidden, numOutput), draws, start)
    ensures next == start + Draws(HiddenSizes(numInput, numHidden, numPerHidden, numOutput), numHidden + 1)
  {
    var sizes := HiddenSizes(numInput, numHidden, numPerHidden, numOutput);
    NaturalSizes(sizes);
    var made;
    made, next := RandomLayers(sizes, draws, start);
    n := Assemble(made.value, RandomNetworkV(sizes, draws, start));
  }

  /** The intended constructor's network has the sizes HiddenSizes describes
      for every numHidden, including none. */
  lemma NewNetworkIntendedShape(numInput: nat, numHidden: nat, numPerHidden: nat, numOutput: nat,
                                draws: nat -> real, start: nat)
    ensures var net := RandomNetworkV(HiddenSizes(numInput, numHidden, numPerHidden, numOutput), draws, start);
      |net| == numHidden + 1 && |net[numHidden]| == numOutput &&
      HasSizes(net, HiddenSizes(numInput, numHidden, numPerHidden, numOutput)) && Shaped(net, numInput)
  {
    RandomNetworkShape(HiddenSizes(numInput, numHidden, numPerHidden, numOutput), draws, start);
  }
}
