/** ai/Neuron: a weight per connection to the previous layer and a bias. The
    class keeps Java's two mutable fields; `NeuronV` is its value, and the
    functions here say what the array form toArray produces and what fromArray
    reads back. */
module Neurons {
  import opened Maths
  import opened Outcomes

  datatype NeuronV = NeuronV(weights: seq<real>, bias: real)

  /** The inputs weighted by the first |inputs| weights, summed. */
  function Dot(weights: seq<real>, inputs: seq<real>): real
    requires |weights| >= |inputs|
  {
    Sum(Products(weights, inputs))
  }

  function Products(weights: seq<real>, inputs: seq<real>): seq<real>
    requires |weights| >= |inputs|
  {
    seq(|inputs|, o requires 0 <= o < |inputs| => inputs[o] * weights[o])
  }

  /** toArray: the weights followed by the bias. */
  function ToArray(n: NeuronV): (a: seq<real>)
    ensures |a| == |n.weights| + 1 && a[..|n.weights|] == n.weights && a[|n.weights|] == n.bias
  {
    n.weights + [n.bias]
  }

  /** fromArray as written: new double[length - 1] fails on an empty array,
      the bias is the last entry, and the weights are copied from offset 1. */
  function FromArrayAsWritten(a: seq<real>): Result<NeuronV>
  {
    if |a| == 0 then Err(NegativeArraySize) else Ok(NeuronV(a[1..], a[|a| - 1]))
  }

  /** fromArray as the round trip of toArray needs it: the weights are the
      entries before the last. */
  function FromArray(a: seq<real>): Result<NeuronV>
  {
    if |a| == 0 then Err(NegativeArraySize) else Ok(NeuronV(a[..|a| - 1], a[|a| - 1]))
  }

  /** The corrected decoder inverts toArray, in both directions. */
  lemma FromArrayInvertsToArray(n: NeuronV, a: seq<real>)
    ensures FromArray(ToArray(n)) == Ok(n)
    ensures |a| > 0 ==> FromArray(a).Ok? && ToArray(FromArray(a).value) == a
  {
    assert (n.weights + [n.bias])[..|n.weights|] == n.weights;
  }

  /** What toArray then fromArray as written make of a neuron: the weights
      moved down one place, with the bias repeated in the last one. */
  function Shifted(n: NeuronV): NeuronV
  {
    if |n.weights| == 0 then n else NeuronV(n.weights[1..] + [n.bias], n.bias)
  }

  /** Every weight of the neuron equals its bias. */
  predicate Uniform(n: NeuronV)
  {
    forall i :: 0 <= i < |n.weights| ==> n.weights[i] == n.bias
  }

  /** The decoder as written shifts the weights: it drops the first weight and
      repeats the bias, so the round trip gives back the neuron exactly when
      every weight equals the bias. */
  lemma {:induction false} AsWrittenRoundTrip(n: NeuronV)
    ensures FromArrayAsWritten(ToArray(n)) == Ok(Shifted(n))
    ensures FromArrayAsWritten(ToArray(n)) == Ok(n) <==> Uniform(n)
  {
    var w := n.weights;
    var a := ToArray(n);
    if |w| > 0 {
      assert a[1..] == w[1..] + [n.bias];
      if forall i :: 0 <= i < |w| ==> w[i] == n.bias {
        assert w[1..] + [n.bias] == w;
      }
      if w[1..] + [n.bias] == w {
        forall i | 0 <= i < |w| ensures w[i] == n.bias {
          ShiftedEqualIsConstant(w, n.bias, i);
        }
      }
    } else {
      assert a[1..] == [] == w;
    }
  }

  /** A sequence equal to its own shift by one with c appended is constant c. */
  lemma {:induction false} ShiftedEqualIsConstant(w: seq<real>, c: real, i: nat)
    requires |w| > 0 && w[1..] + [c] == w
    requires i < |w|
    ensures w[i] == c
    decreases |w| - i
  {
    if i < |w| - 1 {
      assert w[i] == (w[1..] + [c])[i] == w[i + 1];
      ShiftedEqualIsConstant(w, c, i + 1);
    } else {
      assert w[i] == (w[1..] + [c])[i];
    }
  }

  /** The neuron with one weight 1.0 and bias 0.0 comes back with weight 0.0. */
  lemma AsWrittenCounterexample()
    ensures ToArray(NeuronV([1.0], 0.0)) == [1.0, 0.0]
    ensures FromArrayAsWritten([1.0, 0.0]) == Ok(NeuronV([0.0], 0.0))
    ensures FromArrayAsWritten(ToArray(NeuronV([1.0], 0.0))) != Ok(NeuronV([1.0], 0.0))
  {
    assert [1.0, 0.0][1..] == [0.0];
  }

  class Neuron {
    var connections: array<real>
    var bias: real

    function View(): NeuronV
      reads this, connections
    {
      NeuronV(connections[..], bias)
    }

    /** Neuron(connections, bias) keeps the caller's array, without copying. */
    constructor (connections: array<real>, bias: real)
      ensures this.connections == connections && this.bias == bias
    {
      this.connections := connections;
      this.bias := bias;
    }

    method AddToBias(addend: real)
      modifies this
      ensures connections == old(connections) && bias == old(bias) + addend
    {
      bias := bias + addend;
    }

    method SubtractFromBias(d: real)
      modifies this
      ensures connections == old(connections) && bias == old(bias) - d
    {
      bias := bias - d;
    }

    method MultiplyBias(multiplicand: real)
      modifies this
      ensures connections == old(connections) && bias == old(bias) * multiplicand
    {
      bias := bias * multiplicand;
    }

    /** Out-of-range indexes raise ArrayIndexOutOfBoundsException in the source;
        here they are excluded. */
    method AddToConnection(addend: real, index: int)
      requires 0 <= index < connections.Length
      modifies connections
      ensures connections[..] == old(connections[..])[index := old(connections[index]) + addend]
    {
      connections[index] := connections[index] + addend;
    }

    method SetConnection(value: real, index: int)
      requires 0 <= index < connections.Length
      modifies connections
      ensures connections[..] == old(connections[..])[index := value]
    {
      connections[index] := value;
    }

    /** Adds addend[i] to every weight; addend needs at least as many entries. */
    method AddToConnections(addend: seq<real>)
      requires |addend| >= connections.Length
      modifies connections
      ensures forall i :: 0 <= i < connections.Length ==> connections[i] == old(connections[i]) + addend[i]
    {
      for i := 0 to connections.Length
        invariant forall k :: 0 <= k < i ==> connections[k] == old(connections[k]) + addend[k]
        invariant forall k :: i <= k < connections.Length ==> connections[k] == old(connections[k])
      {
        connections[i] := connections[i] + addend[i];
      }
    }

    method MultiplyConnections(multiplicand: real)
      modifies connections
      ensures forall i :: 0 <= i < connections.Length ==> connections[i] == old(connections[i]) * multiplicand
    {
      for i := 0 to connections.Length
        invariant forall k :: 0 <= k < i ==> connections[k] == old(connections[k]) * multiplicand
        invariant forall k :: i <= k < connections.Length ==> connections[k] == old(connections[k])
      {
        connections[i] := connections[i] * multiplicand;
      }
    }

    /** multiplyConnections(double[]): pointwise scaling. */
    method MultiplyConnectionsPointwise(multiplicand: seq<real>)
      requires |multiplicand| >= connections.Length
      modifies connections
      ensures forall i :: 0 <= i < connections.Length ==> connections[i] == old(connections[i]) * multiplicand[i]
    {
      for i := 0 to connections.Length
        invariant forall k :: 0 <= k < i ==> connections[k] == old(connections[k]) * multiplicand[k]
        invariant forall k :: i <= k < connections.Length ==> connections[k] == old(connections[k])
      {
        connections[i] := connections[i] * multiplicand[i];
      }
    }

    /** Adds the previous activations weighted by the connections to the bias;
        there must be a weight for every activation. */
    method WeightedSum(previousActivations: seq<real>)
      requires |previousActivations| <= connections.Length
      modifies this
      ensures connections == old(connections) && connections[..] == old(connections[..])
      ensures bias == old(bias) + Dot(connections[..], previousActivations)
    {
      ghost var terms := Products(connections[..], previousActivations);
      for i := 0 to |previousActivations|
        invariant connections == old(connections) && connections[..] == old(connections[..])
        invariant bias == old(bias) + Sum(terms[..i])
      {
        PrefixSumStep(terms, i);
        bias := bias + connections[i] * previousActivations[i];
      }
      assert terms[..|previousActivations|] == terms;
    }

    /** toArray: a fresh array, the weights then the bias. */
    method ToArrayMethod() returns (r: seq<real>)
      ensures r == ToArray(View())
    {
      var result := new real[connections.Length + 1];
      forall i | 0 <= i < connections.Length {
        result[i] := connections[i];
      }
      result[connections.Length] := bias;
      r := result[..];
    }

    /** copy: a new neuron over a fresh, equal weight array. */
    method Copy() returns (n: Neuron)
      ensures fresh(n) && fresh(n.connections) && n.View() == View()
    {
      var c := new real[connections.Length];
      forall i | 0 <= i < connections.Length {
        c[i] := connections[i];
      }
      n := new Neuron(c, bias);
    }

    method GetConnections() returns (c: array<real>)
      ensures c == connections
    {
      c := connections;
    }

    function GetBias(): real
      reads this
    {
      bias
    }

    /** setConnections keeps the caller's array, so later updates through
        either reference are shared. */
    method SetConnections(connections: array<real>)
      modifies this
      ensures this.connections == connections && bias == old(bias)
    {
      this.connections := connections;
    }

    method SetBias(value: real)
      modifies this
      ensures connections == old(connections) && bias == value
    {
      bias := value;
    }
  }

  /** fromArray as written, over a fresh neuron. */
  method FromArrayAsWrittenMethod(a: seq<real>) returns (r: Result<Neuron>)
    ensures r.Ok? <==> FromArrayAsWritten(a).Ok?
    ensures r.Ok? ==> fresh(r.value) && fresh(r.value.connections) && r.value.View() == FromArrayAsWritten(a).value
  {
    if |a| == 0 {
      return Err(NegativeArraySize);
    }
    var c := new real[|a| - 1];
    forall i | 0 <= i < |a| - 1 {
      c[i] := a[1 + i];
    }
    var n := new Neuron(c, a[|a| - 1]);
    r := Ok(n);
  }

  /** fromArray corrected, over a fresh neuron. */
  method FromArrayMethod(a: seq<real>) returns (r: Result<Neuron>)
    ensures r.Ok? <==> FromArray(a).Ok?
    ensures r.Ok? ==> fresh(r.value) && fresh(r.value.connections) && r.value.View() == FromArray(a).value
  {
    if |a| == 0 {
      return Err(NegativeArraySize);
    }
    var c := new real[|a| - 1];
    forall i | 0 <= i < |a| - 1 {
      c[i] := a[i];
    }
    var n := new Neuron(c, a[|a| - 1]);
    r := Ok(n);
  }
}
