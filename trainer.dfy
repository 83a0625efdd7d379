/** The sequential part of Trainer: the batches of an epoch, their per-sample
    deltas, the sum into the first slot, the scaling by BATCH_SIZE and the
    learning rate with optional noise, the update of every neuron, the
    accuracy and certainty counts, and the epoch loop with its best-network
    rule. The worker pool is run one sample after another; Math.random is the
    stream `draws` read from a position; Collections.shuffle is a permutation
    passed in. */
module Training {
  import opened Maths
  import opened Outcomes
  import opened Neurons
  import opened Layers
  import opened Activation
  import opened Loss
  import opened Networks
  import opened LearningRate

  datatype DataPoint = DataPoint(inputs: seq<real>, outputs: seq<real>)

  const BatchSize: nat := 32

  /** One sample's deltas, or their sum: [layer][neuron][weights..., bias]. */
  type Deltas = seq<seq<seq<real>>>

  // ---------------------------------------------------------------------------
  // Batches

  /** Math.ceilDiv(n, BATCH_SIZE) for a size n >= 0. */
  function BatchesPerEpoch(n: nat): nat
  {
    (n + BatchSize - 1) / BatchSize
  }

  function BatchStart(b: nat): nat
  {
    b * BatchSize
  }

  function BatchEnd(b: nat, n: nat): nat
  {
    Min((b + 1) * BatchSize, n) as nat
  }

  /** The batches are non-empty, hold at most BATCH_SIZE samples, follow each
      other without gap or overlap, and run from 0 to n. */
  lemma BatchesPartition(n: nat)
    ensures forall b :: 0 <= b < BatchesPerEpoch(n) ==>
      BatchStart(b) < BatchEnd(b, n) <= n && BatchEnd(b, n) - BatchStart(b) <= BatchSize
    ensures forall b :: 0 <= b && b + 1 < BatchesPerEpoch(n) ==> BatchEnd(b, n) == BatchStart(b + 1)
    ensures n > 0 ==> BatchesPerEpoch(n) > 0 && BatchEnd(BatchesPerEpoch(n) - 1, n) == n
    ensures n == 0 ==> BatchesPerEpoch(n) == 0
  {
    var m := BatchesPerEpoch(n);
    assert (m - 1) * BatchSize < n <= m * BatchSize;
  }

  /** Batch b of an epoch over n samples is a non-empty range inside [0, n). */
  lemma BatchBounds(n: nat, b: nat)
    requires b < BatchesPerEpoch(n)
    ensures BatchStart(b) < BatchEnd(b, n) <= n && BatchEnd(b, n) - BatchStart(b) <= BatchSize
  {
    assert b * BatchSize < n;
  }

  /** Every sample lies in exactly one batch: batch i / BATCH_SIZE. */
  lemma BatchOf(n: nat, i: nat)
    requires i < n
    ensures var b := i / BatchSize;
      b < BatchesPerEpoch(n) && BatchStart(b) <= i < BatchEnd(b, n)
    ensures forall c :: 0 <= c < BatchesPerEpoch(n) && BatchStart(c) <= i < BatchEnd(c, n) ==> c == i / BatchSize
  {
    var b := i / BatchSize;
    assert b * BatchSize <= i < (b + 1) * BatchSize;
    forall c | 0 <= c < BatchesPerEpoch(n) && BatchStart(c) <= i < BatchEnd(c, n) ensures c == b {
      assert c * BatchSize <= i < (c + 1) * BatchSize;
    }
  }

  // ---------------------------------------------------------------------------
  // batchBackPropagate, one slot after another

  /** Every sample fits the network: its inputs match the first layer and its
      target the last layer. */
  predicate AllFit(net: NetworkV, data: seq<DataPoint>)
  {
    forall i :: 0 <= i < |data| ==> Fits(Default, net, data[i].inputs, data[i].outputs)
  }

  /** The deltas of one sample under NeuralNetwork's fixed configuration. */
  function SampleDeltas(math: Transcendentals, net: NetworkV, p: DataPoint): (d: Deltas)
    requires Lawful(math) && Fits(Default, net, p.inputs, p.outputs)
  {
    DefaultBackpropSucceeds(math, net, p.inputs, p.outputs);
    Backprop(Default, math, net, p.inputs, p.outputs).value
  }

  /** Slot k holds backPropagate of sample batchStart + k. */
  method BatchBackPropagate(math: Transcendentals, network: NeuralNetwork, data: seq<DataPoint>, batchStart: nat, batchEnd: nat)
    returns (desired: seq<Deltas>)
    requires network.Valid() && Lawful(math) && AllFit(network.View(), data)
    requires batchStart <= batchEnd <= |data|
    ensures |desired| == batchEnd - batchStart
    ensures forall k :: 0 <= k < |desired| ==> desired[k] == SampleDeltas(math, network.View(), data[batchStart + k])
    ensures desired == Filled(math, network.View(), data, batchStart, batchEnd - batchStart)
  {
    hide SampleDeltas;
    desired := [];
    for i := batchStart to batchEnd
      invariant desired == Filled(math, network.View(), data, batchStart, i - batchStart)
    {
      var d := SampleBackPropagate(math, network, data[i]);
      desired := desired + [d];
    }
    FilledAt(math, network.View(), data, batchStart, batchEnd - batchStart);
  }

  /** The first n slots of a batch starting at `start`, filled one after another. */
  function Filled(math: Transcendentals, net: NetworkV, data: seq<DataPoint>, start: nat, n: nat): (ds: seq<Deltas>)
    requires Lawful(math) && AllFit(net, data) && start + n <= |data|
    ensures |ds| == n
  {
    if n == 0 then [] else Filled(math, net, data, start, n - 1) + [SampleDeltas(math, net, data[start + n - 1])]
  }

  lemma {:induction false} FilledAt(math: Transcendentals, net: NetworkV, data: seq<DataPoint>, start: nat, n: nat)
    requires Lawful(math) && AllFit(net, data) && start + n <= |data|
    ensures var ds := Filled(math, net, data, start, n);
      |ds| == n && forall k :: 0 <= k < n ==> ds[k] == SampleDeltas(math, net, data[start + k])
  {
    hide SampleDeltas;
    if n > 0 {
      FilledAt(math, net, data, start, n - 1);
    }
  }

  method SampleBackPropagate(math: Transcendentals, network: NeuralNetwork, p: DataPoint) returns (d: Deltas)
    requires network.Valid() && Lawful(math) && Fits(Default, network.View(), p.inputs, p.outputs)
    ensures d == SampleDeltas(math, network.View(), p)
  {
    DefaultBackpropSucceeds(math, network.View(), p.inputs, p.outputs);
    var r := network.BackPropagate(Default, math, p.inputs, p.outputs);
    d := r.value;
  }

  /** The deltas of a network have its shape: a row of weights + 1 entries
      per neuron. */
  predicate DeltasFor(net: NetworkV, d: Deltas)
  {
    |d| == |net| &&
    forall x :: 0 <= x < |d| ==> (|d[x]| == |net[x]| &&
      forall y :: 0 <= y < |d[x]| ==> |d[x][y]| == |net[x][y].weights| + 1)
  }

  lemma SampleDeltasShape(math: Transcendentals, net: NetworkV, p: DataPoint)
    requires Lawful(math) && Fits(Default, net, p.inputs, p.outputs)
    ensures DeltasFor(net, SampleDeltas(math, net, p))
  {
    ShapedIsChained(net, |p.inputs|);
    DefaultBackpropSucceeds(math, net, p.inputs, p.outputs);
    BackpropOutcome(Default, math, net, p.inputs, p.outputs);
    var top := OutputGradient(Default, math, net, p.inputs, p.outputs).value;
    ChangesShape(Default, math, net, p.inputs, top);
  }

  // ---------------------------------------------------------------------------
  // The sum into slot 0

  predicate SameShape(a: Deltas, b: Deltas)
  {
    |a| == |b| &&
    forall x :: 0 <= x < |a| ==> (|a[x]| == |b[x]| &&
      forall y :: 0 <= y < |a[x]| ==> |a[x][y]| == |b[x][y]|)
  }

  function AddRow(a: seq<real>, b: seq<real>): (r: seq<real>)
    requires |a| == |b|
    ensures |r| == |a| && forall z :: 0 <= z < |a| ==> r[z] == a[z] + b[z]
  {
    seq(|a|, z requires 0 <= z < |a| => a[z] + b[z])
  }

  function AddRows(a: seq<seq<real>>, b: seq<seq<real>>): (r: seq<seq<real>>)
    requires |a| == |b| && forall y :: 0 <= y < |a| ==> |a[y]| == |b[y]|
    ensures |r| == |a| && forall y :: 0 <= y < |a| ==> r[y] == AddRow(a[y], b[y])
  {
    seq(|a|, y requires 0 <= y < |a| => AddRow(a[y], b[y]))
  }

  function AddDeltas(a: Deltas, b: Deltas): (r: Deltas)
    requires SameShape(a, b)
    ensures SameShape(r, a) && forall x :: 0 <= x < |a| ==> r[x] == AddRows(a[x], b[x])
  {
    seq(|a|, x requires 0 <= x < |a| => AddRows(a[x], b[x]))
  }

  /** Every slot has the shape of slot 0. */
  predicate Uniform(ds: seq<Deltas>)
  {
    |ds| > 0 && forall o :: 0 <= o < |ds| ==> SameShape(ds[o], ds[0])
  }

  /** Slot 0 after the first k slots have been added into it. */
  function Total(ds: seq<Deltas>, k: nat): (r: Deltas)
    requires Uniform(ds) && 1 <= k <= |ds|
    ensures SameShape(r, ds[0])
  {
    if k == 1 then ds[0] else AddDeltas(Total(ds, k - 1), ds[k - 1])
  }

  /** Entry (x, y, z) of every slot, in slot order. */
  function Column(ds: seq<Deltas>, k: nat, x: nat, y: nat, z: nat): (c: seq<real>)
    requires Uniform(ds) && k <= |ds|
    requires x < |ds[0]| && y < |ds[0][x]| && z < |ds[0][x][y]|
    ensures |c| == k
  {
    seq(k, o requires 0 <= o < k => ds[o][x][y][z])
  }

  /** After the summation loop, each entry of slot 0 is the sum of that entry
      over all slots. */
  lemma {:induction false} TotalIsSum(ds: seq<Deltas>, k: nat, x: nat, y: nat, z: nat)
    requires Uniform(ds) && 1 <= k <= |ds|
    requires x < |ds[0]| && y < |ds[0][x]| && z < |ds[0][x][y]|
    ensures Total(ds, k)[x][y][z] == Sum(Column(ds, k, x, y, z))
    decreases k
  {
    var c := Column(ds, k, x, y, z);
    if k == 1 {
      assert c == [] + [c[0]];
      SumAppend([], c[0]);
    } else {
      TotalIsSum(ds, k - 1, x, y, z);
      assert c[..k - 1] == Column(ds, k - 1, x, y, z);
    }
  }

  /** The innermost summation loop: one row of slot o added into slot 0. */
  method AddRowInto(acc: seq<real>, d: seq<real>) returns (r: seq<real>)
    requires |acc| == |d|
    ensures r == AddRow(acc, d)
  {
    r := [];
    for z := 0 to |d|
      invariant |r| == z && forall m :: 0 <= m < z ==> r[m] == acc[m] + d[m]
    {
      r := r + [acc[z] + d[z]];
    }
  }

  method AddLayerInto(acc: seq<seq<real>>, d: seq<seq<real>>) returns (r: seq<seq<real>>)
    requires |acc| == |d| && forall y :: 0 <= y < |acc| ==> |acc[y]| == |d[y]|
    ensures r == AddRows(acc, d)
  {
    r := [];
    for y := 0 to |d|
      invariant |r| == y && forall m :: 0 <= m < y ==> r[m] == AddRow(acc[m], d[m])
    {
      var row := AddRowInto(acc[y], d[y]);
      r := r + [row];
    }
  }

  method AddDeltasInto(acc: Deltas, d: Deltas) returns (r: Deltas)
    requires SameShape(acc, d)
    ensures r == AddDeltas(acc, d)
  {
    r := [];
    for x := 0 to |d|
      invariant |r| == x && forall m :: 0 <= m < x ==> r[m] == AddRows(acc[m], d[m])
    {
      var layer := AddLayerInto(acc[x], d[x]);
      r := r + [layer];
    }
  }

  /** The loop over slots 1, 2, ...: slot 0 ends as the total of all of them. */
  method SumSlots(ds: seq<Deltas>) returns (average: Deltas)
    requires Uniform(ds)
    ensures average == Total(ds, |ds|)
  {
    average := ds[0];
    for o := 1 to |ds|
      invariant average == Total(ds, o)
    {
      average := AddDeltasInto(average, ds[o]);
    }
  }

  // ---------------------------------------------------------------------------
  // Scaling and noise

  /** One entry: divided by BATCH_SIZE, times -lr, and when the first draw is
      below noiseFreq, plus the second draw mapped to [-1, 1) times
      noiseStrength. The position after the draws read comes second. */
  function ScaleEntry(v: real, lr: real, noiseFreq: real, noiseStrength: real, draws: nat -> real, pos: nat): (real, nat)
  {
    var w := v / BatchSize as real * -lr;
    if draws(pos) < noiseFreq then (w + Weight(draws, pos + 1) * noiseStrength, pos + 2) else (w, pos + 1)
  }

  function ScaleRow(row: seq<real>, lr: real, noiseFreq: real, noiseStrength: real, draws: nat -> real, pos: nat)
    : (r: (seq<real>, nat))
    ensures |r.0| == |row| && r.1 >= pos
  {
    if |row| == 0 then ([], pos)
    else
      var init := ScaleRow(row[..|row| - 1], lr, noiseFreq, noiseStrength, draws, pos);
      var last := ScaleEntry(row[|row| - 1], lr, noiseFreq, noiseStrength, draws, init.1);
      (init.0 + [last.0], last.1)
  }

  function ScaleRows(rows: seq<seq<real>>, lr: real, noiseFreq: real, noiseStrength: real, draws: nat -> real, pos: nat)
    : (r: (seq<seq<real>>, nat))
    ensures |r.0| == |rows| && r.1 >= pos
  {
    if |rows| == 0 then ([], pos)
    else
      var init := ScaleRows(rows[..|rows| - 1], lr, noiseFreq, noiseStrength, draws, pos);
      var last := ScaleRow(rows[|rows| - 1], lr, noiseFreq, noiseStrength, draws, init.1);
      (init.0 + [last.0], last.1)
  }

  function ScaleDeltas(d: Deltas, lr: real, noiseFreq: real, noiseStrength: real, draws: nat -> real, pos: nat)
    : (r: (Deltas, nat))
    ensures |r.0| == |d| && r.1 >= pos
  {
    if |d| == 0 then ([], pos)
    else
      var init := ScaleDeltas(d[..|d| - 1], lr, noiseFreq, noiseStrength, draws, pos);
      var last := ScaleRows(d[|d| - 1], lr, noiseFreq, noiseStrength, draws, init.1);
      (init.0 + [last.0], last.1)
  }

  /** The entry without noise. */
  function Scaled(v: real, lr: real): real
  {
    v / BatchSize as real * -lr
  }

  /** A noisy entry is off the scaled value by less than noiseStrength. */
  lemma NoiseBounded(v: real, lr: real, noiseFreq: real, noiseStrength: real, draws: nat -> real, pos: nat)
    requires UnitDraws(draws) && noiseStrength >= 0.0
    ensures var e := ScaleEntry(v, lr, noiseFreq, noiseStrength, draws, pos);
      Scaled(v, lr) - noiseStrength <= e.0 <= Scaled(v, lr) + noiseStrength
    ensures var e := ScaleEntry(v, lr, noiseFreq, noiseStrength, draws, pos);
      e.1 == if draws(pos) < noiseFreq then pos + 2 else pos + 1
  {
    var u := Weight(draws, pos + 1);
    assert 0.0 <= 1.0 - u && 0.0 <= u + 1.0;
    NonNegativeProduct(1.0 - u, noiseStrength);
    NonNegativeProduct(u + 1.0, noiseStrength);
  }

  lemma NonNegativeProduct(a: real, b: real)
    requires a >= 0.0 && b >= 0.0
    ensures a * b >= 0.0
  {
  }

  /** With noiseFreq <= 0 no draw is below it: every entry is just scaled and
      one draw is read per entry. */
  lemma {:induction false} NoNoiseRow(row: seq<real>, lr: real, noiseFreq: real, noiseStrength: real, draws: nat -> real, pos: nat)
    requires UnitDraws(draws) && noiseFreq <= 0.0
    ensures var r := ScaleRow(row, lr, noiseFreq, noiseStrength, draws, pos);
      r.1 == pos + |row| && forall z :: 0 <= z < |row| ==> r.0[z] == Scaled(row[z], lr)
    decreases |row|
  {
    if |row| > 0 {
      NoNoiseRow(row[..|row| - 1], lr, noiseFreq, noiseStrength, draws, pos);
      var init := ScaleRow(row[..|row| - 1], lr, noiseFreq, noiseStrength, draws, pos);
      assert draws(init.1) >= 0.0;
    }
  }

  /** The number of entries of a layer's rows, and of all layers. */
  function RowsSize(rows: seq<seq<real>>): nat
  {
    if |rows| == 0 then 0 else RowsSize(rows[..|rows| - 1]) + |rows[|rows| - 1]|
  }

  function DeltasSize(d: Deltas): nat
  {
    if |d| == 0 then 0 else DeltasSize(d[..|d| - 1]) + RowsSize(d[|d| - 1])
  }

  lemma {:induction false} NoNoiseRows(rows: seq<seq<real>>, lr: real, noiseFreq: real, noiseStrength: real, draws: nat -> real, pos: nat)
    requires UnitDraws(draws) && noiseFreq <= 0.0
    ensures var r := ScaleRows(rows, lr, noiseFreq, noiseStrength, draws, pos);
      r.1 == pos + RowsSize(rows) &&
      forall y :: 0 <= y < |rows| ==> |r.0[y]| == |rows[y]| && forall z :: 0 <= z < |rows[y]| ==> r.0[y][z] == Scaled(rows[y][z], lr)
    decreases |rows|
  {
    if |rows| > 0 {
      var n := |rows| - 1;
      NoNoiseRows(rows[..n], lr, noiseFreq, noiseStrength, draws, pos);
      var init := ScaleRows(rows[..n], lr, noiseFreq, noiseStrength, draws, pos);
      NoNoiseRow(rows[n], lr, noiseFreq, noiseStrength, draws, init.1);
    }
  }

  /** Without noise the averaged deltas are sum / BATCH_SIZE * (-lr), entry by entry. */
  lemma {:induction false} NoNoise(d: Deltas, lr: real, noiseFreq: real, noiseStrength: real, draws: nat -> real, pos: nat)
    requires UnitDraws(draws) && noiseFreq <= 0.0
    ensures var r := ScaleDeltas(d, lr, noiseFreq, noiseStrength, draws, pos);
      r.1 == pos + DeltasSize(d) && SameShape(r.0, d) &&
      forall x, y, z :: 0 <= x < |d| && 0 <= y < |d[x]| && 0 <= z < |d[x][y]| ==> r.0[x][y][z] == Scaled(d[x][y][z], lr)
    decreases |d|
  {
    if |d| > 0 {
      var n := |d| - 1;
      NoNoise(d[..n], lr, noiseFreq, noiseStrength, draws, pos);
      var init := ScaleDeltas(d[..n], lr, noiseFreq, noiseStrength, draws, pos);
      NoNoiseRows(d[n], lr, noiseFreq, noiseStrength, draws, init.1);
    }
  }

  /** The scaling loops over slot 0: /= BATCH_SIZE, *= -lr, then the noise test. */
  method ScaleEntryMethod(v: real, lr: real, noiseFreq: real, noiseStrength: real, draws: nat -> real, pos: nat)
    returns (w: real, next: nat)
    ensures (w, next) == ScaleEntry(v, lr, noiseFreq, noiseStrength, draws, pos)
  {
    w := v / BatchSize as real;
    w := w * -lr;
    next := pos + 1;
    if draws(pos) < noiseFreq {
      w := w + Weight(draws, next) * noiseStrength;
      next := next + 1;
    }
    assert w == ScaleEntry(v, lr, noiseFreq, noiseStrength, draws, pos).0;
    assert next == ScaleEntry(v, lr, noiseFreq, noiseStrength, draws, pos).1;
  }

  method ScaleRowMethod(row: seq<real>, lr: real, noiseFreq: real, noiseStrength: real, draws: nat -> real, pos: nat)
    returns (r: seq<real>, next: nat)
    ensures (r, next) == ScaleRow(row, lr, noiseFreq, noiseStrength, draws, pos)
  {
    r, next := [], pos;
    for z := 0 to |row|
      invariant (r, next) == ScaleRow(row[..z], lr, noiseFreq, noiseStrength, draws, pos)
    {
      assert row[..z + 1][..z] == row[..z];
      var w;
      w, next := ScaleEntryMethod(row[z], lr, noiseFreq, noiseStrength, draws, next);
      r := r + [w];
    }
    assert row[..|row|] == row;
  }

  method ScaleRowsMethod(rows: seq<seq<real>>, lr: real, noiseFreq: real, noiseStrength: real, draws: nat -> real, pos: nat)
    returns (r: seq<seq<real>>, next: nat)
    ensures (r, next) == ScaleRows(rows, lr, noiseFreq, noiseStrength, draws, pos)
  {
    r, next := [], pos;
    for y := 0 to |rows|
      invariant (r, next) == ScaleRows(rows[..y], lr, noiseFreq, noiseStrength, draws, pos)
    {
      assert rows[..y + 1][..y] == rows[..y];
      var row;
      row, next := ScaleRowMethod(rows[y], lr, noiseFreq, noiseStrength, draws, next);
      r := r + [row];
    }
    assert rows[..|rows|] == rows;
  }

  method ScaleDeltasMethod(d: Deltas, lr: real, noiseFreq: real, noiseStrength: real, draws: nat -> real, pos: nat)
    returns (r: Deltas, next: nat)
    ensures (r, next) == ScaleDeltas(d, lr, noiseFreq, noiseStrength, draws, pos)
  {
    r, next := [], pos;
    for x := 0 to |d|
      invariant (r, next) == ScaleDeltas(d[..x], lr, noiseFreq, noiseStrength, draws, pos)
    {
      assert d[..x + 1][..x] == d[..x];
      var layer;
      layer, next := ScaleRowsMethod(d[x], lr, noiseFreq, noiseStrength, draws, next);
      r := r + [layer];
    }
    assert d[..|d|] == d;
  }

  // ---------------------------------------------------------------------------
  // The weight update

  /** Each row of changes reaches a neuron and holds a change for every weight
      and, last, one for the bias. */
  predicate RowsFit(layer: LayerV, rows: seq<seq<real>>)
  {
    |rows| <= |layer| && forall y :: 0 <= y < |rows| ==> |rows[y]| >= |layer[y].weights| + 1
  }

  /** getLayers()[x].getNeurons()[y] exists for every row of changes. */
  predicate ChangesFit(net: NetworkV, avg: Deltas)
  {
    |avg| <= |net| && forall x :: 0 <= x < |avg| ==> RowsFit(net[x], avg[x])
  }

  /** A neuron after addToConnections(the row without its last entry) and
      addToBias(the last entry). */
  function Nudged(n: NeuronV, row: seq<real>): NeuronV
    requires |row| >= |n.weights| + 1
  {
    NeuronV(AddRow(n.weights, row[..|n.weights|]), n.bias + row[|row| - 1])
  }

  /** A layer whose first |rows| neurons are nudged by their rows. */
  function NudgedLayer(layer: LayerV, rows: seq<seq<real>>): (r: LayerV)
    requires RowsFit(layer, rows)
    ensures |r| == |layer|
  {
    seq(|layer|, y requires 0 <= y < |layer| => if y < |rows| then Nudged(layer[y], rows[y]) else layer[y])
  }

  /** The network after the update loops over the averaged changes. */
  function Updated(net: NetworkV, avg: Deltas): (r: NetworkV)
    requires ChangesFit(net, avg)
    ensures |r| == |net|
  {
    seq(|net|, x requires 0 <= x < |net| => if x < |avg| then NudgedLayer(net[x], avg[x]) else net[x])
  }

  /** The same number of layers, of neurons per layer and of weights per neuron. */
  predicate SameArchitecture(a: NetworkV, b: NetworkV)
  {
    |a| == |b| &&
    forall x :: 0 <= x < |a| ==> (|a[x]| == |b[x]| &&
      forall y :: 0 <= y < |a[x]| ==> |a[x][y].weights| == |b[x][y].weights|)
  }

  /** The update changes values only: the architecture, and with it every
      sample's fit, stays. */
  lemma UpdateKeepsArchitecture(net: NetworkV, avg: Deltas, data: seq<DataPoint>)
    requires ChangesFit(net, avg)
    ensures SameArchitecture(net, Updated(net, avg))
    ensures AllFit(net, data) <==> AllFit(Updated(net, avg), data)
  {
    var u: NetworkV := Updated(net, avg);
    forall x | 0 <= x < |net|
      ensures |u[x]| == |net[x]| && forall y :: 0 <= y < |net[x]| ==> |u[x][y].weights| == |net[x][y].weights|
    {
    }
    SameArchitectureFits(net, u, data);
  }

  lemma SameArchitectureFits(a: NetworkV, b: NetworkV, data: seq<DataPoint>)
    requires SameArchitecture(a, b)
    ensures AllFit(a, data) <==> AllFit(b, data)
  {
    forall n: nat ensures Shaped(a, n) <==> Shaped(b, n) {
      if Shaped(a, n) {
        forall l, j | 0 <= l < |b| && 0 <= j < |b[l]| ensures |b[l][j].weights| == if l == 0 then n else |b[l - 1]| {
          assert |b[l][j].weights| == |a[l][j].weights|;
        }
      }
      if Shaped(b, n) {
        forall l, j | 0 <= l < |a| && 0 <= j < |a[l]| ensures |a[l][j].weights| == if l == 0 then n else |a[l - 1]| {
          assert |b[l][j].weights| == |a[l][j].weights|;
        }
      }
    }
  }

  /** In array form, nudging a neuron adds its row to the neuron's row. */
  lemma NudgedArray(n: NeuronV, row: seq<real>)
    requires |row| == |n.weights| + 1
    ensures ToArray(Nudged(n, row)) == AddRow(ToArray(n), row)
  {
    var a, b := ToArray(Nudged(n, row)), AddRow(ToArray(n), row);
    assert |a| == |b|;
    forall z | 0 <= z < |a| ensures a[z] == b[z] {
      if z < |n.weights| {
        assert a[z] == Nudged(n, row).weights[z];
      }
    }
  }

  /** The update adds the changes to toArray's form of the network, entry for
      entry, when they have the network's shape. */
  lemma UpdateAddsChanges(net: NetworkV, avg: Deltas)
    requires DeltasFor(net, avg) && NetworkToArray(net).Ok?
    ensures ChangesFit(net, avg) && SameShape(NetworkToArray(net).value, avg)
    ensures NetworkToArray(Updated(net, avg)) == Ok(AddDeltas(NetworkToArray(net).value, avg))
  {
    var a := NetworkToArray(net).value;
    assert ChangesFit(net, avg);
    var u: NetworkV := Updated(net, avg);
    UpdateKeepsArchitecture(net, avg, []);
    assert NetworkToArray(u).Ok? by {
      if exists l :: 0 <= l < |u| && |u[l]| == 0 {
        var l :| 0 <= l < |u| && |u[l]| == 0;
        assert |net[l]| == 0;
      }
    }
    var b := NetworkToArray(u).value;
    var sum := AddDeltas(a, avg);
    forall x | 0 <= x < |net| ensures b[x] == sum[x] {
      assert |b[x]| == |u[x]| == |net[x]| == |sum[x]|;
      forall y | 0 <= y < |net[x]| ensures b[x][y] == sum[x][y] {
        assert b[x][y] == ToArray(u[x][y]) && u[x][y] == Nudged(net[x][y], avg[x][y]);
        assert a[x][y] == ToArray(net[x][y]);
        NudgedArray(net[x][y], avg[x][y]);
      }
    }
    assert b == sum;
  }

  /** addToConnections of the row without its last entry, then addToBias of
      that entry, on neuron y. */
  method UpdateNeuron(layer: Layer, y: nat, row: seq<real>)
    requires layer.Valid() && y < layer.neurons.Length && |row| >= |layer.View()[y].weights| + 1
    modifies layer.neurons[y], layer.neurons[y].connections
    ensures layer.Valid() && layer.View() == old(layer.View())[y := Nudged(old(layer.View())[y], row)]
  {
    ghost var before := layer.View();
    var n := layer.neurons[y];
    assert n.View() == before[y];
    n.AddToConnections(row[..|row| - 1]);
    n.AddToBias(row[|row| - 1]);
    assert n.View() == Nudged(before[y], row);
    ghost var after := layer.View();
    forall i | 0 <= i < |before| ensures after[i] == before[y := Nudged(before[y], row)][i] {
      if i != y {
        assert layer.neurons[i] != n && layer.neurons[i].connections != n.connections;
      }
    }
  }

  /** The rows loop of one layer. */
  method UpdateLayer(layer: Layer, rows: seq<seq<real>>)
    requires layer.Valid() && RowsFit(layer.View(), rows)
    modifies layer.Repr
    ensures layer.Valid() && layer.View() == NudgedLayer(old(layer.View()), rows)
  {
    ghost var v := layer.View();
    for y := 0 to |rows|
      invariant layer.Valid() && layer.View() == NudgedLayer(v, rows[..y])
    {
      UpdateNeuron(layer, y, rows[y]);
      assert NudgedLayer(v, rows[..y])[y := Nudged(v[y], rows[y])] == NudgedLayer(v, rows[..y + 1]);
    }
    assert rows[..|rows|] == rows;
  }

  /** One iteration of the layers loop: layer x's rows. */
  method UpdateOneLayer(network: NeuralNetwork, x: nat, rows: seq<seq<real>>)
    requires network.Valid() && x < network.layers.Length && RowsFit(network.View()[x], rows)
    modifies network.layers[x].Repr
    ensures network.Valid()
    ensures network.View() == old(network.View())[x := NudgedLayer(old(network.View())[x], rows)]
  {
    ghost var before := network.View();
    var l := network.layers[x];
    ghost var ls := network.layers[..];
    assert l.View() == before[x];
    label beforeUpdate:
    UpdateLayer(l, rows);
    forall k | 0 <= k < |ls| && k != x ensures ls[k].Valid() && ls[k].View() == old@beforeUpdate(ls[k].View()) {
      assert ls[k].Repr !! l.Repr;
    }
    assert network.Valid();
  }

  /** The layers loop: layer x of the network nudged by avg[x], for every x
      of the averaged changes. */
  method UpdateNetwork(network: NeuralNetwork, avg: Deltas)
    requires network.Valid() && ChangesFit(network.View(), avg)
    modifies network.Repr
    ensures network.Valid() && network.View() == Updated(old(network.View()), avg)
  {
    ghost var v := network.View();
    for x := 0 to |avg|
      invariant network.Valid() && network.View() == Updated(v, avg[..x])
    {
      assert network.View()[x] == v[x];
      UpdateOneLayer(network, x, avg[x]);
      assert Updated(v, avg[..x])[x := NudgedLayer(v[x], avg[x])] == Updated(v, avg[..x + 1]);
    }
    assert avg[..|avg|] == avg;
  }

  // ---------------------------------------------------------------------------
  // Accuracy and certainty

  /** The accuracy loops index outputs[i][j] for every j of predictions[i]. */
  predicate AccuracyDefined(outputs: seq<seq<real>>, predictions: seq<seq<real>>)
  {
    |predictions| > 0 && |outputs| >= |predictions| &&
    forall i :: 0 <= i < |predictions| ==> |outputs[i]| >= |predictions[i]|
  }

  /** The j < m with target 1 and prediction above one half. */
  function RowHits(out: seq<real>, pred: seq<real>, m: nat): nat
    requires m <= |out| && m <= |pred|
  {
    if m == 0 then 0
    else RowHits(out, pred, m - 1) + if out[m - 1] == 1.0 && pred[m - 1] > 0.5 then 1 else 0
  }

  /** The hits of the first i samples, each over its prediction's length. */
  function Hits(outputs: seq<seq<real>>, predictions: seq<seq<real>>, i: nat): nat
    requires i <= |predictions| <= |outputs|
    requires forall r :: 0 <= r < |predictions| ==> |outputs[r]| >= |predictions[r]|
  {
    if i == 0 then 0
    else Hits(outputs, predictions, i - 1) + RowHits(outputs[i - 1], predictions[i - 1], |predictions[i - 1]|)
  }

  /** accuracy: the hits per sample, as a percentage. */
  function Accuracy(outputs: seq<seq<real>>, predictions: seq<seq<real>>): real
    requires AccuracyDefined(outputs, predictions)
  {
    Hits(outputs, predictions, |predictions|) as real / |predictions| as real * 100.0
  }

  /** The certainty loops index predictions[i][j] for every j of outputs[i]. */
  predicate CertaintyDefined(outputs: seq<seq<real>>, predictions: seq<seq<real>>)
  {
    |outputs| > 0 && |predictions| >= |outputs| &&
    forall i :: 0 <= i < |outputs| ==> |predictions[i]| >= |outputs[i]|
  }

  /** The predictions at the j < m whose target is 1, summed. */
  function RowCertainty(out: seq<real>, pred: seq<real>, m: nat): real
    requires m <= |out| && m <= |pred|
  {
    if m == 0 then 0.0
    else RowCertainty(out, pred, m - 1) + if out[m - 1] == 1.0 then pred[m - 1] else 0.0
  }

  function Certainties(outputs: seq<seq<real>>, predictions: seq<seq<real>>, i: nat): real
    requires i <= |outputs| <= |predictions|
    requires forall r :: 0 <= r < |outputs| ==> |predictions[r]| >= |outputs[r]|
  {
    if i == 0 then 0.0
    else Certainties(outputs, predictions, i - 1) + RowCertainty(outputs[i - 1], predictions[i - 1], |outputs[i - 1]|)
  }

  /** certainty: the predictions of the target classes per sample, as a percentage. */
  function Certainty(outputs: seq<seq<real>>, predictions: seq<seq<real>>): real
    requires CertaintyDefined(outputs, predictions)
  {
    Certainties(outputs, predictions, |outputs|) / |outputs| as real * 100.0
  }

  /** A one-hot target whose 1 is at k. */
  predicate HotAt(out: seq<real>, k: nat)
  {
    k < |out| && out[k] == 1.0 && forall j :: 0 <= j < |out| && j != k ==> out[j] == 0.0
  }

  /** Each sample i has a one-hot target at hots[i] and a prediction of the
      target's length. */
  predicate OneHotTargets(outputs: seq<seq<real>>, predictions: seq<seq<real>>, hots: seq<nat>)
  {
    |outputs| == |predictions| == |hots| &&
    forall i :: 0 <= i < |hots| ==> HotAt(outputs[i], hots[i]) && |predictions[i]| == |outputs[i]|
  }

  lemma {:induction false} RowHitsHot(out: seq<real>, pred: seq<real>, k: nat, m: nat)
    requires HotAt(out, k) && m <= |out| && m <= |pred|
    ensures RowHits(out, pred, m) == if k < m && pred[k] > 0.5 then 1 else 0
    decreases m
  {
    if m > 0 {
      RowHitsHot(out, pred, k, m - 1);
    }
  }

  lemma {:induction false} RowCertaintyHot(out: seq<real>, pred: seq<real>, k: nat, m: nat)
    requires HotAt(out, k) && m <= |out| && m <= |pred|
    ensures RowCertainty(out, pred, m) == if k < m then pred[k] else 0.0
    decreases m
  {
    if m > 0 {
      RowCertaintyHot(out, pred, k, m - 1);
    }
  }

  /** The first i samples whose target class is predicted above one half. */
  function Recognised(predictions: seq<seq<real>>, hots: seq<nat>, i: nat): (r: nat)
    requires i <= |predictions| && i <= |hots|
    requires forall r :: 0 <= r < i ==> hots[r] < |predictions[r]|
    ensures r <= i
  {
    if i == 0 then 0
    else Recognised(predictions, hots, i - 1) + if predictions[i - 1][hots[i - 1]] > 0.5 then 1 else 0
  }

  /** The target class's predictions of the first i samples, summed. */
  function HotTotal(predictions: seq<seq<real>>, hots: seq<nat>, i: nat): real
    requires i <= |predictions| && i <= |hots|
    requires forall r :: 0 <= r < i ==> hots[r] < |predictions[r]|
  {
    if i == 0 then 0.0 else HotTotal(predictions, hots, i - 1) + predictions[i - 1][hots[i - 1]]
  }

  lemma {:induction false} HitsAreRecognised(outputs: seq<seq<real>>, predictions: seq<seq<real>>, hots: seq<nat>, i: nat)
    requires OneHotTargets(outputs, predictions, hots) && i <= |hots|
    ensures Hits(outputs, predictions, i) == Recognised(predictions, hots, i)
    decreases i
  {
    if i > 0 {
      HitsAreRecognised(outputs, predictions, hots, i - 1);
      RowHitsHot(outputs[i - 1], predictions[i - 1], hots[i - 1], |predictions[i - 1]|);
    }
  }

  lemma {:induction false} CertaintiesAreHotTotal(outputs: seq<seq<real>>, predictions: seq<seq<real>>, hots: seq<nat>, i: nat)
    requires OneHotTargets(outputs, predictions, hots) && i <= |hots|
    ensures Certainties(outputs, predictions, i) == HotTotal(predictions, hots, i)
    decreases i
  {
    if i > 0 {
      CertaintiesAreHotTotal(outputs, predictions, hots, i - 1);
      RowCertaintyHot(outputs[i - 1], predictions[i - 1], hots[i - 1], |outputs[i - 1]|);
    }
  }

  /** All of the first i samples are recognised exactly when the count is i. */
  lemma {:induction false} RecognisedAll(predictions: seq<seq<real>>, hots: seq<nat>, i: nat)
    requires i <= |predictions| && i <= |hots|
    requires forall r :: 0 <= r < i ==> hots[r] < |predictions[r]|
    ensures Recognised(predictions, hots, i) == i <==> forall r :: 0 <= r < i ==> predictions[r][hots[r]] > 0.5
    decreases i
  {
    if i > 0 {
      RecognisedAll(predictions, hots, i - 1);
    }
  }

  /** Predictions in [0, 1] give a total between 0 and the number of samples. */
  lemma {:induction false} HotTotalBounds(predictions: seq<seq<real>>, hots: seq<nat>, i: nat)
    requires i <= |predictions| && i <= |hots|
    requires forall r :: 0 <= r < i ==> hots[r] < |predictions[r]| && 0.0 <= predictions[r][hots[r]] <= 1.0
    ensures 0.0 <= HotTotal(predictions, hots, i) <= i as real
    decreases i
  {
    if i > 0 {
      HotTotalBounds(predictions, hots, i - 1);
    }
  }

  lemma Percentage(a: real, n: real)
    requires 0.0 <= a <= n && n > 0.0
    ensures 0.0 <= a / n * 100.0 <= 100.0
    ensures a / n * 100.0 == 100.0 <==> a == n
  {
    assert a / n <= 1.0 by {
      assert a / n * n == a;
    }
  }

  /** With one-hot targets the accuracy is the share of samples whose target
      class is predicted above one half, as a percentage in [0, 100], and it
      is 100 exactly when every sample is recognised. */
  lemma AccuracyOneHot(outputs: seq<seq<real>>, predictions: seq<seq<real>>, hots: seq<nat>)
    requires OneHotTargets(outputs, predictions, hots) && |hots| > 0
    ensures AccuracyDefined(outputs, predictions)
    ensures Accuracy(outputs, predictions) == Recognised(predictions, hots, |hots|) as real / |hots| as real * 100.0
    ensures 0.0 <= Accuracy(outputs, predictions) <= 100.0
    ensures Accuracy(outputs, predictions) == 100.0 <==> forall i :: 0 <= i < |hots| ==> predictions[i][hots[i]] > 0.5
  {
    HitsAreRecognised(outputs, predictions, hots, |hots|);
    RecognisedAll(predictions, hots, |hots|);
    Percentage(Recognised(predictions, hots, |hots|) as real, |hots| as real);
  }

  /** With one-hot targets the certainty is the mean prediction of the target
      classes as a percentage, in [0, 100] when predictions lie in [0, 1]. */
  lemma CertaintyOneHot(outputs: seq<seq<real>>, predictions: seq<seq<real>>, hots: seq<nat>)
    requires OneHotTargets(outputs, predictions, hots) && |hots| > 0
    ensures CertaintyDefined(outputs, predictions)
    ensures Certainty(outputs, predictions) == HotTotal(predictions, hots, |hots|) / |hots| as real * 100.0
    ensures (forall i :: 0 <= i < |hots| ==> 0.0 <= predictions[i][hots[i]] <= 1.0) ==>
      0.0 <= Certainty(outputs, predictions) <= 100.0
  {
    CertaintiesAreHotTotal(outputs, predictions, hots, |hots|);
    if forall i :: 0 <= i < |hots| ==> 0.0 <= predictions[i][hots[i]] <= 1.0 {
      HotTotalBounds(predictions, hots, |hots|);
      Percentage(HotTotal(predictions, hots, |hots|), |hots| as real);
    }
  }

  /** The accuracy loops: ++accuracy for every hit, then /= size and *= 100. */
  method AccuracyMethod(outputs: seq<seq<real>>, predictions: seq<seq<real>>) returns (accuracy: real)
    requires AccuracyDefined(outputs, predictions)
    ensures accuracy == Accuracy(outputs, predictions)
  {
    accuracy := 0.0;
    for i := 0 to |predictions|
      invariant accuracy == Hits(outputs, predictions, i) as real
    {
      accuracy := AddRowHits(accuracy, outputs[i], predictions[i]);
    }
    accuracy := accuracy / |predictions| as real;
    accuracy := accuracy * 100.0;
  }

  method AddRowHits(acc: real, out: seq<real>, pred: seq<real>) returns (r: real)
    requires |out| >= |pred|
    ensures r == acc + RowHits(out, pred, |pred|) as real
  {
    r := acc;
    for j := 0 to |pred|
      invariant r == acc + RowHits(out, pred, j) as real
    {
      if out[j] == 1.0 && pred[j] > 0.5 {
        r := r + 1.0;
      }
    }
  }

  /** The certainty loops: the prediction of every target class added, then
      /= size and *= 100. */
  method CertaintyMethod(outputs: seq<seq<real>>, predictions: seq<seq<real>>) returns (certainty: real)
    requires CertaintyDefined(outputs, predictions)
    ensures certainty == Certainty(outputs, predictions)
  {
    certainty := 0.0;
    for i := 0 to |outputs|
      invariant certainty == Certainties(outputs, predictions, i)
    {
      certainty := AddRowCertainty(certainty, outputs[i], predictions[i]);
    }
    certainty := certainty / |outputs| as real;
    certainty := certainty * 100.0;
  }

  method AddRowCertainty(acc: real, out: seq<real>, pred: seq<real>) returns (r: real)
    requires |pred| >= |out|
    ensures r == acc + RowCertainty(out, pred, |out|)
  {
    r := acc;
    for j := 0 to |out|
      invariant r == acc + RowCertainty(out, pred, j)
    {
      if out[j] == 1.0 {
        r := r + pred[j];
      }
    }
  }

  // ---------------------------------------------------------------------------
  // One batch of an epoch

  /** Deltas of one shape agree in shape with any other of that shape. */
  lemma DeltasForShapes(net: NetworkV, a: Deltas, b: Deltas)
    requires DeltasFor(net, a)
    ensures DeltasFor(net, b) ==> SameShape(a, b)
    ensures SameShape(b, a) ==> DeltasFor(net, b)
  {
  }

  lemma DeltasForFit(net: NetworkV, d: Deltas)
    requires DeltasFor(net, d)
    ensures ChangesFit(net, d)
  {
  }

  lemma {:induction false} ScaleRowsShape(rows: seq<seq<real>>, lr: real, noiseFreq: real, noiseStrength: real, draws: nat -> real, pos: nat)
    ensures forall y :: 0 <= y < |rows| ==> |ScaleRows(rows, lr, noiseFreq, noiseStrength, draws, pos).0[y]| == |rows[y]|
    decreases |rows|
  {
    if |rows| > 0 {
      ScaleRowsShape(rows[..|rows| - 1], lr, noiseFreq, noiseStrength, draws, pos);
    }
  }

  /** Scaling keeps the shape of the summed deltas. */
  lemma {:induction false} ScaleDeltasShape(d: Deltas, lr: real, noiseFreq: real, noiseStrength: real, draws: nat -> real, pos: nat)
    ensures SameShape(ScaleDeltas(d, lr, noiseFreq, noiseStrength, draws, pos).0, d)
    decreases |d|
  {
    if |d| > 0 {
      var n := |d| - 1;
      ScaleDeltasShape(d[..n], lr, noiseFreq, noiseStrength, draws, pos);
      var init := ScaleDeltas(d[..n], lr, noiseFreq, noiseStrength, draws, pos);
      ScaleRowsShape(d[n], lr, noiseFreq, noiseStrength, draws, init.1);
    }
  }

  /** desiredChanges for batch b: slot k holds the deltas of sample start + k
      (BatchSlotsAt). */
  function BatchSlots(math: Transcendentals, net: NetworkV, data: seq<DataPoint>, b: nat): (ds: seq<Deltas>)
    requires Lawful(math) && AllFit(net, data) && b < BatchesPerEpoch(|data|)
    ensures BatchStart(b) < BatchEnd(b, |data|) <= |data| && |ds| == BatchEnd(b, |data|) - BatchStart(b)
  {
    BatchBounds(|data|, b);
    Filled(math, net, data, BatchStart(b), BatchEnd(b, |data|) - BatchStart(b))
  }

  lemma BatchSlotsAt(math: Transcendentals, net: NetworkV, data: seq<DataPoint>, b: nat)
    requires Lawful(math) && AllFit(net, data) && b < BatchesPerEpoch(|data|)
    ensures var ds := BatchSlots(math, net, data, b);
      forall k :: 0 <= k < |ds| ==> ds[k] == SampleDeltas(math, net, data[BatchStart(b) + k])
  {
    hide SampleDeltas;
    BatchBounds(|data|, b);
    FilledAt(math, net, data, BatchStart(b), BatchEnd(b, |data|) - BatchStart(b));
  }

  /** The slots of a batch all have the network's shape. */
  lemma BatchSlotsUniform(math: Transcendentals, net: NetworkV, data: seq<DataPoint>, b: nat)
    requires Lawful(math) && AllFit(net, data) && b < BatchesPerEpoch(|data|)
    ensures var ds := BatchSlots(math, net, data, b); Uniform(ds) && DeltasFor(net, ds[0])
  {
    BatchSlotsAt(math, net, data, b);
    SlotsUniform(math, net, data, BatchStart(b), BatchSlots(math, net, data, b));
  }

  lemma SlotsUniform(math: Transcendentals, net: NetworkV, data: seq<DataPoint>, start: nat, ds: seq<Deltas>)
    requires Lawful(math) && AllFit(net, data) && |ds| > 0 && start + |ds| <= |data|
    requires forall k :: 0 <= k < |ds| ==> ds[k] == SampleDeltas(math, net, data[start + k])
    ensures Uniform(ds) && DeltasFor(net, ds[0])
  {
    forall o | 0 <= o < |ds| ensures DeltasFor(net, ds[o]) {
      SampleDeltasShape(math, net, data[start + o]);
    }
    forall o | 0 <= o < |ds| ensures SameShape(ds[o], ds[0]) {
      DeltasForShapes(net, ds[0], ds[o]);
    }
  }

  /** The learning rate, position in the random stream and network between batches. */
  datatype Progress = Progress(net: NetworkV, rate: CyclicState, pos: nat)

  /** Slot 0 of a batch after the summation loop. */
  function BatchTotal(math: Transcendentals, net: NetworkV, data: seq<DataPoint>, b: nat): (r: Deltas)
    requires Lawful(math) && AllFit(net, data) && b < BatchesPerEpoch(|data|)
    ensures DeltasFor(net, r)
  {
    var slots := BatchSlots(math, net, data, b);
    BatchSlotsUniform(math, net, data, b);
    DeltasForShapes(net, slots[0], Total(slots, |slots|));
    Total(slots, |slots|)
  }

  /** Slot 0 of a batch after the summation and scaling loops, with the
      position in the random stream after them. */
  function BatchChanges(math: Transcendentals, net: NetworkV, lr: real, data: seq<DataPoint>, b: nat,
                        noiseFreq: real, noiseStrength: real, draws: nat -> real, pos: nat): (r: (Deltas, nat))
    requires Lawful(math) && AllFit(net, data) && b < BatchesPerEpoch(|data|)
    ensures DeltasFor(net, r.0) && ChangesFit(net, r.0)
  {
    var total := BatchTotal(math, net, data, b);
    ScaleDeltasShape(total, lr, noiseFreq, noiseStrength, draws, pos);
    DeltasForShapes(net, total, ScaleDeltas(total, lr, noiseFreq, noiseStrength, draws, pos).0);
    DeltasForFit(net, ScaleDeltas(total, lr, noiseFreq, noiseStrength, draws, pos).0);
    ScaleDeltas(total, lr, noiseFreq, noiseStrength, draws, pos)
  }

  /** One batch: get the learning rate, sum the batch's deltas into slot 0,
      scale them with noise, and update the network. */
  function BatchStep(math: Transcendentals, p: Progress, data: seq<DataPoint>, b: nat,
                     noiseFreq: real, noiseStrength: real, draws: nat -> real): (r: Progress)
    requires Lawful(math) && AllFit(p.net, data) && GetDefined(p.rate) && b < BatchesPerEpoch(|data|)
    ensures AllFit(r.net, data) && SameArchitecture(p.net, r.net) && r.rate == AfterGet(p.rate)
  {
    var changes := BatchChanges(math, p.net, CyclicRate(p.rate, math.cos), data, b, noiseFreq, noiseStrength, draws, p.pos);
    UpdateKeepsArchitecture(p.net, changes.0, data);
    Progress(Updated(p.net, changes.0), AfterGet(p.rate), changes.1)
  }

  /** The policy after n calls of get: only the counter moves. */
  function Advanced(rate: CyclicState, n: nat): CyclicState
  {
    rate.(batchesSinceRestart := rate.batchesSinceRestart + n)
  }

  /** The first k batches of an epoch over `data`. */
  function Batches(math: Transcendentals, p: Progress, data: seq<DataPoint>, k: nat,
                   noiseFreq: real, noiseStrength: real, draws: nat -> real): (r: Progress)
    requires Lawful(math) && AllFit(p.net, data) && GetDefined(p.rate) && k <= BatchesPerEpoch(|data|)
    ensures AllFit(r.net, data) && r.rate == Advanced(p.rate, k)
  {
    if k == 0 then p
    else BatchStep(math, Batches(math, p, data, k - 1, noiseFreq, noiseStrength, draws), data, k - 1, noiseFreq, noiseStrength, draws)
  }

  /** Every batch updates the network with a learning rate between the
      policy's minimum 0.01 and maximum 0.1. */
  lemma BatchRate(math: Transcendentals, p: Progress, data: seq<DataPoint>, k: nat,
                  noiseFreq: real, noiseStrength: real, draws: nat -> real)
    requires Lawful(math) && AllFit(p.net, data) && GetDefined(p.rate) && k < BatchesPerEpoch(|data|)
    requires p.rate.minLearningRate == 0.01 && p.rate.maxLearningRate == 0.1
    ensures var q := Batches(math, p, data, k, noiseFreq, noiseStrength, draws);
      GetDefined(q.rate) && 0.01 <= CyclicRate(q.rate, math.cos) <= 0.1
  {
  }

  /** batchBackPropagate, the summation and the scaling of one batch;
      nothing in the network changes. */
  method ComputeChanges(math: Transcendentals, network: NeuralNetwork, lr: real, data: seq<DataPoint>, b: nat,
                        noiseFreq: real, noiseStrength: real, draws: nat -> real, pos: nat) returns (average: Deltas, next: nat)
    requires network.Valid() && Lawful(math) && AllFit(network.View(), data) && b < BatchesPerEpoch(|data|)
    ensures (average, next) == BatchChanges(math, network.View(), lr, data, b, noiseFreq, noiseStrength, draws, pos)
  {
    hide SampleDeltas;
    ghost var net := network.View();
    var desired := CollectSlots(math, network, data, b);
    BatchSlotsUniform(math, net, data, b);
    average := SumSlots(desired);
    assert average == BatchTotal(math, net, data, b);
    average, next := ScaleDeltasMethod(average, lr, noiseFreq, noiseStrength, draws, pos);
  }

  /** batchBackPropagate(dataPoints, batchStart, batchEnd) for batch b. */
  method CollectSlots(math: Transcendentals, network: NeuralNetwork, data: seq<DataPoint>, b: nat) returns (desired: seq<Deltas>)
    requires network.Valid() && Lawful(math) && AllFit(network.View(), data) && b < BatchesPerEpoch(|data|)
    ensures desired == BatchSlots(math, network.View(), data, b)
  {
    hide SampleDeltas;
    var batchStart := BatchStart(b);
    var batchEnd := BatchEnd(b, |data|);
    BatchBounds(|data|, b);
    desired := BatchBackPropagate(math, network, data, batchStart, batchEnd);
  }

  /** One iteration of the batch loop. */
  method RunBatch(math: Transcendentals, network: NeuralNetwork, rate: CyclicLearningRate, data: seq<DataPoint>, b: nat,
                  noiseFreq: real, noiseStrength: real, draws: nat -> real, pos: nat) returns (next: nat)
    requires network.Valid() && Lawful(math) && AllFit(network.View(), data) && b < BatchesPerEpoch(|data|)
    requires GetDefined(rate.State()) && rate !in network.Repr
    modifies network.Repr, rate
    ensures network.Valid()
    ensures Progress(network.View(), rate.State(), next) ==
      BatchStep(math, Progress(old(network.View()), old(rate.State()), pos), data, b, noiseFreq, noiseStrength, draws)
  {
    ghost var net := network.View();
    var lr := rate.Get(math.cos);
    assert network.View() == net;
    var average;
    average, next := ComputeChanges(math, network, lr, data, b, noiseFreq, noiseStrength, draws, pos);
    UpdateNetwork(network, average);
  }

  /** The batch loop of one epoch. */
  method RunBatches(math: Transcendentals, network: NeuralNetwork, rate: CyclicLearningRate, data: seq<DataPoint>,
                    noiseFreq: real, noiseStrength: real, draws: nat -> real, pos: nat) returns (next: nat)
    requires network.Valid() && Lawful(math) && AllFit(network.View(), data)
    requires GetDefined(rate.State()) && rate !in network.Repr
    modifies network.Repr, rate
    ensures network.Valid()
    ensures Progress(network.View(), rate.State(), next) ==
      Batches(math, Progress(old(network.View()), old(rate.State()), pos), data, BatchesPerEpoch(|data|), noiseFreq, noiseStrength, draws)
  {
    ghost var p := Progress(network.View(), rate.State(), pos);
    next := pos;
    var batchesPerEpoch := (|data| + BatchSize - 1) / BatchSize;
    for b := 0 to batchesPerEpoch
      invariant network.Valid() && rate !in network.Repr
      invariant Progress(network.View(), rate.State(), next) == Batches(math, p, data, b, noiseFreq, noiseStrength, draws)
    {
      next := RunBatch(math, network, rate, data, b, noiseFreq, noiseStrength, draws, next);
    }
  }

  // ---------------------------------------------------------------------------
  // Epochs

  function Inputs(data: seq<DataPoint>): (xs: seq<seq<real>>)
    ensures |xs| == |data| && forall i :: 0 <= i < |data| ==> xs[i] == data[i].inputs
  {
    seq(|data|, i requires 0 <= i < |data| => data[i].inputs)
  }

  function Targets(data: seq<DataPoint>): (ys: seq<seq<real>>)
    ensures |ys| == |data| && forall i :: 0 <= i < |data| ==> ys[i] == data[i].outputs
  {
    seq(|data|, i requires 0 <= i < |data| => data[i].outputs)
  }

  /** forwardPropagate of one input through every layer. */
  function Predict(math: Transcendentals, net: NetworkV, x: seq<real>): seq<real>
    requires Lawful(math) && |net| > 0 && Chained(net, |x|)
  {
    Forward(Default, math, net, x, |net| - 1)
  }

  /** The predictions array: forwardPropagate of every input. */
  function Predictions(math: Transcendentals, net: NetworkV, data: seq<DataPoint>): (ps: seq<seq<real>>)
    requires Lawful(math) && AllFit(net, data)
    ensures |ps| == |data| && forall a :: 0 <= a < |data| ==> |ps[a]| == |data[a].outputs|
  {
    PredictionsChained(net, data);
    seq(|data|, a requires 0 <= a < |data| => Predict(math, net, data[a].inputs))
  }

  lemma PredictionsChained(net: NetworkV, data: seq<DataPoint>)
    requires AllFit(net, data)
    ensures |data| > 0 ==> |net| > 0
    ensures forall a :: 0 <= a < |data| ==> Chained(net, |data[a].inputs|)
  {
    if |data| > 0 {
      FitChained(net, data[0]);
    }
    forall a | 0 <= a < |data| ensures Chained(net, |data[a].inputs|) {
      FitChained(net, data[a]);
    }
  }

  lemma FitChained(net: NetworkV, p: DataPoint)
    requires Fits(Default, net, p.inputs, p.outputs)
    ensures |net| > 0 && Chained(net, |p.inputs|)
  {
    ShapedIsChained(net, |p.inputs|);
  }

  /** LOSS_FUNCTION.calculate(outputs, predictions): the mean cross-entropy. */
  function Cost(math: Transcendentals, net: NetworkV, data: seq<DataPoint>): real
    requires Lawful(math) && AllFit(net, data) && |data| > 0
  {
    BatchLossOf(Default.loss, math.log, Targets(data), Predictions(math, net, data))
  }

  /** Collections.shuffle as an arbitrary permutation, chosen per call. */
  ghost predicate Permutes(shuffle: (nat, seq<DataPoint>) -> seq<DataPoint>)
  {
    forall k, d {:trigger shuffle(k, d)} :: multiset(shuffle(k, d)) == multiset(d)
  }

  /** A permutation of the samples fits wherever they did. */
  lemma PermutedFit(net: NetworkV, a: seq<DataPoint>, b: seq<DataPoint>)
    requires multiset(a) == multiset(b) && AllFit(net, a)
    ensures AllFit(net, b) && |a| == |b|
  {
    assert |a| == |multiset(a)| == |multiset(b)| == |b|;
    forall i | 0 <= i < |b| ensures Fits(Default, net, b[i].inputs, b[i].outputs) {
      assert b[i] in multiset(b);
      var j :| 0 <= j < |a| && a[j] == b[i];
    }
  }

  /** What start carries from one epoch to the next: the network, the best
      network, the learning-rate policy, the order of the samples, the
      position in the random stream, the epoch field and the number of
      epochs run in this call. */
  datatype Session = Session(net: NetworkV, best: NetworkV, rate: CyclicState, data: seq<DataPoint>,
                             pos: nat, epoch: int, runs: nat)

  /** The values an epoch reports: its number, the cost before and after its
      batches, and the accuracy and certainty after them. */
  datatype Report = Report(epoch: int, costBefore: real, costAfter: real, accuracy: real, certainty: real)

  /** What holds between epochs: the samples fit and are not empty, the
      policy was never restarted, and the epoch field is not negative. */
  predicate Ready(s: Session)
  {
    |s.data| > 0 && AllFit(s.net, s.data) && GetDefined(s.rate) && s.rate.nextCycleRestart == 0 && s.epoch >= 0
  }

  /** The session before the first epoch of start. */
  function StartSession(net: NetworkV, data: seq<DataPoint>, pos: nat, epoch: int): Session
  {
    Session(net, net, InitialCyclic(0.01, 0.1, 2, 1.5, 0.9, BatchesPerEpoch(|data|)), data, pos, epoch, 0)
  }

  /** dataPoints after Collections.shuffle in the epoch numbered s.runs of this call. */
  function Shuffled(s: Session, shuffle: (nat, seq<DataPoint>) -> seq<DataPoint>): (order: seq<DataPoint>)
    requires Ready(s) && Permutes(shuffle)
    ensures multiset(order) == multiset(s.data) && |order| == |s.data| && AllFit(s.net, order)
  {
    PermutedFit(s.net, s.data, shuffle(s.runs, s.data));
    shuffle(s.runs, s.data)
  }

  /** The batch loop of an epoch over the shuffled samples. */
  function EpochBatches(math: Transcendentals, s: Session, order: seq<DataPoint>,
                        noiseFreq: real, noiseStrength: real, draws: nat -> real): (p: Progress)
    requires Lawful(math) && Ready(s) && multiset(order) == multiset(s.data) && AllFit(s.net, order)
    ensures AllFit(p.net, s.data)
    ensures p.rate == Advanced(s.rate, BatchesPerEpoch(|s.data|))
  {
    PermutedFit(s.net, s.data, order);
    var p := Batches(math, Progress(s.net, s.rate, s.pos), order, BatchesPerEpoch(|order|), noiseFreq, noiseStrength, draws);
    PermutedFit(p.net, order, s.data);
    p
  }

  /** What the epoch reports after its batches, measured on the inputs and
      targets taken before the shuffle. */
  function Measure(math: Transcendentals, s: Session, after: NetworkV): (r: Report)
    requires Lawful(math) && Ready(s) && AllFit(after, s.data)
    ensures r.epoch == s.epoch
  {
    var predictions := Predictions(math, after, s.data);
    Report(s.epoch, Cost(math, s.net, s.data), Cost(math, after, s.data),
           Accuracy(Targets(s.data), predictions), Certainty(Targets(s.data), predictions))
  }

  /** One iteration of the epoch loop: the inputs and targets are taken, the
      samples shuffled, the cost measured, the batches run over the shuffled
      samples, the cost, accuracy and certainty measured again on the inputs
      taken before the shuffle, the best network replaced when the cost fell,
      and the policy updated with the epoch. */
  function Epoch(math: Transcendentals, s: Session, shuffle: (nat, seq<DataPoint>) -> seq<DataPoint>,
                 noiseFreq: real, noiseStrength: real, draws: nat -> real): (r: (Session, Report))
    requires Lawful(math) && Ready(s) && Permutes(shuffle)
    ensures Ready(r.0) && multiset(r.0.data) == multiset(s.data)
    ensures r.0.epoch == s.epoch + 1 && r.0.runs == s.runs + 1 && r.1.epoch == s.epoch
  {
    var order := Shuffled(s, shuffle);
    var p := EpochBatches(math, s, order, noiseFreq, noiseStrength, draws);
    var report := Measure(math, s, p.net);
    (EpochEnd(s, order, p, report), report)
  }

  /** The best-network rule: the trained network when the cost fell, the old
      best otherwise; equal costs are checked first and keep the old best. */
  function BestOf(costBefore: real, costAfter: real, best: NetworkV, trained: NetworkV): (r: NetworkV)
    ensures costBefore > costAfter ==> r == trained
    ensures costBefore <= costAfter ==> r == best
  {
    if costBefore == costAfter then best else if costBefore > costAfter then trained else best
  }

  /** The end of an epoch: the best-network rule, update(epoch) of the
      policy, and epoch++. */
  function EpochEnd(s: Session, order: seq<DataPoint>, p: Progress, report: Report): (t: Session)
    requires Ready(s) && multiset(order) == multiset(s.data) && AllFit(p.net, s.data)
    requires p.rate == Advanced(s.rate, BatchesPerEpoch(|s.data|))
    ensures Ready(t) && t.data == order && t.epoch == s.epoch + 1 && t.runs == s.runs + 1 && t.rate == p.rate
  {
    var best := BestOf(report.costBefore, report.costAfter, s.best, p.net);
    PermutedFit(p.net, s.data, order);
    Session(p.net, best, AfterUpdate(p.rate, s.epoch), order, p.pos, s.epoch + 1, s.runs + 1)
  }

  /** The first k epochs of start, with their reports. */
  function Train(math: Transcendentals, s: Session, k: nat, shuffle: (nat, seq<DataPoint>) -> seq<DataPoint>,
                 noiseFreq: real, noiseStrength: real, draws: nat -> real): (r: (Session, seq<Report>))
    requires Lawful(math) && Ready(s) && Permutes(shuffle)
    ensures Ready(r.0) && |r.1| == k && multiset(r.0.data) == multiset(s.data)
    ensures r.0.epoch == s.epoch + k && r.0.runs == s.runs + k
  {
    if k == 0 then (s, [])
    else
      var prev := Train(math, s, k - 1, shuffle, noiseFreq, noiseStrength, draws);
      var next := Epoch(math, prev.0, shuffle, noiseFreq, noiseStrength, draws);
      (next.0, prev.1 + [next.1])
  }

  /** The policy is never restarted: each epoch moves its counter on by the
      number of batches, and nothing else. */
  lemma EpochRate(math: Transcendentals, s: Session, shuffle: (nat, seq<DataPoint>) -> seq<DataPoint>,
                  noiseFreq: real, noiseStrength: real, draws: nat -> real)
    requires Lawful(math) && Ready(s) && Permutes(shuffle)
    ensures Epoch(math, s, shuffle, noiseFreq, noiseStrength, draws).0.rate == Advanced(s.rate, BatchesPerEpoch(|s.data|))
  {
  }

  /** k times n, counted out. */
  function Repeated(k: nat, n: nat): (r: nat)
    ensures r == k * n
  {
    if k == 0 then 0 else Repeated(k - 1, n) + n
  }

  /** After k epochs the policy has the start's fields but for a counter moved
      on by k times the batches per epoch. */
  lemma {:induction false} TrainRate(math: Transcendentals, s: Session, k: nat, shuffle: (nat, seq<DataPoint>) -> seq<DataPoint>,
                                     noiseFreq: real, noiseStrength: real, draws: nat -> real)
    requires Lawful(math) && Ready(s) && Permutes(shuffle)
    ensures Train(math, s, k, shuffle, noiseFreq, noiseStrength, draws).0.rate == Advanced(s.rate, Repeated(k, BatchesPerEpoch(|s.data|)))
    decreases k
  {
    if k > 0 {
      TrainRate(math, s, k - 1, shuffle, noiseFreq, noiseStrength, draws);
      var prev := Train(math, s, k - 1, shuffle, noiseFreq, noiseStrength, draws).0;
      EpochRate(math, prev, shuffle, noiseFreq, noiseStrength, draws);
      assert |prev.data| == |s.data| by {
        assert |multiset(prev.data)| == |multiset(s.data)|;
      }
      var n := BatchesPerEpoch(|s.data|);
      var r := Train(math, s, k, shuffle, noiseFreq, noiseStrength, draws).0;
      assert r == Epoch(math, prev, shuffle, noiseFreq, noiseStrength, draws).0;
      assert r.rate == Advanced(Advanced(s.rate, Repeated(k - 1, n)), n);
    }
  }

  /** Iterations of while ((epochs == 0 || epoch <= epochs) && training) from
      epoch e when a stop request arrives after `stopAfter` epochs. */
  function Runs(e: int, epochs: int, stopAfter: nat): nat
  {
    if epochs == 0 then stopAfter else Min(stopAfter, Max(0, epochs - e + 1)) as nat
  }

  /** Without an early stop, a run from epoch 0 makes epochs + 1 epochs, a
      run that starts past `epochs` (as a second call does, since nothing
      resets the field) makes none, and epochs == 0 runs until stopped. */
  lemma RunsCount(e: int, epochs: int, stopAfter: nat)
    ensures e == 0 && 0 < epochs < stopAfter ==> Runs(e, epochs, stopAfter) == epochs + 1
    ensures epochs != 0 && e > epochs ==> Runs(e, epochs, stopAfter) == 0
    ensures epochs == 0 ==> Runs(e, epochs, stopAfter) == stopAfter
    ensures Runs(e, epochs, stopAfter) <= stopAfter
  {
  }

  /** bestNetwork becomes the epoch's network exactly when the cost fell,
      and otherwise stays. */
  lemma EpochBest(math: Transcendentals, s: Session, shuffle: (nat, seq<DataPoint>) -> seq<DataPoint>,
                  noiseFreq: real, noiseStrength: real, draws: nat -> real)
    requires Lawful(math) && Ready(s) && Permutes(shuffle)
    ensures var r := Epoch(math, s, shuffle, noiseFreq, noiseStrength, draws);
      r.0.best == if r.1.costBefore > r.1.costAfter then r.0.net else s.best
  {
  }

  /** The best network is the start network or the network after some epoch,
      and after an epoch whose cost fell it is that epoch's network. */
  lemma {:induction false} BestWasReached(math: Transcendentals, s: Session, k: nat, shuffle: (nat, seq<DataPoint>) -> seq<DataPoint>,
                                          noiseFreq: real, noiseStrength: real, draws: nat -> real)
    requires Lawful(math) && Ready(s) && Permutes(shuffle) && s.best == s.net
    ensures var r := Train(math, s, k, shuffle, noiseFreq, noiseStrength, draws);
      exists j :: 0 <= j <= k && r.0.best == Train(math, s, j, shuffle, noiseFreq, noiseStrength, draws).0.net
    ensures k > 0 ==> var r := Train(math, s, k, shuffle, noiseFreq, noiseStrength, draws);
      r.0.best == if r.1[k - 1].costBefore > r.1[k - 1].costAfter then r.0.net
                  else Train(math, s, k - 1, shuffle, noiseFreq, noiseStrength, draws).0.best
    decreases k
  {
    hide SampleDeltas, Batches;
    var r := Train(math, s, k, shuffle, noiseFreq, noiseStrength, draws);
    if k == 0 {
      assert r.0.best == Train(math, s, 0, shuffle, noiseFreq, noiseStrength, draws).0.net;
    } else {
      BestWasReached(math, s, k - 1, shuffle, noiseFreq, noiseStrength, draws);
      var prev := Train(math, s, k - 1, shuffle, noiseFreq, noiseStrength, draws);
      var e := Epoch(math, prev.0, shuffle, noiseFreq, noiseStrength, draws);
      assert r.0 == e.0 && r.1[k - 1] == e.1;
      EpochBest(math, prev.0, shuffle, noiseFreq, noiseStrength, draws);
      if r.0.best != r.0.net {
        var j :| 0 <= j <= k - 1 && prev.0.best == Train(math, s, j, shuffle, noiseFreq, noiseStrength, draws).0.net;
        assert r.0.best == Train(math, s, j, shuffle, noiseFreq, noiseStrength, draws).0.net;
      } else {
        assert r.0.best == Train(math, s, k, shuffle, noiseFreq, noiseStrength, draws).0.net;
      }
    }
  }

  // ---------------------------------------------------------------------------
  // The trainer

  /** The predictions loop over the inputs taken before the shuffle, then
      LOSS_FUNCTION.calculate(outputs, predictions). */
  method Evaluate(math: Transcendentals, network: NeuralNetwork, data: seq<DataPoint>,
                  inputs: seq<seq<real>>, outputs: seq<seq<real>>) returns (predictions: seq<seq<real>>, cost: real)
    requires network.Valid() && Lawful(math) && AllFit(network.View(), data) && |data| > 0
    requires inputs == Inputs(data) && outputs == Targets(data)
    ensures predictions == Predictions(math, network.View(), data) && cost == Cost(math, network.View(), data)
  {
    hide Forward;
    ghost var net := network.View();
    PredictionsChained(net, data);
    predictions := [];
    for a := 0 to |data|
      invariant |predictions| == a && network.View() == net
      invariant forall i :: 0 <= i < a ==> predictions[i] == Predict(math, net, data[i].inputs)
    {
      var prediction := network.ForwardPropagate(Default, math, inputs[a]);
      predictions := predictions + [prediction];
    }
    var calculated := CalculateBatch(Default.loss, math.log, outputs, predictions);
    cost := calculated.value;
  }

  /** The first half of an epoch: the shuffle, the cost before and the batches. */
  method EpochTraining(math: Transcendentals, network: NeuralNetwork, rate: CyclicLearningRate, best: NeuralNetwork,
                       data: seq<DataPoint>, runs: nat, shuffle: (nat, seq<DataPoint>) -> seq<DataPoint>,
                       noiseFreq: real, noiseStrength: real, draws: nat -> real, pos: nat, ghost s: Session)
    returns (order: seq<DataPoint>, costBefore: real, next: nat)
    requires Lawful(math) && Permutes(shuffle) && Ready(s)
    requires network.Valid() && best.Valid() && best.Repr !! network.Repr && rate !in network.Repr && rate !in best.Repr
    requires s.net == network.View() && s.rate == rate.State() && s.data == data && s.pos == pos && s.runs == runs
    modifies network.Repr, rate
    ensures best.Valid() && best.View() == old(best.View())
    ensures network.Valid() && order == Shuffled(s, shuffle) && costBefore == Cost(math, s.net, data)
    ensures Progress(network.View(), rate.State(), next) == EpochBatches(math, s, order, noiseFreq, noiseStrength, draws)
  {
    var inputs := Inputs(data);
    var outputs := Targets(data);
    order := shuffle(runs, data);
    assert order == Shuffled(s, shuffle);
    var predictions;
    predictions, costBefore := Evaluate(math, network, data, inputs, outputs);
    next := BatchesBeside(math, network, rate, best, order, noiseFreq, noiseStrength, draws, pos);
  }

  /** The batches of an epoch leave the best network, which shares nothing
      with the trained one, as it was. */
  method BatchesBeside(math: Transcendentals, network: NeuralNetwork, rate: CyclicLearningRate, best: NeuralNetwork,
                       data: seq<DataPoint>, noiseFreq: real, noiseStrength: real, draws: nat -> real, pos: nat)
    returns (next: nat)
    requires network.Valid() && Lawful(math) && AllFit(network.View(), data)
    requires GetDefined(rate.State()) && rate !in network.Repr
    requires best.Valid() && best.Repr !! network.Repr && rate !in best.Repr
    modifies network.Repr, rate
    ensures network.Valid() && best.Valid() && best.View() == old(best.View())
    ensures Progress(network.View(), rate.State(), next) ==
      Batches(math, Progress(old(network.View()), old(rate.State()), pos), data, BatchesPerEpoch(|data|), noiseFreq, noiseStrength, draws)
  {
    next := RunBatches(math, network, rate, data, noiseFreq, noiseStrength, draws, pos);
  }

  /** What an epoch logs after its batches: the cost after, the accuracy and
      the certainty, over the inputs and targets taken before the shuffle. */
  method EpochReport(math: Transcendentals, network: NeuralNetwork, data: seq<DataPoint>, epoch: int,
                     costBefore: real, ghost s: Session) returns (report: Report)
    requires Lawful(math) && Ready(s) && s.data == data && s.epoch == epoch && costBefore == Cost(math, s.net, data)
    requires network.Valid() && AllFit(network.View(), data)
    ensures report == Measure(math, s, network.View())
  {
    var inputs := Inputs(data);
    var outputs := Targets(data);
    var predictions, costAfter := Evaluate(math, network, data, inputs, outputs);
    var accuracy := AccuracyMethod(outputs, predictions);
    var certainty := CertaintyMethod(outputs, predictions);
    report := Report(epoch, costBefore, costAfter, accuracy, certainty);
  }

  /** The best-network rule: a copy of the network when the cost fell, the
      old best otherwise (equal costs included). */
  method KeepBest(network: NeuralNetwork, best: NeuralNetwork, costBefore: real, costAfter: real)
    returns (newBest: NeuralNetwork)
    requires network.Valid() && best.Valid()
    ensures newBest.Valid() && (newBest == best || fresh(newBest.Repr))
    ensures newBest.View() == BestOf(costBefore, costAfter, best.View(), network.View())
  {
    newBest := best;
    if costBefore == costAfter {
    } else if costBefore > costAfter {
      newBest := network.Copy();
    }
  }

  /** lr.update(epoch), which leaves both networks as they were. */
  method UpdatePolicy(rate: CyclicLearningRate, epoch: int, network: NeuralNetwork, best: NeuralNetwork)
    requires network.Valid() && best.Valid() && rate !in network.Repr && rate !in best.Repr
    modifies rate
    ensures rate.State() == AfterUpdate(old(rate.State()), epoch)
    ensures network.Valid() && best.Valid() && network.View() == old(network.View()) && best.View() == old(best.View())
  {
    rate.Update(epoch);
  }

  /** Epoch unfolded once, down to the fields of the new session. */
  lemma EpochUnfolds(math: Transcendentals, s: Session, shuffle: (nat, seq<DataPoint>) -> seq<DataPoint>,
                     noiseFreq: real, noiseStrength: real, draws: nat -> real,
                     order: seq<DataPoint>, p: Progress, report: Report, kept: NetworkV)
    requires Lawful(math) && Ready(s) && Permutes(shuffle) && order == Shuffled(s, shuffle)
    requires p == EpochBatches(math, s, order, noiseFreq, noiseStrength, draws) && report == Measure(math, s, p.net)
    requires kept == BestOf(report.costBefore, report.costAfter, s.best, p.net)
    ensures Epoch(math, s, shuffle, noiseFreq, noiseStrength, draws) ==
      (Session(p.net, kept, AfterUpdate(p.rate, s.epoch), order, p.pos, s.epoch + 1, s.runs + 1), report)
  {
  }

  /** One iteration of the epoch loop, but for epoch++. */
  method RunEpoch(math: Transcendentals, network: NeuralNetwork, rate: CyclicLearningRate, best: NeuralNetwork,
                  data: seq<DataPoint>, epoch: int, runs: nat, shuffle: (nat, seq<DataPoint>) -> seq<DataPoint>,
                  noiseFreq: real, noiseStrength: real, draws: nat -> real, pos: nat, ghost s: Session)
    returns (newBest: NeuralNetwork, order: seq<DataPoint>, report: Report, next: nat)
    requires Lawful(math) && Permutes(shuffle) && Ready(s)
    requires network.Valid() && best.Valid() && best.Repr !! network.Repr && rate !in network.Repr && rate !in best.Repr
    requires s.net == network.View() && s.best == best.View() && s.rate == rate.State()
    requires s.data == data && s.pos == pos && s.epoch == epoch && s.runs == runs
    modifies network.Repr, rate
    ensures network.Valid() && newBest.Valid() && (newBest == best || fresh(newBest.Repr))
    ensures var e := Epoch(math, s, shuffle, noiseFreq, noiseStrength, draws);
      network.View() == e.0.net && newBest.View() == e.0.best && rate.State() == e.0.rate &&
      order == e.0.data && next == e.0.pos && report == e.1
  {
    var costBefore;
    order, costBefore, next := EpochTraining(math, network, rate, best, data, runs, shuffle, noiseFreq, noiseStrength, draws, pos, s);
    ghost var p := EpochBatches(math, s, order, noiseFreq, noiseStrength, draws);
    newBest, report := EpochClose(math, network, rate, best, data, epoch, costBefore, s, p.net);
    EpochUnfolds(math, s, shuffle, noiseFreq, noiseStrength, draws, order, p, report, newBest.View());
  }

  /** The rest of an epoch after its batches: the report, the best-network
      rule and update(epoch) of the policy. */
  method EpochClose(math: Transcendentals, network: NeuralNetwork, rate: CyclicLearningRate, best: NeuralNetwork,
                    data: seq<DataPoint>, epoch: int, costBefore: real, ghost s: Session, ghost trained: NetworkV)
    returns (newBest: NeuralNetwork, report: Report)
    requires Lawful(math) && Ready(s) && s.data == data && s.epoch == epoch && costBefore == Cost(math, s.net, data)
    requires network.Valid() && best.Valid() && rate !in network.Repr && rate !in best.Repr
    requires network.View() == trained && AllFit(trained, data) && best.View() == s.best
    modifies rate
    ensures network.Valid() && newBest.Valid() && (newBest == best || fresh(newBest.Repr))
    ensures network.View() == trained && report == Measure(math, s, trained)
    ensures newBest.View() == BestOf(report.costBefore, report.costAfter, s.best, trained)
    ensures rate.State() == AfterUpdate(old(rate.State()), epoch)
  {
    report := EpochReport(math, network, data, epoch, costBefore, s);
    newBest := KeepBest(network, best, report.costBefore, report.costAfter);
    assert rate !in newBest.Repr;
    UpdatePolicy(rate, epoch, network, newBest);
  }

  /** The epoch loop's body: one more epoch of Train, its report appended. */
  method TrainOneMore(math: Transcendentals, network: NeuralNetwork, rate: CyclicLearningRate, best: NeuralNetwork,
                      data: seq<DataPoint>, epoch: int, runs: nat, shuffle: (nat, seq<DataPoint>) -> seq<DataPoint>,
                      noiseFreq: real, noiseStrength: real, draws: nat -> real, pos: nat, reports: seq<Report>,
                      ghost s0: Session)
    returns (newBest: NeuralNetwork, order: seq<DataPoint>, newReports: seq<Report>, next: nat)
    requires Lawful(math) && Permutes(shuffle) && Ready(s0) && epoch == s0.epoch + runs && s0.runs == 0
    requires network.Valid() && best.Valid() && best.Repr !! network.Repr && rate !in network.Repr && rate !in best.Repr
    requires var t := Train(math, s0, runs, shuffle, noiseFreq, noiseStrength, draws);
      network.View() == t.0.net && best.View() == t.0.best && rate.State() == t.0.rate &&
      data == t.0.data && pos == t.0.pos && reports == t.1
    modifies network.Repr, rate
    ensures network.Valid() && newBest.Valid() && (newBest == best || fresh(newBest.Repr))
    ensures newBest.Repr !! network.Repr && rate !in newBest.Repr
    ensures var t := Train(math, s0, runs + 1, shuffle, noiseFreq, noiseStrength, draws);
      network.View() == t.0.net && newBest.View() == t.0.best && rate.State() == t.0.rate &&
      order == t.0.data && next == t.0.pos && newReports == t.1
  {
    ghost var s := Train(math, s0, runs, shuffle, noiseFreq, noiseStrength, draws).0;
    var report;
    newBest, order, report, next := RunEpoch(math, network, rate, best, data, epoch, runs, shuffle,
                                             noiseFreq, noiseStrength, draws, pos, s);
    newReports := reports + [report];
  }

  class Trainer {
    const network: NeuralNetwork
    var training: bool
    var stoppedTraining: bool
    var epoch: int

    /** The network is well formed and apart from the trainer, and the epoch
        field, which only ever grows from 0, is not negative. */
    ghost predicate Valid()
      reads this, network.Repr
    {
      network.Valid() && this !in network.Repr && epoch >= 0
    }

    /** Trainer(neuralNetwork): every other field keeps Java's default. */
    constructor (network: NeuralNetwork)
      requires network.Valid()
      ensures Valid() && this.network == network && epoch == 0 && !training && !stoppedTraining
    {
      this.network := network;
      training := false;
      stoppedTraining := false;
      epoch := 0;
    }

    /** start(dataPoints, epochs, noiseFreq, noiseStrength): the epoch loop.
        The network is trained in place; the result is the best network, a
        copy. `order` is the shuffled list the caller's dataPoints ends as,
        `reports` what each epoch logs, and `next` the position in the random
        stream after the last noise draw. */
    method Start(math: Transcendentals, data: seq<DataPoint>, epochs: int, noiseFreq: real, noiseStrength: real,
                 draws: nat -> real, pos: nat, shuffle: (nat, seq<DataPoint>) -> seq<DataPoint>, stopAfter: nat)
      returns (best: NeuralNetwork, order: seq<DataPoint>, reports: seq<Report>, next: nat)
      requires Valid() && Lawful(math) && Permutes(shuffle) && |data| > 0 && AllFit(network.View(), data)
      modifies this, network.Repr
      ensures Valid() && !training && stoppedTraining
      ensures epoch == old(epoch) + Runs(old(epoch), epochs, stopAfter)
      ensures best.Valid() && best.Repr !! network.Repr && this !in best.Repr
      ensures var r := Train(math, StartSession(old(network.View()), data, pos, old(epoch)), Runs(old(epoch), epochs, stopAfter),
                             shuffle, noiseFreq, noiseStrength, draws);
        network.View() == r.0.net && best.View() == r.0.best && order == r.0.data && reports == r.1 && next == r.0.pos
    {
      ghost var net := network.View();
      ghost var s0 := StartSession(net, data, pos, epoch);
      training := true;
      assert network.View() == net;
      var first := network.Copy();
      assert network.View() == net;
      var batchesPerEpoch := (|data| + BatchSize - 1) / BatchSize;
      var rate := new CyclicLearningRate(0.01, 0.1, 2, 1.5, 0.9, batchesPerEpoch);
      assert network.View() == net && first.View() == net;
      assert rate.State() == s0.rate && Ready(s0);
      best, order, reports, next := EpochLoop(math, rate, first, data, epochs, noiseFreq, noiseStrength, draws, pos,
                                              shuffle, stopAfter, s0);
      Stopped(best);
    }

    /** The while loop of start, from the state it sets up: training is
        cleared after `stopAfter` epochs, standing in for a stop request. */
    method EpochLoop(math: Transcendentals, rate: CyclicLearningRate, first: NeuralNetwork, data: seq<DataPoint>,
                     epochs: int, noiseFreq: real, noiseStrength: real, draws: nat -> real, pos: nat,
                     shuffle: (nat, seq<DataPoint>) -> seq<DataPoint>, stopAfter: nat, ghost s0: Session)
      returns (best: NeuralNetwork, order: seq<DataPoint>, reports: seq<Report>, next: nat)
      requires Valid() && Lawful(math) && Permutes(shuffle) && Ready(s0)
      requires first.Valid() && first.Repr !! network.Repr && rate !in network.Repr && rate !in first.Repr
      requires this !in first.Repr
      requires s0 == Session(network.View(), network.View(), rate.State(), data, pos, epoch, 0) && first.View() == s0.net
      modifies this`epoch, this`training, network.Repr, rate
      ensures Valid() && (training <==> Runs(old(epoch), epochs, stopAfter) < stopAfter)
      ensures best.Valid() && best.Repr !! network.Repr && this !in best.Repr
      ensures epoch == old(epoch) + Runs(old(epoch), epochs, stopAfter)
      ensures var r := Train(math, s0, Runs(old(epoch), epochs, stopAfter), shuffle, noiseFreq, noiseStrength, draws);
        network.View() == r.0.net && best.View() == r.0.best && order == r.0.data && reports == r.1 && next == r.0.pos
    {
      hide Epoch, SampleDeltas, Batches;
      best, order, reports, next := first, data, [], pos;
      var runs := 0;
      Request(best, stopAfter != 0);
      assert Train(math, s0, 0, shuffle, noiseFreq, noiseStrength, draws) == (s0, []);
      while (epochs == 0 || epoch <= epochs) && training
        invariant Trained(math, rate, best, s0, runs, shuffle, noiseFreq, noiseStrength, draws, order, reports, next)
        invariant training <==> runs < stopAfter
        invariant epoch == old(epoch) + runs && runs <= stopAfter
        invariant epochs != 0 ==> runs <= Max(0, epochs - old(epoch) + 1)
        decreases stopAfter - runs
      {
        best, order, reports, next := Iterate(math, rate, best, s0, runs, shuffle, noiseFreq, noiseStrength, draws,
                                              order, reports, next, runs + 1 < stopAfter);
        runs := runs + 1;
      }
      assert runs == Runs(old(epoch), epochs, stopAfter);
    }

    /** The state the epoch loop keeps: the trainer, the best network and the
        policy are apart, and together they are `runs` epochs of Train. */
    ghost predicate Trained(math: Transcendentals, rate: CyclicLearningRate, best: NeuralNetwork, s0: Session, runs: nat,
                            shuffle: (nat, seq<DataPoint>) -> seq<DataPoint>, noiseFreq: real, noiseStrength: real,
                            draws: nat -> real, order: seq<DataPoint>, reports: seq<Report>, next: nat)
      reads this, network.Repr, best.Repr, rate
    {
      Valid() && best.Valid() && Lawful(math) && Permutes(shuffle) && Ready(s0) && s0.runs == 0 &&
      best.Repr !! network.Repr && rate !in network.Repr && rate !in best.Repr && this !in best.Repr &&
      var t := Train(math, s0, runs, shuffle, noiseFreq, noiseStrength, draws);
      network.View() == t.0.net && best.View() == t.0.best && rate.State() == t.0.rate &&
      order == t.0.data && next == t.0.pos && reports == t.1
    }

    /** One iteration of the epoch loop. */
    method Iterate(math: Transcendentals, rate: CyclicLearningRate, best: NeuralNetwork, ghost s0: Session, runs: nat,
                   shuffle: (nat, seq<DataPoint>) -> seq<DataPoint>, noiseFreq: real, noiseStrength: real,
                   draws: nat -> real, order: seq<DataPoint>, reports: seq<Report>, next: nat, stillTraining: bool)
      returns (newBest: NeuralNetwork, newOrder: seq<DataPoint>, newReports: seq<Report>, newNext: nat)
      requires Trained(math, rate, best, s0, runs, shuffle, noiseFreq, noiseStrength, draws, order, reports, next)
      requires epoch == s0.epoch + runs
      modifies this`epoch, this`training, network.Repr, rate
      ensures Trained(math, rate, newBest, s0, runs + 1, shuffle, noiseFreq, noiseStrength, draws, newOrder, newReports, newNext)
      ensures epoch == old(epoch) + 1 && training == stillTraining
    {
      hide Epoch, SampleDeltas, Batches, Train;
      newBest, newOrder, newReports, newNext := TrainOneMore(math, network, rate, best, order, epoch, runs, shuffle,
                                                             noiseFreq, noiseStrength, draws, next, reports, s0);
      NextEpoch(newBest, rate, stillTraining);
    }

    /** epoch++ at the end of an iteration, and the training flag as the stop
        request leaves it. */
    method NextEpoch(best: NeuralNetwork, rate: CyclicLearningRate, stillTraining: bool)
      requires Valid() && best.Valid() && this !in best.Repr
      modifies this`epoch, this`training
      ensures Valid() && epoch == old(epoch) + 1 && training == stillTraining
      ensures network.View() == old(network.View()) && best.Valid() && best.View() == old(best.View())
      ensures rate.State() == old(rate.State())
    {
      epoch := epoch + 1;
      training := stillTraining;
    }

    /** The training flag as a stop request leaves it before the first epoch. */
    method Request(best: NeuralNetwork, stillTraining: bool)
      requires Valid() && best.Valid() && this !in best.Repr
      modifies this`training
      ensures Valid() && epoch == old(epoch) && training == stillTraining
      ensures network.View() == old(network.View()) && best.Valid() && best.View() == old(best.View())
    {
      training := stillTraining;
    }

    /** The end of start: training is off and the stop acknowledged. */
    method Stopped(best: NeuralNetwork)
      requires Valid() && best.Valid() && this !in best.Repr
      modifies this`training, this`stoppedTraining
      ensures Valid() && !training && stoppedTraining && epoch == old(epoch)
      ensures network.View() == old(network.View()) && best.Valid() && best.View() == old(best.View())
    {
      training := false;
      stoppedTraining := true;
    }
  }
}
