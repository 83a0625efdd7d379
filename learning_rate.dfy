/** The learning-rate policies of math/learningRate: a fixed rate, a rate that
    grows linearly with each epoch update, and a cosine-annealed cyclic rate with
    warm restarts. get is called once per batch and update once per epoch. */
module LearningRate {
  import opened Maths

  // ---------------------------------------------------------------------------
  // FixedLearningRate: a single final field.

  datatype FixedLearningRate = FixedLearningRate(learningRate: real)
  {
    function Get(): real
    {
      learningRate
    }

    /** update is empty. */
    function Update(epoch: int): (r: FixedLearningRate)
      ensures r.Get() == Get()
    {
      this
    }

    /** The policy after a run of updates, one per epoch number. */
    function UpdatedAll(epochs: seq<int>): FixedLearningRate
    {
      if |epochs| == 0 then this else Update(epochs[0]).UpdatedAll(epochs[1..])
    }
  }

  /** Whatever updates happen, get returns the constructor's argument. */
  lemma {:induction false} FixedIgnoresUpdates(rate: real, epochs: seq<int>)
    ensures FixedLearningRate(rate).UpdatedAll(epochs).Get() == rate
  {
    if |epochs| > 0 {
      FixedIgnoresUpdates(rate, epochs[1..]);
    }
  }

  // ---------------------------------------------------------------------------
  // LinearLearningRate: update adds the increment.

  class LinearLearningRate {
    var learningRate: real
    const increment: real
    /** The constructor's rate and the updates so far, for stating what get returns. */
    ghost const initialLearningRate: real
    ghost var updates: nat

    ghost predicate Valid()
      reads this
    {
      learningRate == initialLearningRate + updates as real * increment
    }

    constructor (initialLearningRate: real, increment: real)
      ensures Valid() && updates == 0
      ensures this.initialLearningRate == initialLearningRate && this.increment == increment
    {
      this.learningRate := initialLearningRate;
      this.increment := increment;
      this.initialLearningRate := initialLearningRate;
      this.updates := 0;
    }

    /** The current rate: the initial rate plus one increment per update. */
    method Get() returns (r: real)
      requires Valid()
      ensures r == initialLearningRate + updates as real * increment
    {
      r := learningRate;
    }

    /** The epoch argument is ignored. */
    method Update(epoch: int)
      requires Valid()
      modifies this
      ensures Valid() && updates == old(updates) + 1
      ensures learningRate == old(learningRate) + increment
    {
      learningRate := learningRate + increment;
      updates := updates + 1;
    }
  }

  // ---------------------------------------------------------------------------
  // CyclicLearningRate: its fields as a value, get and update as transitions.

  datatype CyclicState = CyclicState(
    batchesSinceRestart: int,
    nextCycleRestart: int,
    maxLearningRate: real,
    minLearningRate: real,
    cycleLength: int,
    cycleLengthMultiplier: real,
    learningRateDecay: real,
    batchesPerEpoch: real)

  /** The constructor's state: both counters keep Java's default of 0. */
  function InitialCyclic(minLearningRate: real, maxLearningRate: real, cycleLength: int,
                         cycleLengthMultiplier: real, learningRateDecay: real, batchesPerEpoch: int): (s: CyclicState)
    ensures s.batchesSinceRestart == 0 && s.nextCycleRestart == 0
  {
    CyclicState(0, 0, maxLearningRate, minLearningRate, cycleLength, cycleLengthMultiplier,
                learningRateDecay, batchesPerEpoch as real)
  }

  /** get divides by batchesPerEpoch * cycleLength. */
  predicate GetDefined(s: CyclicState)
  {
    s.batchesPerEpoch * s.cycleLength as real != 0.0
  }

  /** The position in the cycle get uses: the counter after its pre-increment
      over the cycle's length in batches. */
  function FractionToRestart(s: CyclicState): real
    requires GetDefined(s)
  {
    (s.batchesSinceRestart + 1) as real / (s.batchesPerEpoch * s.cycleLength as real)
  }

  /** The cosine-annealed rate get returns, between min and max whenever
      min <= max. */
  function CyclicRate(s: CyclicState, cos: real -> real): (r: real)
    requires GetDefined(s) && CosBounded(cos)
    ensures s.minLearningRate <= s.maxLearningRate ==> s.minLearningRate <= r <= s.maxLearningRate
  {
    var c := cos(FractionToRestart(s) * Pi);
    var r := s.minLearningRate + 0.5 * (s.maxLearningRate - s.minLearningRate) * (1.0 + c);
    if s.minLearningRate <= s.maxLearningRate then
      ProductWithin(r - s.minLearningRate, 0.5 * (s.maxLearningRate - s.minLearningRate), 1.0 + c);
      r
    else r
  }

  lemma ProductWithin(t: real, d: real, e: real)
    requires t == d * e && d >= 0.0 && 0.0 <= e <= 2.0
    ensures 0.0 <= t <= 2.0 * d
  {
    if d > 0.0 && e > 0.0 {
      ProductPositive(t, d, e);
      var u := d * (2.0 - e);
      if e < 2.0 {
        ProductPositive(u, d, 2.0 - e);
      }
    }
  }

  /** The state after get: only the counter moves, by exactly one. */
  function AfterGet(s: CyclicState): CyclicState
  {
    s.(batchesSinceRestart := s.batchesSinceRestart + 1)
  }

  /** The state after update(epoch): a restart when epoch + 1 is the restart
      epoch, nothing otherwise. */
  function AfterUpdate(s: CyclicState, epoch: int): CyclicState
  {
    if epoch + 1 == s.nextCycleRestart then
      var cycleLength := Truncate(s.cycleLength as real * s.cycleLengthMultiplier);
      s.(batchesSinceRestart := 0,
         cycleLength := cycleLength,
         nextCycleRestart := s.nextCycleRestart + cycleLength,
         maxLearningRate := s.maxLearningRate * s.learningRateDecay)
    else s
  }

  class CyclicLearningRate {
    var batchesSinceRestart: int
    var nextCycleRestart: int
    var maxLearningRate: real
    const minLearningRate: real
    var cycleLength: int
    const cycleLengthMultiplier: real
    const learningRateDecay: real
    const batchesPerEpoch: real

    function State(): CyclicState
      reads this
    {
      CyclicState(batchesSinceRestart, nextCycleRestart, maxLearningRate, minLearningRate,
                  cycleLength, cycleLengthMultiplier, learningRateDecay, batchesPerEpoch)
    }

    constructor (minLearningRate: real, maxLearningRate: real, cycleLength: int,
                 cycleLengthMultiplier: real, learningRateDecay: real, batchesPerEpoch: int)
      ensures State() == InitialCyclic(minLearningRate, maxLearningRate, cycleLength,
                                       cycleLengthMultiplier, learningRateDecay, batchesPerEpoch)
    {
      this.minLearningRate := minLearningRate;
      this.maxLearningRate := maxLearningRate;
      this.cycleLength := cycleLength;
      this.cycleLengthMultiplier := cycleLengthMultiplier;
      this.learningRateDecay := learningRateDecay;
      this.batchesPerEpoch := batchesPerEpoch as real;
      this.batchesSinceRestart := 0;
      this.nextCycleRestart := 0;
    }

    method Get(cos: real -> real) returns (r: real)
      requires GetDefined(State()) && CosBounded(cos)
      modifies this
      ensures r == CyclicRate(old(State()), cos)
      ensures State() == AfterGet(old(State()))
    {
      ghost var before := State();
      batchesSinceRestart := batchesSinceRestart + 1;
      var fractionToRestart := batchesSinceRestart as real / (batchesPerEpoch * cycleLength as real);
      assert fractionToRestart == FractionToRestart(before);
      r := minLearningRate + 0.5 * (maxLearningRate - minLearningRate) * (1.0 + cos(fractionToRestart * Pi));
    }

    method Update(epoch: int)
      modifies this
      ensures State() == AfterUpdate(old(State()), epoch)
    {
      if epoch + 1 == nextCycleRestart {
        batchesSinceRestart := 0;
        cycleLength := Truncate(cycleLength as real * cycleLengthMultiplier);
        nextCycleRestart := nextCycleRestart + cycleLength;
        maxLearningRate := maxLearningRate * learningRateDecay;
      }
    }
  }

  // ---------------------------------------------------------------------------
  // Properties of the cyclic policy

  /** One call of get or update, in the order the trainer makes them. */
  datatype Call = GetCall | UpdateCall(epoch: int)

  function Run(s: CyclicState, calls: seq<Call>): CyclicState
    decreases |calls|
  {
    if |calls| == 0 then s
    else
      var next := match calls[0] case GetCall => AfterGet(s) case UpdateCall(e) => AfterUpdate(s, e);
      Run(next, calls[1..])
  }

  function GetCount(calls: seq<Call>): nat
  {
    if |calls| == 0 then 0 else (if calls[0].GetCall? then 1 else 0) + GetCount(calls[1..])
  }

  /** update restarts exactly when epoch + 1 is the restart epoch: the counter
      becomes 0, the cycle length its truncated product with the multiplier,
      the restart epoch moves on by the new length and the maximum decays; the
      minimum, multiplier, decay and batches per epoch never change. */
  lemma UpdateRestarts(s: CyclicState, epoch: int)
    ensures var t := AfterUpdate(s, epoch);
      t.minLearningRate == s.minLearningRate && t.cycleLengthMultiplier == s.cycleLengthMultiplier &&
      t.learningRateDecay == s.learningRateDecay && t.batchesPerEpoch == s.batchesPerEpoch
    ensures epoch + 1 != s.nextCycleRestart ==> AfterUpdate(s, epoch) == s
    ensures epoch + 1 == s.nextCycleRestart ==>
      var t := AfterUpdate(s, epoch);
      t.batchesSinceRestart == 0 &&
      t.cycleLength == Truncate(s.cycleLength as real * s.cycleLengthMultiplier) &&
      t.nextCycleRestart == s.nextCycleRestart + t.cycleLength &&
      t.maxLearningRate == s.maxLearningRate * s.learningRateDecay
  {
  }

  /** The constructor leaves the restart epoch at 0, so no update with a
      non-negative epoch ever restarts: after any calls the counter equals the
      number of gets and every other field keeps its initial value. */
  lemma {:induction false} FreshNeverRestarts(s: CyclicState, calls: seq<Call>)
    requires s.nextCycleRestart == 0
    requires forall k :: 0 <= k < |calls| && calls[k].UpdateCall? ==> calls[k].epoch >= 0
    ensures Run(s, calls) == s.(batchesSinceRestart := s.batchesSinceRestart + GetCount(calls))
    decreases |calls|
  {
    if |calls| > 0 {
      var next := match calls[0] case GetCall => AfterGet(s) case UpdateCall(e) => AfterUpdate(s, e);
      assert forall k :: 0 <= k < |calls[1..]| ==> calls[1..][k] == calls[k + 1];
      FreshNeverRestarts(next, calls[1..]);
    }
  }

  /** The first get of a fresh policy uses position 1 / (batchesPerEpoch *
      cycleLength) in the cycle. */
  lemma FirstGet(minLearningRate: real, maxLearningRate: real, cycleLength: int,
                 cycleLengthMultiplier: real, learningRateDecay: real, batchesPerEpoch: int)
    requires batchesPerEpoch as real * cycleLength as real != 0.0
    ensures var s := InitialCyclic(minLearningRate, maxLearningRate, cycleLength,
                                   cycleLengthMultiplier, learningRateDecay, batchesPerEpoch);
      GetDefined(s) && FractionToRestart(s) == 1.0 / (batchesPerEpoch as real * cycleLength as real) &&
      AfterGet(s).batchesSinceRestart == 1
  {
  }
}
