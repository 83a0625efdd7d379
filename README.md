# NeuralNetwork in Dafny

A model of the core of NeuralNetwork, a small Java library and JavaFX program
that trains a fully connected feed-forward network on the MNIST handwritten
digits and classifies digits drawn on a canvas. The model covers:

- **The network** (`Neurons`, `Layers`, `Networks`). Neuron, Layer and
  NeuralNetwork are classes over arrays, as in Java. Each class has a value
  view: `NeuronV` (weights and bias), `LayerV` and `NetworkV`. Every method is
  proved against functions on those views: the in-place parameter updates,
  the random constructors, deep copy, `calculateInputs`, both
  `forwardPropagate` forms, `forwardPropagateNoActivation`, `backPropagate`
  (the error recursion and the per-neuron changes), `toArray` and `fromArray`.
- **The text form** (`Serialization`). `toString` is `Arrays.deepToString` of
  `toArray`. `arrayFromString` takes the text apart with three nested splits
  over `Strings`' model of `String.split`. For any number formatter and
  parser that invert each other, the text parses back to `toArray`. Loading
  then goes through `Neuron.fromArray` as written, which shifts each neuron's
  weights (see Findings), so a saved network comes back unchanged exactly
  when every weight equals its neuron's bias. With the corrected decoder it
  always comes back unchanged.
- **The strategies** (`Activation`, `LegacyActivation`, `Calculus`, `Loss`,
  `LegacyLoss`, `Combos`). These are the activation and loss classes, the
  older enums with the same names, the `Calculus` helpers, and the three
  activation/loss combinations. `exp`, `log`, `tanh` and `cos` are parameters.
  They come with the axioms the code relies on (`Maths.Transcendentals`):
  `exp` is positive and `tanh` lies in (-1, 1).
- **The learning-rate policies** (`LearningRate`): fixed, linear, and cyclic
  with warm restarts.
- **The trainer** (`Training`), run sequentially:
  - the batches of an epoch, and one back-propagation slot per sample;
  - the summation into slot 0, the scaling by `BATCH_SIZE` and `-lr`, and
    the noise;
  - the update of the network in place;
  - the accuracy and certainty counts;
  - the best-network rule;
  - the epoch loop of `Trainer.start`.
- **The IDX files** (`Idx`, `MnistDataReader`, `UserDataFiles`,
  `MainControllerFiles`). These are the MNIST readers and the two writers of
  user drawings. A file is a byte buffer moved through by a modelled
  `RandomAccessFile` or `DataInputStream`.
- **Preprocessing and classification** (`Preprocessor`, `DrawingClassifier`):
  - `getSignificantPortion`, `scaleDown`, `normalizeDigit` and `blur2DArray`;
  - the rule that picks the digit shown;
  - `transformToString`.

Java's `double` is a Dafny `real`. Java's `int` is unbounded except where
wrap-around matters, in the IDX counters (`Idx.Wrap32`). Exceptions the code
raises on reachable inputs are `Outcomes.Result` errors. For example:

- a negative array size in the random constructors;
- an index out of bounds in the readers, the preprocessor and the loss functions;
- end of file;
- an unsupported activation/loss pair;
- a number that does not parse.

`Math.random()` is a stream of draws in [0, 1) passed in with a start
position. `Collections.shuffle` is an arbitrary permutation passed in per
epoch. The `training` flag that `stop()` clears from another thread becomes a
count of epochs after which the stop request arrives.

## Model

| member | source | states |
|---|---|---|
| Activation.LinearApply | src/main/java/com/thomas/neuralnetwork/math/activation/LinearActivation.java:7-9 | apply returns an array equal to its input |
| Activation.LinearDerive | src/main/java/com/thomas/neuralnetwork/math/activation/LinearActivation.java:12-16 | derive returns an array of the input's length in which every entry is 1 |
| Activation.ReLUApply | src/main/java/com/thomas/neuralnetwork/math/activation/ReLUActivation.java:5-11 | the loop yields x[i] where x[i] > 0 and 0 elsewhere, for every index |
| Activation.ReLUDerive | src/main/java/com/thomas/neuralnetwork/math/activation/ReLUActivation.java:14-20 | the loop yields 1 where x[i] > 0 and 0 elsewhere |
| Activation.LeakyReLUApply | src/main/java/com/thomas/neuralnetwork/math/ActivationFunction.java:41-47 | the loop yields x[i] where x[i] > 0 and 0.01·x[i] elsewhere |
| Activation.LeakyReLUDerive | src/main/java/com/thomas/neuralnetwork/math/ActivationFunction.java:50-56 | the loop yields 1 where x[i] > 0 and 0.01 elsewhere |
| Activation.SigmoidApply | src/main/java/com/thomas/neuralnetwork/math/activation/SigmoidActivation.java:5-11 | the loop yields 1/(1+exp(-x[i])) at every index |
| Activation.SigmoidDerive | src/main/java/com/thomas/neuralnetwork/math/activation/SigmoidActivation.java:14-21 | the loop yields s(1-s) with s the sigmoid of x[i] |
| Activation.TanhApply | src/main/java/com/thomas/neuralnetwork/math/activation/TanhActivation.java:5-11 | the loop yields tanh(x[i]) at every index |
| Activation.TanhDerive | src/main/java/com/thomas/neuralnetwork/math/activation/TanhActivation.java:14-21 | the loop yields 1 - tanh(x[i])² at every index |
| Activation.ExponentiatePass | src/main/java/com/thomas/neuralnetwork/math/activation/SoftmaxActivation.java:8-14 | the first pass leaves exp(x[i]) in a fresh array and eSum equal to the sum of those exponentials |
| Activation.SoftmaxApply | src/main/java/com/thomas/neuralnetwork/math/activation/SoftmaxActivation.java:7-21 | the two passes yield exp(x[i]) divided by the sum of all exponentials |
| Activation.FlattenedJacobian | src/main/java/com/thomas/neuralnetwork/math/activation/SoftmaxActivation.java:25-38 | the nested loops and the row-by-row flattening yield the n·n Jacobian entries, row after row |
| Activation.SoftmaxDerive | src/main/java/com/thomas/neuralnetwork/math/activation/SoftmaxActivation.java:24-39 | derive is the flattened Jacobian of the softmax of the input |
| Activation.Apply | src/main/java/com/thomas/neuralnetwork/math/activation/ActivationFunction.java:4 | the interface call apply runs the loop of the object's class |
| Activation.Derive | src/main/java/com/thomas/neuralnetwork/math/activation/ActivationFunction.java:6 | the interface call derive runs the loop of the object's class |
| Activation.ActivateKeepsLength | src/main/java/com/thomas/neuralnetwork/math/activation/ActivationFunction.java:3-7 | every apply keeps the input length, and so does every derive except softmax's |
| Activation.ExpSumPositive | src/main/java/com/thomas/neuralnetwork/math/activation/SoftmaxActivation.java:9-14 | with exp positive, eSum of a non-empty input is positive, so the division pass never divides by zero |
| Activation.ReLUProperties | src/main/java/com/thomas/neuralnetwork/math/activation/ReLUActivation.java:5-20 | ReLU outputs are non-negative; ReLU is idempotent; output = input·derivative; the derivative is 1 iff x > 0 and 0 iff x ≤ 0 |
| Activation.ReLUExample | src/test/java/com/thomas/neuralnetwork/math/ActivationFunctionTest.java:33-49 | apply of {1,-2,3} is {1,0,3} and derive is {1,0,1} |
| Activation.LinearProperties | src/test/java/com/thomas/neuralnetwork/math/ActivationFunctionTest.java:15-31 | linear apply is the identity, hence idempotent; the test vectors {1,2,3} give {1,2,3} and {1,1,1} |
| Activation.LeakyReLUProperties | src/main/java/com/thomas/neuralnetwork/math/ActivationFunction.java:41-56 | output = input·derivative; the derivative is 1 iff x > 0 and 0.01 iff x ≤ 0 |
| Activation.SigmoidProperties | src/main/java/com/thomas/neuralnetwork/math/activation/SigmoidActivation.java:5-21 | every output lies in (0,1); the derivative equals s(1-s) of the output and lies in (0, 1/4] |
| Activation.TanhProperties | src/main/java/com/thomas/neuralnetwork/math/activation/TanhActivation.java:5-21 | apply is tanh elementwise; the derivative is 1 - apply² and lies in (0, 1] |
| Activation.SoftmaxIsDistribution | src/main/java/com/thomas/neuralnetwork/math/activation/SoftmaxActivation.java:7-21 | for a non-empty input the outputs sum to 1 and each lies in (0, 1] (the test's sum-to-one assertion) |
| Activation.SoftmaxJacobianEntries | src/main/java/com/thomas/neuralnetwork/math/activation/SoftmaxActivation.java:24-38 | derive has n·n entries; entry i·n+j is s_i(1-s_j) on the diagonal and -s_i·s_j off it, and the matrix is symmetric |
| Activation.SoftmaxDerivedEntry | src/main/java/com/thomas/neuralnetwork/math/activation/SoftmaxActivation.java:28-38 | entry i·n+j of the flattened result is entry (i, j) of the Jacobian |
| Activation.FlattenIndex | src/main/java/com/thomas/neuralnetwork/math/activation/SoftmaxActivation.java:38 | flattening n rows of length m gives n·m entries with row i, column j at i·m+j |
| Activation.EntrySymmetric | src/main/java/com/thomas/neuralnetwork/math/activation/SoftmaxActivation.java:30-34 | entry (i, j) equals entry (j, i) and follows the diagonal/off-diagonal formula |
| Activation.SoftmaxJacobianRowsSumToZero | src/main/java/com/thomas/neuralnetwork/math/activation/SoftmaxActivation.java:24-38 | each row of the softmax Jacobian sums to 0 |
| Activation.JacobianRowSum | src/main/java/com/thomas/neuralnetwork/math/activation/SoftmaxActivation.java:28-36 | row i of the Jacobian of any vector s sums to s_i - s_i·Σs |
| LegacyActivation.SoftmaxApply | src/main/java/com/thomas/neuralnetwork/math/ActivationFunction.java:100-118 | SOFTMAX.apply: Err (the program exit) iff a quotient is not a number, i.e. a zero eSum; otherwise the softmax |
| LegacyActivation.Apply | src/main/java/com/thomas/neuralnetwork/math/ActivationFunction.java:139 | each variant's apply: the class loop for LINEAR..TANH, the NaN-checking loop for SOFTMAX |
| LegacyActivation.Derive | src/main/java/com/thomas/neuralnetwork/math/ActivationFunction.java:120-141 | each variant's derive; SOFTMAX.derive fails exactly when its call of apply does |
| LegacyActivation.NeverFails | src/main/java/com/thomas/neuralnetwork/math/ActivationFunction.java:109-115 | with exp > 0 the not-a-number exit is unreachable and every variant computes what its class computes |
| LegacyActivation.LeakyReLUVariant | src/main/java/com/thomas/neuralnetwork/math/ActivationFunction.java:39-57 | LEAKY_RELU gives x for positive x and 0.01x otherwise, with derivative 1 or 0.01 |
| Calculus.ApplyFunction | src/main/java/com/thomas/neuralnetwork/math/Calculus.java:10-21 | LINEAR leaves the array untouched; any other function replaces every element by f of its old value, in place |
| Calculus.ApplyDerivativeFunction | src/main/java/com/thomas/neuralnetwork/math/Calculus.java:29-39 | every element is replaced by f' of its old value; LINEAR fills the array with 1 |
| Calculus.SigmoidRange | src/main/java/com/thomas/neuralnetwork/math/Calculus.java:50-52 | the sigmoid lies strictly between 0 and 1 |
| Calculus.SigmoidDerivativeRange | src/main/java/com/thomas/neuralnetwork/math/Calculus.java:60-62 | the sigmoid derivative lies in (0, 1/4] |
| Calculus.TanhDerivativeRange | src/main/java/com/thomas/neuralnetwork/math/Calculus.java:90-92 | 1 - tanh² lies in (0, 1] |
| Calculus.RectifiersAreScaledByDerivative | src/main/java/com/thomas/neuralnetwork/math/Calculus.java:100-133 | ReLU and leaky ReLU equal d times their derivatives; ReLU' is 1 iff d > 0 and 0 iff d ≤ 0 (0 at d = 0); leaky' is 1 iff d > 0 and 0.01 iff d ≤ 0 |
| Combos.DerivativeLossWRTPreActivation | src/main/java/com/thomas/neuralnetwork/math/ActivationLossCombos.java:5-48 | SOFTMAX_CEE gives softmax(z) - a; SIGMOID_MSE and TANH_MSE give 2(g(z) - a)g'(z); a target longer than z is an index error |
| Combos.AgreesWithLossClasses | src/main/java/com/thomas/neuralnetwork/math/ActivationLossCombos.java:5-48 | each combination is a supported pair of the loss classes and computes exactly what that loss class's derive computes |
| Loss.Calculate | src/main/java/com/thomas/neuralnetwork/math/loss/MeanSquaredLoss.java:9-17 | calculate(actual, predicted): the accumulator loop over actual's length, then the class's final step (mean for MSE/MAE, negation for cross-entropy); a prediction shorter than the target fails with an index error |
| Loss.AddTerm | src/main/java/com/thomas/neuralnetwork/math/loss/CrossEntropyLoss.java:12-14 | one pass of the accumulator loop adds the class's own term: (a-p)², abs(a-p), or a·log(p + 1e-10) |
| Loss.CalculateBatch | src/main/java/com/thomas/neuralnetwork/math/loss/LossFunction.java:6-14 | the default calculate(double[][], double[][]) is the mean of the per-sample losses over actual's rows; a missing or short prediction row fails with an index error |
| Loss.ChainSquared | src/main/java/com/thomas/neuralnetwork/math/loss/MeanSquaredLoss.java:24-36 | the loop computes 2(g(z_i) - a_i)g'(z_i) for every target index; a shorter activation is an index error |
| Loss.SubtractTarget | src/main/java/com/thomas/neuralnetwork/math/loss/CrossEntropyLoss.java:23-28 | the loop computes softmax(z)_i - a_i for every target index; a shorter activation is an index error |
| Loss.Derive | src/main/java/com/thomas/neuralnetwork/math/loss/MeanSquaredLoss.java:20-42 | derive dispatches on the loss class and then on the activation's class; an unimplemented pair throws Unsupported |
| Loss.DeriveOutcomes | src/main/java/com/thomas/neuralnetwork/math/loss/MeanAbsoluteLoss.java:18-20 | derive fails as unsupported exactly outside {MSE with sigmoid or tanh, cross-entropy with softmax}; MAE always fails; supported pairs succeed given a long enough input |
| Loss.MeanSquaredDerivedFormulas | src/main/java/com/thomas/neuralnetwork/math/loss/MeanSquaredLoss.java:23-36 | MSE through sigmoid is 2(s-a)s(1-s); through tanh 2(t-a)(1-t²) |
| Loss.CrossEntropyGradientSumsToZero | src/main/java/com/thomas/neuralnetwork/math/loss/CrossEntropyLoss.java:20-34 | with a target summing to 1 of the input's length, the cross-entropy/softmax gradient sums to 0 |
| Loss.MeanSquaredZeroIff | src/main/java/com/thomas/neuralnetwork/math/loss/MeanSquaredLoss.java:9-17 | MSE is non-negative and 0 iff the prediction equals the target on actual's indices |
| Loss.MeanAbsoluteZeroIff | src/main/java/com/thomas/neuralnetwork/math/loss/MeanAbsoluteLoss.java:7-15 | MAE is non-negative and 0 iff the prediction equals the target on actual's indices |
| Loss.MeanAbsoluteSymmetric | src/main/java/com/thomas/neuralnetwork/math/loss/MeanAbsoluteLoss.java:7-15 | MAE is symmetric in its two arguments |
| Loss.CrossEntropyOneHot | src/main/java/com/thomas/neuralnetwork/math/loss/CrossEntropyLoss.java:8-17 | the cross-entropy of a one-hot target at k is -log(p_k + 1e-10) |
| Loss.BatchLossNonNegative | src/main/java/com/thomas/neuralnetwork/math/loss/LossFunction.java:6-14 | the batch loss is non-negative when every per-sample loss is |
| Loss.TenValueExample | src/test/java/com/thomas/neuralnetwork/math/LossFunctionTest.java:12-30 | targets 0..9 against predictions 9..0 give MSE 33 and MAE 5 |
| LegacyLoss.Calculate | src/main/java/com/thomas/neuralnetwork/math/LossFunction.java:6-66 | each variant's calculate computes the loss of its matching class, and fails with an index error on a prediction shorter than the target |
| LegacyLoss.CalculateBatch | src/main/java/com/thomas/neuralnetwork/math/LossFunction.java:81-89 | the enum's batch calculate is the class's batch mean, with the same index error on a missing or short prediction row |
| LegacyLoss.Gradient | src/main/java/com/thomas/neuralnetwork/math/LossFunction.java:17-78 | gradient: 2(p-a) for MSE; 1 if p > a else -1 for MAE; -a/(p + 1e-10) for cross-entropy, one entry per target; a prediction shorter than the target fails with an index error |
| LegacyLoss.MeanSquaredGradientZeroIff | src/main/java/com/thomas/neuralnetwork/math/LossFunction.java:17-25 | the MSE gradient entry is 0 iff the prediction equals the target |
| LegacyLoss.MeanAbsoluteGradientSign | src/main/java/com/thomas/neuralnetwork/math/LossFunction.java:40-53 | the MAE gradient is 1 iff p > a and -1 iff p ≤ a (ties give -1) |
| LegacyLoss.CrossEntropyGradientZeroWhereTargetZero | src/main/java/com/thomas/neuralnetwork/math/LossFunction.java:69-78 | the cross-entropy gradient is 0 wherever the target is 0 |
| LearningRate.FixedLearningRate.Update | src/main/java/com/thomas/neuralnetwork/math/learningRate/FixedLearningRate.java:16-18 | update leaves the rate get returns unchanged |
| LearningRate.FixedIgnoresUpdates | src/main/java/com/thomas/neuralnetwork/math/learningRate/FixedLearningRate.java:6-18 | whatever updates happen, get returns the constructor's argument |
| LearningRate.LinearLearningRate.constructor | src/main/java/com/thomas/neuralnetwork/math/learningRate/LinearLearningRate.java:7-10 | the rate starts at the initial rate with no updates made |
| LearningRate.LinearLearningRate.Get | src/main/java/com/thomas/neuralnetwork/math/learningRate/LinearLearningRate.java:12-14 | get changes nothing and returns initial + updates·increment |
| LearningRate.LinearLearningRate.Update | src/main/java/com/thomas/neuralnetwork/math/learningRate/LinearLearningRate.java:17-19 | update adds the increment once, whatever the epoch argument |
| LearningRate.InitialCyclic | src/main/java/com/thomas/neuralnetwork/math/learningRate/CyclicLearningRate.java:14-21 | the constructor sets the six parameters and leaves both counters at Java's default 0 |
| LearningRate.CyclicRate | src/main/java/com/thomas/neuralnetwork/math/learningRate/CyclicLearningRate.java:25-26 | the cosine-annealed rate lies in [min, max] whenever min ≤ max |
| LearningRate.CyclicLearningRate.constructor | src/main/java/com/thomas/neuralnetwork/math/learningRate/CyclicLearningRate.java:14-21 | the object's state is the initial cyclic state |
| LearningRate.CyclicLearningRate.Get | src/main/java/com/thomas/neuralnetwork/math/learningRate/CyclicLearningRate.java:24-27 | get pre-increments the counter by one, changes nothing else, and returns the rate at the new position |
| LearningRate.CyclicLearningRate.Update | src/main/java/com/thomas/neuralnetwork/math/learningRate/CyclicLearningRate.java:30-39 | update moves the state as AfterUpdate says |
| LearningRate.UpdateRestarts | src/main/java/com/thomas/neuralnetwork/math/learningRate/CyclicLearningRate.java:30-39 | update changes nothing unless epoch+1 is the restart epoch; a restart zeroes the counter, truncates cycleLength·multiplier, advances the restart by the new length, decays max, and keeps min |
| LearningRate.FreshNeverRestarts | src/main/java/com/thomas/neuralnetwork/math/learningRate/CyclicLearningRate.java:5 | from a state whose restart epoch is 0, no run of gets and updates with epochs ≥ 0 ever restarts: only the counter grows, by one per get |
| LearningRate.FirstGet | src/main/java/com/thomas/neuralnetwork/math/learningRate/CyclicLearningRate.java:4-26 | the first get of a fresh policy uses position 1/(batchesPerEpoch·cycleLength) |
| Neurons.ToArray | src/main/java/com/thomas/neuralnetwork/ai/Neuron.java:144-148 | toArray has one entry more than the weights: the weights, then the bias |
| Neurons.FromArrayInvertsToArray | src/main/java/com/thomas/neuralnetwork/ai/Neuron.java:133-137 | the corrected fromArray inverts toArray in both directions: fromArray(toArray(n)) = n, and every non-empty array comes back from toArray(fromArray(a)) |
| Neurons.AsWrittenRoundTrip | src/main/java/com/thomas/neuralnetwork/ai/Neuron.java:133-137 | fromArray as written after toArray drops the first weight and repeats the bias; the round trip holds iff every weight equals the bias |
| Neurons.ShiftedEqualIsConstant | src/main/java/com/thomas/neuralnetwork/ai/Neuron.java:135 | a weight sequence equal to its own shift by one with the bias appended is constant |
| Neurons.AsWrittenCounterexample | src/main/java/com/thomas/neuralnetwork/ai/Neuron.java:133-137 | the neuron with weight 1.0 and bias 0.0 comes back from the written fromArray with weight 0.0 |
| Neurons.Neuron.constructor | src/main/java/com/thomas/neuralnetwork/ai/Neuron.java:16-19 | the neuron keeps the caller's array (no copy) and the bias |
| Neurons.Neuron.AddToBias | src/main/java/com/thomas/neuralnetwork/ai/Neuron.java:27-30 | the bias becomes old + addend; the weight array is the same object with the same contents |
| Neurons.Neuron.SubtractFromBias | src/main/java/com/thomas/neuralnetwork/ai/Neuron.java:63-66 | the bias becomes old - d; the weights are untouched |
| Neurons.Neuron.MultiplyBias | src/main/java/com/thomas/neuralnetwork/ai/Neuron.java:83-86 | the bias becomes old · multiplicand; the weights are untouched |
| Neurons.Neuron.AddToConnection | src/main/java/com/thomas/neuralnetwork/ai/Neuron.java:39-42 | only slot index changes, to old + addend; every other weight and the bias stay |
| Neurons.Neuron.SetConnection | src/main/java/com/thomas/neuralnetwork/ai/Neuron.java:165-167 | only slot index changes, to value; every other weight and the bias stay |
| Neurons.Neuron.AddToConnections | src/main/java/com/thomas/neuralnetwork/ai/Neuron.java:50-55 | every weight i becomes old + addend[i]; the bias stays; addend needs at least as many entries as there are weights |
| Neurons.Neuron.MultiplyConnections | src/main/java/com/thomas/neuralnetwork/ai/Neuron.java:94-99 | every weight is scaled by the multiplicand; the bias stays |
| Neurons.Neuron.MultiplyConnectionsPointwise | src/main/java/com/thomas/neuralnetwork/ai/Neuron.java:107-112 | every weight i is scaled by multiplicand[i]; the bias stays |
| Neurons.Neuron.WeightedSum | src/main/java/com/thomas/neuralnetwork/ai/Neuron.java:120-125 | the bias grows by Σ weights[i]·previousActivations[i] over the activations' length; the weights are unchanged |
| Neurons.Neuron.ToArrayMethod | src/main/java/com/thomas/neuralnetwork/ai/Neuron.java:144-148 | toArray of the neuron is the weights then the bias, and nothing changes |
| Neurons.Neuron.Copy | src/main/java/com/thomas/neuralnetwork/ai/Neuron.java:73-75 | copy is a new neuron over a fresh weight array equal to the original's, with the same bias |
| Neurons.Neuron.GetConnections | src/main/java/com/thomas/neuralnetwork/ai/Neuron.java:155-157 | getConnections returns the neuron's own array (an alias, not a copy) |
| Neurons.Neuron.SetConnections | src/main/java/com/thomas/neuralnetwork/ai/Neuron.java:174-176 | the neuron adopts the caller's array; the bias stays |
| Neurons.Neuron.SetBias | src/main/java/com/thomas/neuralnetwork/ai/Neuron.java:192-194 | the bias becomes value; the weights stay |
| Neurons.FromArrayAsWrittenMethod | src/main/java/com/thomas/neuralnetwork/ai/Neuron.java:133-137 | fromArray as written over a fresh neuron: fails on an empty array (new double[-1]), else weights array[1..] and bias array[last] |
| Neurons.FromArrayMethod | src/main/java/com/thomas/neuralnetwork/ai/Neuron.java:133-137 | the intended half of the Neuron.fromArray finding: the corrected fromArray over a fresh neuron, weights array[..last] and bias array[last]; fails on an empty array |
| Layers.Preactivation | src/main/java/com/thomas/neuralnetwork/ai/Layer.java:54-63 | one value per neuron: its bias plus the weighted inputs over the inputs' length |
| Layers.LayerToArray | src/main/java/com/thomas/neuralnetwork/ai/Layer.java:84-90 | toArray fails exactly on an empty layer (it reads neurons[0]); otherwise row i is neuron i's toArray |
| Layers.LayerFromArray | src/main/java/com/thomas/neuralnetwork/ai/Layer.java:71-77 | fromArray decodes row i into neuron i with Neuron.fromArray as written (weights from offset 1); it fails exactly when some row is empty |
| Layers.LayerRoundTrip | src/main/java/com/thomas/neuralnetwork/ai/Layer.java:71-90 | as written, toArray then fromArray gives back a non-empty layer with every neuron shifted one weight down, so the layer comes back unchanged exactly when every weight of every neuron equals its bias |
| Layers.LayerFromArrayIntended | src/main/java/com/thomas/neuralnetwork/ai/Layer.java:71-77 | the intended half of the Neuron.fromArray finding at layer level: every row decoded by the corrected neuron decoder; fails exactly when some row is empty |
| Layers.LayerRoundTripIntended | src/main/java/com/thomas/neuralnetwork/ai/Layer.java:71-90 | with the corrected neuron decoder every non-empty layer survives toArray then fromArray unchanged |
| Layers.Layer.constructor | src/main/java/com/thomas/neuralnetwork/ai/Layer.java:28-30 | Layer(Neuron[]) keeps the caller's array |
| Layers.Layer.CalculateInputs | src/main/java/com/thomas/neuralnetwork/ai/Layer.java:54-63 | calculateInputs returns bias_i + Σ_o inputs[o]·w_i[o] for every neuron and modifies no neuron |
| Layers.NeuronInput | src/main/java/com/thomas/neuralnetwork/ai/Layer.java:57-60 | the inner loop for one neuron: its bias, then each input times its weight |
| Layers.Layer.Copy | src/main/java/com/thomas/neuralnetwork/ai/Layer.java:37-43 | copy is deep: a fresh layer whose footprint is all new objects and whose value equals the original's |
| Layers.MakeLayer | src/main/java/com/thomas/neuralnetwork/ai/Layer.java:42 | a layer over a fresh array holding the given neurons, in order |
| Layers.Layer.ToArray | src/main/java/com/thomas/neuralnetwork/ai/Layer.java:84-90 | the method computes LayerToArray of the layer's value |
| Layers.RandomNeuronV | src/main/java/com/thomas/neuralnetwork/ai/Layer.java:15-19 | a random neuron has one weight per previous neuron |
| Layers.RandomLayerV | src/main/java/com/thomas/neuralnetwork/ai/Layer.java:12-21 | the random layer has numNeurons neurons, neuron j taking its weights and bias from consecutive draws |
| Layers.RandomLayerShape | src/main/java/com/thomas/neuralnetwork/ai/Layer.java:12-21 | every weight and bias of a random layer lies in [-1, 1) and every neuron has numPreviousNeurons weights |
| Layers.RandomLayer | src/main/java/com/thomas/neuralnetwork/ai/Layer.java:12-21 | the random constructor throws a negative-array-size error, before any draw, exactly when numNeurons < 0 or numNeurons > 0 with numPreviousNeurons < 0; otherwise it builds RandomLayerV from the draw stream and consumes numNeurons·(numPreviousNeurons+1) draws |
| Layers.RandomNeurons | src/main/java/com/thomas/neuralnetwork/ai/Layer.java:13-20 | the constructor's loop over valid sizes makes numNeurons fresh neurons whose value is RandomLayerV and takes numNeurons·(weights+1) draws |
| Layers.AddRandomNeuron | src/main/java/com/thomas/neuralnetwork/ai/Layer.java:14-20 | one pass of the outer loop appends one fresh random neuron and keeps the earlier ones |
| Layers.RandomNeuron | src/main/java/com/thomas/neuralnetwork/ai/Layer.java:15-19 | one neuron: its weights from the next draws, then its bias from the draw after them |
| Layers.RandomWeights | src/main/java/com/thomas/neuralnetwork/ai/Layer.java:16-18 | weight o is draw·2 - 1 for consecutive draws |
| Layers.FromArrayMethod | src/main/java/com/thomas/neuralnetwork/ai/Layer.java:71-77 | fromArray builds a fresh layer of neurons decoded by Neuron.fromArray as written, whose value is LayerFromArray, failing exactly when it does |
| Networks.ShapedIsChained | src/main/java/com/thomas/neuralnetwork/ai/NeuralNetwork.java:71-77 | a network in which each neuron has one weight per previous output can propagate every layer's output into the next |
| Networks.Forward | src/main/java/com/thomas/neuralnetwork/ai/NeuralNetwork.java:88-97 | forwardPropagate(x, maxIndex) has the input's length for maxIndex < 0, else layer maxIndex's width |
| Networks.Preactivations | src/main/java/com/thomas/neuralnetwork/ai/NeuralNetwork.java:107-120 | forwardPropagateNoActivation(x, maxIndex) has the input's length for maxIndex < 0, else layer maxIndex's width |
| Networks.BackSums | src/main/java/com/thomas/neuralnetwork/ai/NeuralNetwork.java:147-154 | layerErrorSums has one entry per neuron of layer l |
| Networks.Pointwise | src/main/java/com/thomas/neuralnetwork/ai/NeuralNetwork.java:165-169 | errorGradients[l] has one entry per layer derivative |
| Networks.Gradient | src/main/java/com/thomas/neuralnetwork/ai/NeuralNetwork.java:136-170 | δL/δz of layer k has one entry per neuron of layer k |
| Networks.GradientStep | src/main/java/com/thomas/neuralnetwork/ai/NeuralNetwork.java:142-170 | below the output layer, δ_k is computed from δ_{k+1} by one step of the recursion |
| Networks.GradientBelow | src/main/java/com/thomas/neuralnetwork/ai/NeuralNetwork.java:147-169 | one step of the recursion has one entry per neuron of layer k |
| Networks.GradientBelowAt | src/main/java/com/thomas/neuralnetwork/ai/NeuralNetwork.java:147-169 | δ_k[i] = (Σ_j δ_{k+1}[j]·W_{k+1}[j][i]) · act'(z_k)[i] |
| Networks.NeuronChanges | src/main/java/com/thomas/neuralnetwork/ai/NeuralNetwork.java:179-188 | a neuron's row has weights+1 entries: previous activation i times δ for each weight, then δ for the bias |
| Networks.ChangesFromGradients | src/main/java/com/thomas/neuralnetwork/ai/NeuralNetwork.java:172-194 | the rows the second loop assembles, layer by layer, are the changes of the gradients |
| Networks.OutputGradient | src/main/java/com/thomas/neuralnetwork/ai/NeuralNetwork.java:139 | the loss's derive at the output layer fails, as Unsupported, exactly when the loss does not support the output activation, and otherwise has the target's length |
| Networks.BackpropOutcome | src/main/java/com/thomas/neuralnetwork/ai/NeuralNetwork.java:130-197 | backPropagate fails exactly when the loss does not support the output activation; otherwise it returns the changes of the loss's gradient |
| Networks.ChangesShape | src/main/java/com/thomas/neuralnetwork/ai/NeuralNetwork.java:172-194 | the result has the network's shape; the row of neuron j of layer l is forwardPropagate(x, l-1)[i]·δ_l[j] for each weight i, then δ_l[j] |
| Networks.DefaultBackpropSucceeds | src/main/java/com/thomas/neuralnetwork/ai/NeuralNetwork.java:17-19 | with the class's own choices (cross-entropy over softmax) backPropagate never fails on a sample that fits |
| Networks.ForwardIsActivatedPreactivation | src/main/java/com/thomas/neuralnetwork/ai/NeuralNetwork.java:88-120 | forwardPropagate(x, -1) is x, and forwardPropagate(x, m) is the layer's activation (hidden below the last layer, output at it) applied to forwardPropagateNoActivation(x, m) |
| Networks.NetworkToArray | src/main/java/com/thomas/neuralnetwork/ai/NeuralNetwork.java:224-230 | toArray fails exactly when some layer is empty; otherwise entry l is layer l's toArray |
| Networks.NetworkFromArray | src/main/java/com/thomas/neuralnetwork/ai/NeuralNetwork.java:238-244 | fromArray fails exactly when some neuron row is empty; otherwise layer l is Layer.fromArray (as written) of entry l |
| Networks.NetworkRoundTrip | src/main/java/com/thomas/neuralnetwork/ai/NeuralNetwork.java:224-244 | as written, toArray then fromArray gives back a network without empty layers with every neuron shifted, so it comes back unchanged exactly when every weight of every neuron equals its bias |
| Networks.NetworkFromArrayIntended | src/main/java/com/thomas/neuralnetwork/ai/NeuralNetwork.java:238-244 | the intended half of the Neuron.fromArray finding at network level: every layer decoded with the corrected decoder |
| Networks.NetworkRoundTripIntended | src/main/java/com/thomas/neuralnetwork/ai/NeuralNetwork.java:224-244 | with the corrected decoder every network without empty layers survives toArray then fromArray unchanged |
| Networks.NeuralNetwork.constructor | src/main/java/com/thomas/neuralnetwork/ai/NeuralNetwork.java:60-62 | NeuralNetwork(Layer[]) keeps the caller's array |
| Networks.NeuralNetwork.Copy | src/main/java/com/thomas/neuralnetwork/ai/NeuralNetwork.java:211-217 | copy is deep: every object of the copy is new, and its value equals the original's |
| Networks.NeuralNetwork.ToArray | src/main/java/com/thomas/neuralnetwork/ai/NeuralNetwork.java:224-230 | the method computes NetworkToArray of the network's value |
| Networks.NeuralNetwork.ForwardPropagateTo | src/main/java/com/thomas/neuralnetwork/ai/NeuralNetwork.java:88-97 | the loop computes Forward(x, maxIndex) and changes nothing |
| Networks.NeuralNetwork.ForwardPropagate | src/main/java/com/thomas/neuralnetwork/ai/NeuralNetwork.java:70-79 | forwardPropagate(x) equals forwardPropagate(x, layers.length-1) |
| Networks.NeuralNetwork.Step | src/main/java/com/thomas/neuralnetwork/ai/NeuralNetwork.java:72-76 | one loop pass: the layer's pre-activation, then the hidden or the output activation |
| Networks.NeuralNetwork.ForwardPropagateNoActivation | src/main/java/com/thomas/neuralnetwork/ai/NeuralNetwork.java:107-120 | the loop computes Preactivations(x, maxIndex): activated layers below maxIndex, the raw pre-activation at it |
| Networks.NeuralNetwork.BackPropagate | src/main/java/com/thomas/neuralnetwork/ai/NeuralNetwork.java:130-197 | backPropagate computes Backprop of the network's value and changes no layer |
| Networks.NeuralNetwork.ChangesFromTop | src/main/java/com/thomas/neuralnetwork/ai/NeuralNetwork.java:141-196 | both loops after the loss's derive compute the changes of the output gradient |
| Networks.NeuralNetwork.ErrorGradients | src/main/java/com/thomas/neuralnetwork/ai/NeuralNetwork.java:136-170 | the first loop leaves errorGradients[m] equal to δL/δz of layer m for every layer |
| Networks.NeuralNetwork.PrependGradient | src/main/java/com/thomas/neuralnetwork/ai/NeuralNetwork.java:142-170 | one pass of the first loop puts layer l's gradient in front of the later ones |
| Networks.NeuralNetwork.DeltaLayers | src/main/java/com/thomas/neuralnetwork/ai/NeuralNetwork.java:172-194 | the second loop leaves deltaLayers[m] equal to layer m's rows of changes |
| Networks.NeuralNetwork.LayerGradient | src/main/java/com/thomas/neuralnetwork/ai/NeuralNetwork.java:147-169 | one pass of the first loop computes layer l's gradient from layer l+1's |
| Networks.NeuralNetwork.LayerChanges | src/main/java/com/thomas/neuralnetwork/ai/NeuralNetwork.java:175-193 | the neuron loop for layer l computes that layer's rows of changes |
| Networks.NeuralNetwork.AddNeuronRow | src/main/java/com/thomas/neuralnetwork/ai/NeuralNetwork.java:178-191 | one pass of the neuron loop appends the row of the next neuron and keeps the earlier rows |
| Networks.NeuralNetwork.NeuronRow | src/main/java/com/thomas/neuralnetwork/ai/NeuralNetwork.java:179-188 | neuron j's row from forwardPropagate(x, l-1) and its δ |
| Networks.HiddenGradient | src/main/java/com/thomas/neuralnetwork/ai/NeuralNetwork.java:158-169 | δL/δz of a hidden layer is the error sums times the activation's derivative, index by index |
| Networks.PointwiseProduct | src/main/java/com/thomas/neuralnetwork/ai/NeuralNetwork.java:165-169 | the loop yields sums[j]·derivatives[j] for every j |
| Networks.AddScaled | src/main/java/com/thomas/neuralnetwork/ai/NeuralNetwork.java:150-153 | the inner loop adds d·w[k] to every acc[k] |
| Networks.NeuronChangesOf | src/main/java/com/thomas/neuralnetwork/ai/NeuralNetwork.java:179-188 | the loop fills previous[i]·δ for each weight and δ for the bias |
| Networks.BackSumsStep | src/main/java/com/thomas/neuralnetwork/ai/NeuralNetwork.java:149-154 | one pass of the outer loop extends every partial sum by neuron j's term |
| Networks.ErrorSums | src/main/java/com/thomas/neuralnetwork/ai/NeuralNetwork.java:147-154 | layerErrorSums[k] = Σ_j δ_{l+1}[j]·w_j[k] for every output k of the layer below |
| Networks.AccumulateNeuron | src/main/java/com/thomas/neuralnetwork/ai/NeuralNetwork.java:149-154 | after neuron j, every acc[k] holds the sum of the first j+1 terms |
| Networks.MakeNetwork | src/main/java/com/thomas/neuralnetwork/ai/NeuralNetwork.java:216 | a network over a fresh array holding the given layers, in order |
| Networks.FromArray | src/main/java/com/thomas/neuralnetwork/ai/NeuralNetwork.java:238-244 | fromArray builds a fresh network whose value is NetworkFromArray (neurons decoded as written), failing exactly when it does |
| Networks.AddArrayLayer | src/main/java/com/thomas/neuralnetwork/ai/NeuralNetwork.java:240-242 | one pass of fromArray's loop decodes layer \|made\| through Layer.fromArray as written and keeps the earlier layers |
| Networks.RandomNetworkV | src/main/java/com/thomas/neuralnetwork/ai/NeuralNetwork.java:48-53 | NeuralNetwork(int[] sizes) has sizes.length-1 layers, layer k built from the draws at its start |
| Networks.RandomNetworkShape | src/main/java/com/thomas/neuralnetwork/ai/NeuralNetwork.java:48-53 | layer i-1 has sizes[i] neurons with sizes[i-1] weights each, so adjacent widths chain; with draws in [0,1) every weight and bias is in [-1,1) |
| Networks.HasSizesIsShaped | src/main/java/com/thomas/neuralnetwork/ai/NeuralNetwork.java:48-53 | a network with the layer sizes of `sizes` accepts sizes[0] inputs at every layer |
| Networks.Assemble | src/main/java/com/thomas/neuralnetwork/ai/NeuralNetwork.java:60-62 | a network over the given layers keeps their values |
| Networks.FromSizes | src/main/java/com/thomas/neuralnetwork/ai/NeuralNetwork.java:48-53 | an empty sizes array fails (new Layer[-1]); so does a layer whose Layer constructor throws on a negative size, after the earlier layers took their draws; otherwise the network is RandomNetworkV of the sizes |
| Networks.BuildableSizes | src/main/java/com/thomas/neuralnetwork/ai/NeuralNetwork.java:48-53 | the layers can all be built exactly when every size after the first is at least 0 and a negative first size is followed by a zero; so a negative hidden size always throws |
| Networks.NaturalSizes | src/main/java/com/thomas/neuralnetwork/ai/NeuralNetwork.java:48-53 | sizes that are all at least 0 can all be built and are used as they are |
| Networks.RandomLayers | src/main/java/com/thomas/neuralnetwork/ai/NeuralNetwork.java:49-52 | the layer loop makes sizes.length-1 fresh, separate random layers from consecutive draws, or stops with the first layer whose sizes throw |
| Networks.ExtendRandomLayers | src/main/java/com/thomas/neuralnetwork/ai/NeuralNetwork.java:50-52 | the layer loop from layer \|made\| on keeps the earlier layers and adds the random ones, or fails at the first layer whose sizes throw, with the draws of the layers before it taken |
| Networks.AddRandomLayer | src/main/java/com/thomas/neuralnetwork/ai/NeuralNetwork.java:51 | one pass of the layer loop: a fresh random layer for sizes[\|made\|+1], or the constructor's negative-array-size error with no draw taken |
| Networks.HiddenSizes | src/main/java/com/thomas/neuralnetwork/ai/NeuralNetwork.java:31-38 | the sizes the four parameters describe: numInput, numHidden times numPerHidden, then numOutput |
| Networks.NewNetwork | src/main/java/com/thomas/neuralnetwork/ai/NeuralNetwork.java:31-38 | the four-argument constructor builds NewNetworkV from the draws, layer 0 first, then the hidden ones, then the last slot |
| Networks.NoHiddenNetwork | src/main/java/com/thomas/neuralnetwork/ai/NeuralNetwork.java:31-38 | with numHidden = 0 both constructor calls take their draws and the network keeps only the output layer over numPerHidden inputs |
| Networks.NewNetworkShape | src/main/java/com/thomas/neuralnetwork/ai/NeuralNetwork.java:31-38 | with numHidden ≥ 1 it builds numHidden+1 layers: the first over numInput inputs, the last numOutput wide, all chained; draws in [0,1) give weights in [-1,1) |
| Networks.NoHiddenLayerIgnoresInputs | src/main/java/com/thomas/neuralnetwork/ai/NeuralNetwork.java:32-37 | with numHidden = 0 line 37 overwrites line 33: the single layer has numOutput neurons over numPerHidden inputs, so it cannot take numInput inputs |
| Networks.NewNetworkIntended | src/main/java/com/thomas/neuralnetwork/ai/NeuralNetwork.java:31-38 | the constructor as intended builds the random network of HiddenSizes for every numHidden |
| Networks.NewNetworkIntendedShape | src/main/java/com/thomas/neuralnetwork/ai/NeuralNetwork.java:31-38 | the intended constructor's network has numHidden+1 layers of the described sizes and takes numInput inputs, also with no hidden layer |
| Serialization.NetworkToString | src/main/java/com/thomas/neuralnetwork/ai/NeuralNetwork.java:296-299 | toString fails exactly when toArray does; otherwise it is the deepToString text of toArray |
| Serialization.ParseRow | src/main/java/com/thomas/neuralnetwork/ai/NeuralNetwork.java:282-286 | a row's text is split on ", " and every token parsed; an unparsable token is a NumberFormat failure |
| Serialization.ParseLayer | src/main/java/com/thomas/neuralnetwork/ai/NeuralNetwork.java:278-288 | a layer's text is split on "], [" and every piece parsed as a row |
| Serialization.ArrayFromText | src/main/java/com/thomas/neuralnetwork/ai/NeuralNetwork.java:271-294 | arrayFromString fails with a substring error iff the text is shorter than 6 characters; otherwise it strips 3 characters at each end and splits on "]], [[", then rows, then numbers |
| Serialization.LayerTextShape | src/main/java/com/thomas/neuralnetwork/ai/NeuralNetwork.java:298 | a non-empty layer prints as its rows joined by "], [" inside "[[" and "]]" |
| Serialization.ArrayTextShape | src/main/java/com/thomas/neuralnetwork/ai/NeuralNetwork.java:298 | a non-empty array prints as its layers joined by "]], [[" inside "[[[" and "]]]" |
| Serialization.RowTextRoundTrip | src/main/java/com/thomas/neuralnetwork/ai/NeuralNetwork.java:282-286 | a non-empty row's printed text parses back to the row |
| Serialization.LayerTextRoundTrip | src/main/java/com/thomas/neuralnetwork/ai/NeuralNetwork.java:278-288 | a full layer's printed text parses back to the layer |
| Serialization.TextRoundTrip | src/main/java/com/thomas/neuralnetwork/ai/NeuralNetwork.java:271-299 | arrayFromString inverts deepToString on arrays with no empty dimension, when number text has no brackets or ", " and parse∘show = id |
| Serialization.NetworkTextRoundTrip | src/main/java/com/thomas/neuralnetwork/ai/NeuralNetwork.java:238-299 | parsing toString gives back toArray; fromArray as written then gives back the network with every neuron shifted, so the save/load of the test gives back the network exactly when every weight of every neuron equals its bias |
| Serialization.NetworkTextRoundTripIntended | src/main/java/com/thomas/neuralnetwork/ai/NeuralNetwork.java:238-299 | the intended half: parsing toString and decoding with the corrected fromArray give back the network, which is what NeuralNetworkTest.java:26 asserts |
| Serialization.TextOfArray | src/main/java/com/thomas/neuralnetwork/ai/NeuralNetwork.java:247-299 | the text of a network with at least one layer and no empty layer parses back to its toArray |
| Serialization.EmptyNetworkText | src/main/java/com/thomas/neuralnetwork/ai/NeuralNetwork.java:273 | a network without layers prints as "[]", which is too short for arrayFromString's substring |
| Serialization.ToText | src/main/java/com/thomas/neuralnetwork/ai/NeuralNetwork.java:296-299 | toString on the class computes NetworkToString of its value |
| Serialization.ArrayFromString | src/main/java/com/thomas/neuralnetwork/ai/NeuralNetwork.java:271-294 | the three nested loops compute ArrayFromText |
| Serialization.ParseLayerText | src/main/java/com/thomas/neuralnetwork/ai/NeuralNetwork.java:277-291 | the middle loop computes ParseLayer of one layer's text |
| Serialization.ParseRowText | src/main/java/com/thomas/neuralnetwork/ai/NeuralNetwork.java:282-287 | the innermost loop computes ParseRow of one row's text |
| Serialization.FromFile | src/main/java/com/thomas/neuralnetwork/ai/NeuralNetwork.java:253-269 | fromFile concatenates the lines without separators, parses them, and builds the network with fromArray as written |
| Training.BatchesPartition | src/main/java/com/thomas/neuralnetwork/ai/Trainer.java:74-99 | the ceilDiv(n, 32) batches are non-empty, hold at most 32 samples, each begins where the previous ends, and the last ends at n; no samples means no batches |
| Training.BatchBounds | src/main/java/com/thomas/neuralnetwork/ai/Trainer.java:98-99 | batch b runs over a non-empty range [b*32, min((b+1)*32, n)) inside the sample list, of at most 32 samples |
| Training.BatchOf | src/main/java/com/thomas/neuralnetwork/ai/Trainer.java:95-99 | every sample i lies in batch i / 32 and in no other batch |
| Training.BatchBackPropagate | src/main/java/com/thomas/neuralnetwork/ai/Trainer.java:225-247 | desiredChanges has batchEnd - batchStart slots and slot k holds backPropagate of sample batchStart + k under the network as it was |
| Training.FilledAt | src/main/java/com/thomas/neuralnetwork/ai/Trainer.java:232-238 | the slots filled one after another hold, at each k, the deltas of sample start + k |
| Training.SampleBackPropagate | src/main/java/com/thomas/neuralnetwork/ai/Trainer.java:235 | one task of batchBackPropagate: the sample's deltas under the network's fixed configuration |
| Training.SampleDeltasShape | src/main/java/com/thomas/neuralnetwork/ai/Trainer.java:235 | a sample's deltas have the network's shape: one row per neuron of weights plus one bias entry |
| Training.AddRow | src/main/java/com/thomas/neuralnetwork/ai/Trainer.java:109-111 | the innermost summation adds two rows entry by entry |
| Training.TotalIsSum | src/main/java/com/thomas/neuralnetwork/ai/Trainer.java:104-114 | after the summation loops each entry (x, y, z) of slot 0 is the sum of that entry over every slot |
| Training.AddRowInto | src/main/java/com/thomas/neuralnetwork/ai/Trainer.java:109-111 | the z loop leaves the row equal to the entrywise sum |
| Training.AddLayerInto | src/main/java/com/thomas/neuralnetwork/ai/Trainer.java:108-112 | the y loop adds each row of a layer |
| Training.AddDeltasInto | src/main/java/com/thomas/neuralnetwork/ai/Trainer.java:107-113 | the x loop adds each layer of a slot into slot 0 |
| Training.SumSlots | src/main/java/com/thomas/neuralnetwork/ai/Trainer.java:103-114 | the o loop leaves slot 0 holding the total of all the slots |
| Training.NoiseBounded | src/main/java/com/thomas/neuralnetwork/ai/Trainer.java:116-127 | a scaled entry is v / 32 * (-lr) moved by less than noiseStrength, and one or two random draws are read for it depending on the noise test |
| Training.NoNoiseRow | src/main/java/com/thomas/neuralnetwork/ai/Trainer.java:118-126 | with noiseFreq <= 0 every entry of a row is only scaled and one draw is read per entry |
| Training.NoNoiseRows | src/main/java/com/thomas/neuralnetwork/ai/Trainer.java:117-127 | with noiseFreq <= 0 every row of a layer is only scaled and one draw is read per entry |
| Training.NoNoise | src/main/java/com/thomas/neuralnetwork/ai/Trainer.java:116-129 | with noiseFreq <= 0 the averaged changes are sum / 32 * (-lr) entry by entry, shape unchanged, one draw per entry |
| Training.ScaleEntryMethod | src/main/java/com/thomas/neuralnetwork/ai/Trainer.java:119-126 | the body of the scaling loops: divide, multiply by -lr, then add noise when the draw is below noiseFreq |
| Training.ScaleRowMethod | src/main/java/com/thomas/neuralnetwork/ai/Trainer.java:118-127 | the z loop of the scaling, entry by entry through the random stream |
| Training.ScaleRowsMethod | src/main/java/com/thomas/neuralnetwork/ai/Trainer.java:117-128 | the y loop of the scaling over a layer's rows |
| Training.ScaleDeltasMethod | src/main/java/com/thomas/neuralnetwork/ai/Trainer.java:116-129 | the x loop of the scaling over the layers of slot 0 |
| Training.ScaleDeltasShape | src/main/java/com/thomas/neuralnetwork/ai/Trainer.java:116-129 | scaling keeps the shape of the summed changes |
| Training.NudgedLayer | src/main/java/com/thomas/neuralnetwork/ai/Trainer.java:133-138 | a layer after the update keeps its number of neurons |
| Training.UpdateKeepsArchitecture | src/main/java/com/thomas/neuralnetwork/ai/Trainer.java:132-139 | the update changes values only: layers, neurons per layer and weights per neuron stay, so every sample that fitted still fits |
| Training.SameArchitectureFits | src/main/java/com/thomas/neuralnetwork/ai/Trainer.java:132-139 | two networks of one architecture accept the same samples |
| Training.NudgedArray | src/main/java/com/thomas/neuralnetwork/ai/Trainer.java:134-137 | addToConnections of a row without its last entry and addToBias of that entry add the row to the neuron's toArray form |
| Training.UpdateAddsChanges | src/main/java/com/thomas/neuralnetwork/ai/Trainer.java:132-139 | the update adds the averaged changes to the network's toArray form, entry for entry |
| Training.UpdateNeuron | src/main/java/com/thomas/neuralnetwork/ai/Trainer.java:134-137 | neuron y of the layer is nudged by its row and every other neuron is left alone |
| Training.UpdateLayer | src/main/java/com/thomas/neuralnetwork/ai/Trainer.java:133-138 | the y loop nudges each neuron of the layer by its row |
| Training.UpdateOneLayer | src/main/java/com/thomas/neuralnetwork/ai/Trainer.java:133-138 | one iteration of the x loop changes layer x only |
| Training.UpdateNetwork | src/main/java/com/thomas/neuralnetwork/ai/Trainer.java:132-139 | the update loops leave the network equal to the network with every layer nudged by its changes |
| Training.RowHitsHot | src/main/java/com/thomas/neuralnetwork/ai/Trainer.java:174-178 | with a one-hot target a sample counts one hit exactly when its target class is predicted above one half |
| Training.RowCertaintyHot | src/main/java/com/thomas/neuralnetwork/ai/Trainer.java:191-195 | with a one-hot target a sample adds exactly the prediction of its target class |
| Training.Recognised | src/main/java/com/thomas/neuralnetwork/ai/Trainer.java:173-179 | the count of recognised samples is at most the number of samples looked at |
| Training.HitsAreRecognised | src/main/java/com/thomas/neuralnetwork/ai/Trainer.java:173-179 | with one-hot targets the hits are the samples whose target class is predicted above one half |
| Training.CertaintiesAreHotTotal | src/main/java/com/thomas/neuralnetwork/ai/Trainer.java:190-196 | with one-hot targets the certainty sum is the total of the target classes' predictions |
| Training.RecognisedAll | src/main/java/com/thomas/neuralnetwork/ai/Trainer.java:173-179 | every sample is recognised exactly when the count equals the number of samples |
| Training.HotTotalBounds | src/main/java/com/thomas/neuralnetwork/ai/Trainer.java:190-196 | predictions in [0, 1] give a certainty sum between 0 and the number of samples |
| Training.AccuracyOneHot | src/main/java/com/thomas/neuralnetwork/ai/Trainer.java:171-182 | with one-hot targets the accuracy is the recognised share as a percentage, in [0, 100], and 100 exactly when every sample is recognised |
| Training.CertaintyOneHot | src/main/java/com/thomas/neuralnetwork/ai/Trainer.java:188-199 | with one-hot targets the certainty is the mean target-class prediction as a percentage, in [0, 100] for predictions in [0, 1] |
| Training.AccuracyMethod | src/main/java/com/thomas/neuralnetwork/ai/Trainer.java:171-182 | the accuracy loops compute the hits per sample times 100 |
| Training.AddRowHits | src/main/java/com/thomas/neuralnetwork/ai/Trainer.java:174-178 | the j loop adds one for every target 1 predicted above one half |
| Training.CertaintyMethod | src/main/java/com/thomas/neuralnetwork/ai/Trainer.java:188-199 | the certainty loops compute the target-class predictions per sample times 100 |
| Training.AddRowCertainty | src/main/java/com/thomas/neuralnetwork/ai/Trainer.java:191-195 | the j loop adds the prediction of every target 1 |
| Training.BatchSlots | src/main/java/com/thomas/neuralnetwork/ai/Trainer.java:98-103 | desiredChanges of batch b has one slot per sample of the batch, inside the sample list |
| Training.BatchSlotsUniform | src/main/java/com/thomas/neuralnetwork/ai/Trainer.java:103-104 | all slots of a batch have the network's shape, so the summation indexes them safely |
| Training.BatchTotal | src/main/java/com/thomas/neuralnetwork/ai/Trainer.java:103-114 | the summed slot 0 has the network's shape |
| Training.BatchChanges | src/main/java/com/thomas/neuralnetwork/ai/Trainer.java:103-129 | the averaged, scaled changes have the network's shape and fit it for the update |
| Training.BatchStep | src/main/java/com/thomas/neuralnetwork/ai/Trainer.java:95-139 | one batch keeps the architecture and fit of the samples and moves the policy by one get |
| Training.Batches | src/main/java/com/thomas/neuralnetwork/ai/Trainer.java:95-140 | after k batches the samples still fit and the policy's counter has moved by k |
| Training.BatchRate | src/main/java/com/thomas/neuralnetwork/ai/Trainer.java:75-96 | every batch uses a learning rate between the policy's minimum 0.01 and maximum 0.1 |
| Training.ComputeChanges | src/main/java/com/thomas/neuralnetwork/ai/Trainer.java:103-129 | batchBackPropagate, summation and scaling compute the batch's changes and the next position in the random stream |
| Training.CollectSlots | src/main/java/com/thomas/neuralnetwork/ai/Trainer.java:98-103 | batchBackPropagate over batch b's range gives the batch's slots |
| Training.RunBatch | src/main/java/com/thomas/neuralnetwork/ai/Trainer.java:96-139 | one iteration of the batch loop: get, changes and update, as BatchStep describes |
| Training.RunBatches | src/main/java/com/thomas/neuralnetwork/ai/Trainer.java:95-140 | the batch loop leaves the network, the policy and the random position as Batches describes |
| Training.Inputs | src/main/java/com/thomas/neuralnetwork/ai/Trainer.java:78 | inputs[i] is sample i's inputs |
| Training.Targets | src/main/java/com/thomas/neuralnetwork/ai/Trainer.java:79 | outputs[i] is sample i's outputs |
| Training.Predictions | src/main/java/com/thomas/neuralnetwork/ai/Trainer.java:86-90 | one prediction per sample, as long as the sample's target |
| Training.PermutedFit | src/main/java/com/thomas/neuralnetwork/ai/Trainer.java:84 | a shuffled sample list has the same length and still fits the network |
| Training.Shuffled | src/main/java/com/thomas/neuralnetwork/ai/Trainer.java:84 | the shuffled list is a permutation of the samples |
| Training.EpochBatches | src/main/java/com/thomas/neuralnetwork/ai/Trainer.java:95-140 | the batches over the shuffled list keep the samples fitting and advance the policy once per batch |
| Training.Measure | src/main/java/com/thomas/neuralnetwork/ai/Trainer.java:142-199 | the report of an epoch carries its epoch number |
| Training.Epoch | src/main/java/com/thomas/neuralnetwork/ai/Trainer.java:77-215 | one epoch keeps the samples a permutation of themselves, moves the epoch number by one and reports the epoch it ran |
| Training.BestOf | src/main/java/com/thomas/neuralnetwork/ai/Trainer.java:154-165 | the best network becomes the trained one exactly when the cost fell and otherwise stays |
| Training.EpochEnd | src/main/java/com/thomas/neuralnetwork/ai/Trainer.java:154-214 | the end of an epoch keeps the session ready, takes the shuffled order and bumps the epoch |
| Training.Train | src/main/java/com/thomas/neuralnetwork/ai/Trainer.java:77-215 | k epochs give k reports, keep the samples a permutation and move the epoch by k |
| Training.EpochRate | src/main/java/com/thomas/neuralnetwork/ai/Trainer.java:95-212 | each epoch advances the policy by the number of batches; update(epoch) never restarts it |
| Training.TrainRate | src/main/java/com/thomas/neuralnetwork/ai/Trainer.java:74-212 | after k epochs the policy is the start's moved on by k times the batches per epoch |
| Training.RunsCount | src/main/java/com/thomas/neuralnetwork/ai/Trainer.java:77-214 | a run from epoch 0 makes epochs + 1 epochs, a run started past epochs makes none, and epochs == 0 runs until stopped |
| Training.EpochBest | src/main/java/com/thomas/neuralnetwork/ai/Trainer.java:154-165 | bestNetwork is the epoch's network exactly when its cost fell |
| Training.BestWasReached | src/main/java/com/thomas/neuralnetwork/ai/Trainer.java:72-165 | the best network is the start network or the network after some epoch, and the last epoch's if its cost fell |
| Training.Evaluate | src/main/java/com/thomas/neuralnetwork/ai/Trainer.java:86-92 | the predictions loop and LOSS_FUNCTION.calculate give the predictions and the cost |
| Training.EpochTraining | src/main/java/com/thomas/neuralnetwork/ai/Trainer.java:78-140 | shuffle, cost before and the batches, leaving the best network untouched |
| Training.BatchesBeside | src/main/java/com/thomas/neuralnetwork/ai/Trainer.java:95-140 | the batches leave the best network, which shares nothing with the trained one, unchanged |
| Training.EpochReport | src/main/java/com/thomas/neuralnetwork/ai/Trainer.java:142-199 | the cost after, the accuracy and the certainty of the trained network |
| Training.KeepBest | src/main/java/com/thomas/neuralnetwork/ai/Trainer.java:154-165 | a copy of the network when the cost fell, the old best otherwise |
| Training.UpdatePolicy | src/main/java/com/thomas/neuralnetwork/ai/Trainer.java:212 | update(epoch) changes the policy only |
| Training.RunEpoch | src/main/java/com/thomas/neuralnetwork/ai/Trainer.java:78-212 | one iteration of the epoch loop but for epoch++ realises Epoch |
| Training.EpochClose | src/main/java/com/thomas/neuralnetwork/ai/Trainer.java:142-212 | the report, the best-network rule and update(epoch) after the batches |
| Training.TrainOneMore | src/main/java/com/thomas/neuralnetwork/ai/Trainer.java:77-215 | the loop body takes Train of k epochs to Train of k + 1 |
| Training.Trainer.constructor | src/main/java/com/thomas/neuralnetwork/ai/Trainer.java:34-36 | the trainer holds the network, epoch 0 and both flags false |
| Training.Trainer.Start | src/main/java/com/thomas/neuralnetwork/ai/Trainer.java:67-223 | start trains the network in place for the number of runs the loop condition allows, returns the best network as a separate copy, and ends with training off and the stop acknowledged |
| Training.Trainer.EpochLoop | src/main/java/com/thomas/neuralnetwork/ai/Trainer.java:77-215 | the while loop runs Train epochs, bumps epoch once per run and keeps the best network apart from the trained one |
| Training.Trainer.Iterate | src/main/java/com/thomas/neuralnetwork/ai/Trainer.java:78-214 | one loop iteration extends the trained state by one epoch and bumps epoch |
| Training.Trainer.NextEpoch | src/main/java/com/thomas/neuralnetwork/ai/Trainer.java:214 | epoch++ changes nothing else |
| Training.Trainer.Request | src/main/java/com/thomas/neuralnetwork/ai/Trainer.java:70 | setting the training flag changes nothing else |
| Training.Trainer.Stopped | src/main/java/com/thomas/neuralnetwork/ai/Trainer.java:219-220 | the end of start: training off, stop acknowledged, networks untouched |
| Idx.Wrap32 | src/main/java/com/thomas/neuralnetwork/data/UserData.java:119 | readInt() + 1 in int arithmetic: the result is congruent to the exact sum modulo 2^32 and equal to it when it fits in an int |
| Idx.LowByte | src/main/java/com/thomas/neuralnetwork/data/UserData.java:20 | the cast (byte) v keeps v modulo 256 |
| Idx.Unsigned | src/main/java/com/thomas/neuralnetwork/data/MnistDataReader.java:9 | four bytes read most significant first give a number in [0, 2^32) |
| Idx.IntToBytes | src/main/java/com/thomas/neuralnetwork/data/UserData.java:27-33 | intToByteArray gives exactly four bytes |
| Idx.Digits | src/main/java/com/thomas/neuralnetwork/data/UserData.java:28-32 | the four shifted bytes of a number below 2^32 sum back to it |
| Idx.ReadIntToBytes | src/main/java/com/thomas/neuralnetwork/data/UserData.java:27-33 | readInt of intToByteArray(v) is v: the big-endian encoding round-trips |
| Idx.IntToBytesOfReadInt | src/main/java/com/thomas/neuralnetwork/data/UserData.java:119-121 | writing back the int read from four bytes restores those four bytes |
| Idx.Zeros | src/main/java/com/thomas/neuralnetwork/data/UserData.java:121 | the zero bytes that fill a gap when a write goes past the end |
| Idx.Overwrite | src/main/java/com/thomas/neuralnetwork/data/UserData.java:121 | a write at an offset puts the data there, keeps every other byte, and zero-fills any gap before it |
| Idx.ByteFile.constructor | src/main/java/com/thomas/neuralnetwork/data/UserData.java:57 | a file on disk: missing files hold no bytes |
| Idx.ByteFile.Create | src/main/java/com/thomas/neuralnetwork/data/UserData.java:59-81 | new FileOutputStream(file) then write: the file exists and holds exactly the data |
| Idx.ByteFile.Append | src/main/java/com/thomas/neuralnetwork/data/UserData.java:38-40 | new FileOutputStream(file, true) then write: the data goes at the end of the old contents |
| Idx.RandomAccessFile.constructor | src/main/java/com/thomas/neuralnetwork/data/UserData.java:117 | opening in "rw" mode creates a missing file, keeps its bytes and puts the pointer at 0 |
| Idx.RandomAccessFile.Seek | src/main/java/com/thomas/neuralnetwork/data/UserData.java:118 | seek sets the file pointer |
| Idx.RandomAccessFile.ReadInt | src/main/java/com/thomas/neuralnetwork/data/UserData.java:119 | readInt gives the big-endian int at the pointer and moves it by 4, or fails with end of file when fewer than four bytes remain |
| Idx.RandomAccessFile.WriteInt | src/main/java/com/thomas/neuralnetwork/data/UserData.java:121 | writeInt puts the four bytes of v at the pointer and moves it past them |
| Idx.DataInputStream.constructor | src/main/java/com/thomas/neuralnetwork/data/MnistDataReader.java:7 | a stream positioned at the start of its bytes |
| Idx.DataInputStream.ReadInt | src/main/java/com/thomas/neuralnetwork/data/MnistDataReader.java:8-11 | readInt gives the next big-endian int, or end of file when fewer than four bytes remain |
| Idx.DataInputStream.ReadUnsignedByte | src/main/java/com/thomas/neuralnetwork/data/MnistDataReader.java:18 | readUnsignedByte gives the next byte, or end of file at the end |
| MnistDataReader.Image | src/main/java/com/thomas/neuralnetwork/data/MnistDataReader.java:16-19 | one image has exactly size values |
| MnistDataReader.SpanIsProduct | src/main/java/com/thomas/neuralnetwork/data/MnistDataReader.java:15-19 | the bytes taken by n images of a given size are n times the size |
| MnistDataReader.SpanGrows | src/main/java/com/thomas/neuralnetwork/data/MnistDataReader.java:15-19 | fewer images take no more bytes |
| MnistDataReader.Images | src/main/java/com/thomas/neuralnetwork/data/MnistDataReader.java:15-22 | n images stored one after another decode to n rows |
| MnistDataReader.ImagesAt | src/main/java/com/thomas/neuralnetwork/data/MnistDataReader.java:15-22 | image i of a run is read i images after the first |
| MnistDataReader.ReadImageData | src/main/java/com/thomas/neuralnetwork/data/MnistDataReader.java:6-27 | readImageData: the four header ints, then count images of rows*cols bytes over 255, failing with end of file or a bad array size as the Java does |
| MnistDataReader.ReadImage | src/main/java/com/thomas/neuralnetwork/data/MnistDataReader.java:16-19 | the inner loop reads size unsigned bytes over 255, or fails with end of file when they are not all there |
| MnistDataReader.ImageDataMeaning | src/main/java/com/thomas/neuralnetwork/data/MnistDataReader.java:13-22 | a decoded file has count images of rows*cols values, value o of image i being byte 16 + i*size + o over 255, in [0, 1] |
| MnistDataReader.ImageDataIgnoresRest | src/main/java/com/thomas/neuralnetwork/data/MnistDataReader.java:9-19 | the decoder reads exactly 16 + count*size bytes: anything after them changes nothing |
| MnistDataReader.ImagesPrefix | src/main/java/com/thomas/neuralnetwork/data/MnistDataReader.java:15-22 | images read from a prefix are the same when more bytes follow |
| MnistDataReader.ImageDataTruncated | src/main/java/com/thomas/neuralnetwork/data/MnistDataReader.java:9-19 | a file cut short before its last pixel fails with end of file |
| MnistDataReader.OneHot | src/main/java/com/thomas/neuralnetwork/data/MnistDataReader.java:39-40 | the label array has 10 entries, 1 at the label and 0 elsewhere |
| MnistDataReader.LabelScan | src/main/java/com/thomas/neuralnetwork/data/MnistDataReader.java:36-43 | the labels loop succeeds exactly when every label byte is present and below 10, and fails only with end of file or an index error |
| MnistDataReader.ReadLabelData | src/main/java/com/thomas/neuralnetwork/data/MnistDataReader.java:29-48 | readLabelData: two header ints, then one byte per label as a one-hot row |
| MnistDataReader.LabelDataMeaning | src/main/java/com/thomas/neuralnetwork/data/MnistDataReader.java:31-43 | a label file decodes exactly when every label byte is present and a digit, and then to one one-hot row per label byte |
| MnistDataReader.LabelDataFirstBad | src/main/java/com/thomas/neuralnetwork/data/MnistDataReader.java:36-40 | the first bad label decides the error: an index error for a byte of 10 or more, end of file for a missing byte |
| MnistDataReader.LabelScanFrom | src/main/java/com/thomas/neuralnetwork/data/MnistDataReader.java:36-43 | labels already checked do not change the outcome of the loop |
| UserDataFiles.PixelBytes | src/main/java/com/thomas/neuralnetwork/data/UserData.java:14-25 | the drawing takes exactly 784 bytes |
| UserDataFiles.PixelBytesTranspose | src/main/java/com/thomas/neuralnetwork/data/UserData.java:18-22 | byte y*28 + x is the low byte of pixels[x][y]: the drawing is stored transposed |
| UserDataFiles.PixelsToByteArray | src/main/java/com/thomas/neuralnetwork/data/UserData.java:14-25 | the two loops fill the buffer with the transposed low bytes |
| UserDataFiles.IncrementedMeaning | src/main/java/com/thomas/neuralnetwork/data/UserData.java:116-125 | the count at bytes 4..7 goes up by one in int arithmetic and no other byte or the length changes; a file too short to read is left as it was |
| UserDataFiles.CountAfterAppend | src/main/java/com/thomas/neuralnetwork/data/UserData.java:36-54 | appending data leaves the count and the header as they were |
| UserDataFiles.UserData.constructor | src/main/java/com/thomas/neuralnetwork/data/UserData.java:9-12 | the file names are the base name plus "-labels.idx1-ubyte" and "-images.idx3-ubyte" |
| UserDataFiles.UserData.SetupImageFile | src/main/java/com/thomas/neuralnetwork/data/UserData.java:56-85 | an existing image file is left alone; a missing one gets the 16-byte header 0x00000803, 0, 28, 28 |
| UserDataFiles.UserData.SetupLabelFile | src/main/java/com/thomas/neuralnetwork/data/UserData.java:87-114 | an existing label file is left alone; a missing one gets the 12-byte header 0x00000801, 0, 0 |
| UserDataFiles.UserData.IncrementFirstDimensionInFile | src/main/java/com/thomas/neuralnetwork/data/UserData.java:116-125 | seek, readInt, seek, writeInt leave the file incremented as Incremented states |
| UserDataFiles.UserData.AddToLabels | src/main/java/com/thomas/neuralnetwork/data/UserData.java:36-44 | addToLabels counts up and then appends the data |
| UserDataFiles.UserData.AddToImages | src/main/java/com/thomas/neuralnetwork/data/UserData.java:46-54 | addToImages counts up and then appends the data |
| UserDataFiles.LabelFileMisread | src/main/java/com/thomas/neuralnetwork/data/UserData.java:106-110 | as written, one saved label from 1 to 9 reads back as the label 0, not as itself |
| UserDataFiles.AddStep | src/main/java/com/thomas/neuralnetwork/data/UserData.java:36-54 | one add on a file with a full header bumps the count, keeps the rest of the header and appends the data |
| UserDataFiles.ReadableLabelFileLayout | src/main/java/com/thomas/neuralnetwork/data/MnistDataReader.java:31-37 | the corrected label file holds the count of labels at bytes 4..7 and the labels byte for byte after the 8-byte header |
| UserDataFiles.ReadableLabelRoundTrip | src/main/java/com/thomas/neuralnetwork/data/MnistDataReader.java:29-48 | labels written one byte each after the 8-byte header read back as the one-hot rows of the same labels |
| UserDataFiles.ConcatLength | src/main/java/com/thomas/neuralnetwork/data/UserData.java:46-54 | n drawings appended take n times 784 bytes |
| UserDataFiles.ConcatAt | src/main/java/com/thomas/neuralnetwork/data/UserData.java:46-54 | byte o of drawing i sits i drawings into the appended bytes |
| UserDataFiles.ImageFileLayout | src/main/java/com/thomas/neuralnetwork/data/UserData.java:46-85 | the image file holds the count of drawings, the dimensions 28 and 28, then the drawings |
| UserDataFiles.ReadsLaidOut | src/main/java/com/thomas/neuralnetwork/data/MnistDataReader.java:8-22 | a file with this header, a positive count n and n images of 784 bytes decodes to those n images |
| UserDataFiles.ImageFileReads | src/main/java/com/thomas/neuralnetwork/data/MnistDataReader.java:6-27 | the saved image file passes the reader's header and is read in full |
| UserDataFiles.ImageRoundTrip | src/main/java/com/thomas/neuralnetwork/data/UserData.java:46-85 | drawings saved through setupImageFile and addToImages read back as the same drawings, each byte over 255 |
| UserDataFiles.ImageAtConcat | src/main/java/com/thomas/neuralnetwork/data/MnistDataReader.java:15-22 | image i of the file read back is drawing i over 255 |
| MainControllerFiles.MainIncrementedMeaning | src/main/java/com/thomas/neuralnetwork/MainController.java:165-172 | as written the count at 4..7 stays, the new count lands at bytes 8..11 and the file grows to at least 12 bytes; a file shorter than 8 bytes is left alone |
| MainControllerFiles.MainController.constructor | src/main/java/com/thomas/neuralnetwork/MainController.java:23-26 | a blank 28x28 grid and the two fixed file names |
| MainControllerFiles.MainController.SetupFiles | src/main/java/com/thomas/neuralnetwork/MainController.java:94-102 | each missing file gets its header, an existing one is left alone |
| MainControllerFiles.MainController.SetupImageFile | src/main/java/com/thomas/neuralnetwork/MainController.java:109-136 | the image file gets the 13-byte header that write(0) produces |
| MainControllerFiles.MainController.SetupLabelFile | src/main/java/com/thomas/neuralnetwork/MainController.java:138-163 | the label file gets the 9-byte header that write(0) produces |
| MainControllerFiles.MainController.IncrementFirstDimensionInFile | src/main/java/com/thomas/neuralnetwork/MainController.java:165-172 | seek(4) then writeInt(readInt() + 1) leaves the file as MainIncremented states |
| MainControllerFiles.MainController.AddToFile | src/main/java/com/thomas/neuralnetwork/MainController.java:84-92 | addToFile increments and then appends the data |
| MainControllerFiles.MainController.AppendUserDatapoint | src/main/java/com/thomas/neuralnetwork/MainController.java:56-69 | the drawing goes to the image file and the low byte of the number to the label file, each through addToFile |
| MainControllerFiles.ControllerFileHeader | src/main/java/com/thomas/neuralnetwork/MainController.java:84-92 | however many entries are added, the first eight bytes, and so the count the reader sees, stay the header's |
| MainControllerFiles.CountIsZero | src/main/java/com/thomas/neuralnetwork/MainController.java:130 | both headers store a zero count at bytes 4..7 |
| MainControllerFiles.ControllerImagesLost | src/main/java/com/thomas/neuralnetwork/MainController.java:130 | as written the image file reads back as no drawings however many were appended, and the fresh 13-byte file is too short for the reader |
| MainControllerFiles.ControllerLabelsLost | src/main/java/com/thomas/neuralnetwork/MainController.java:158-168 | as written the label file reads back as no labels however many were appended |
| Preprocessor.RowExtent | src/main/java/com/thomas/neuralnetwork/drawing/Preprocessor.java:12-17 | the scan of a row can only lower min (never below 0) and raise max |
| Preprocessor.Extent | src/main/java/com/thomas/neuralnetwork/drawing/Preprocessor.java:11-18 | the scan of the rows can only lower min (never below 0) and raise max |
| Preprocessor.Bounds | src/main/java/com/thomas/neuralnetwork/drawing/Preprocessor.java:8-18 | the min the scan ends with is never negative |
| Preprocessor.CopyOfRange | src/main/java/com/thomas/neuralnetwork/drawing/Preprocessor.java:22 | Arrays.copyOfRange gives to - from cells, zero-padded past the end of the row |
| Preprocessor.GetSignificantPortion | src/main/java/com/thomas/neuralnetwork/drawing/Preprocessor.java:7-26 | the nested scan and the copy loop compute the significant portion, failing on an empty grid, a blank canvas or a short row as the Java does |
| Preprocessor.RowExtentMeaning | src/main/java/com/thomas/neuralnetwork/drawing/Preprocessor.java:12-17 | after a row's scan every drawn cell lies within [min, max], min and max are the start values or reached by a drawn cell, and a blank row changes nothing |
| Preprocessor.ExtentMeaning | src/main/java/com/thomas/neuralnetwork/drawing/Preprocessor.java:11-18 | after the whole scan every drawn cell lies within [min, max], and min and max are the start values or reached by a drawn cell |
| Preprocessor.SignificantPortionBlank | src/main/java/com/thomas/neuralnetwork/drawing/Preprocessor.java:8-20 | a canvas with nothing drawn fails with a negative array size |
| Preprocessor.SignificantPortionCells | src/main/java/com/thomas/neuralnetwork/drawing/Preprocessor.java:20-23 | the portion is the square of side max - min whose cell (r, c) is cell (min + r, min + c) of the grid |
| Preprocessor.PortionCell | src/main/java/com/thomas/neuralnetwork/drawing/Preprocessor.java:21-22 | row r of the portion is a square row holding the grid's cells from (min + r, min) |
| Preprocessor.SignificantPortionCovers | src/main/java/com/thomas/neuralnetwork/drawing/Preprocessor.java:11-23 | every drawn cell lies in rows and columns min..max, and some drawn cell lies on max, just outside the copied portion |
| Preprocessor.SignificantPortionSquare | src/main/java/com/thomas/neuralnetwork/drawing/Preprocessor.java:7-26 | on a square grid with something drawn the portion exists |
| Preprocessor.Scaled | src/main/java/com/thomas/neuralnetwork/drawing/Preprocessor.java:80-114 | a successful scaleDown has outputHeight rows of outputWidth values |
| Preprocessor.ScaleDown | src/main/java/com/thomas/neuralnetwork/drawing/Preprocessor.java:80-114 | the row and cell loops compute the bilinear samples, failing on an empty input, a negative size or a missing cell |
| Preprocessor.SampleInRange | src/main/java/com/thomas/neuralnetwork/drawing/Preprocessor.java:86-95 | a sampled position x * (n - 1) / out lies in [0, n - 1] and so do its floor and ceiling |
| Preprocessor.ScaledSucceeds | src/main/java/com/thomas/neuralnetwork/drawing/Preprocessor.java:80-114 | a rectangular input with at least one cell scales to any non-negative size without error |
| Preprocessor.SampleReadable | src/main/java/com/thomas/neuralnetwork/drawing/Preprocessor.java:90-103 | on a rectangular input every sample's four corner cells exist |
| Preprocessor.Lerp | src/main/java/com/thomas/neuralnetwork/drawing/Preprocessor.java:105-107 | a linear interpolation between two values of [lo, hi] stays in [lo, hi] |
| Preprocessor.ScaledBounded | src/main/java/com/thomas/neuralnetwork/drawing/Preprocessor.java:97-109 | every output of scaleDown lies between the least and the greatest input |
| Preprocessor.BilinearBounded | src/main/java/com/thomas/neuralnetwork/drawing/Preprocessor.java:100-107 | one bilinear sample lies between the least and the greatest input |
| Preprocessor.CenteredRow | src/main/java/com/thomas/neuralnetwork/drawing/Preprocessor.java:33-42 | every row of the centred grid has 28 cells |
| Preprocessor.CenteredCells | src/main/java/com/thomas/neuralnetwork/drawing/Preprocessor.java:33-42 | the centred grid is 28x28 with the 20x20 sample at rows and columns 4..23 and 0 elsewhere |
| Preprocessor.NormalizeDigit | src/main/java/com/thomas/neuralnetwork/drawing/Preprocessor.java:28-45 | normalizeDigit: significant portion, scaleDown to 20x20, then centring, with every failure passed on |
| Preprocessor.Center | src/main/java/com/thomas/neuralnetwork/drawing/Preprocessor.java:33-42 | the arraycopy loop builds the centred grid |
| Preprocessor.NormalizedSucceeds | src/main/java/com/thomas/neuralnetwork/drawing/Preprocessor.java:28-30 | normalizeDigit succeeds exactly when the significant portion exists and is not empty |
| Preprocessor.NormalizedBounded | src/main/java/com/thomas/neuralnetwork/drawing/Preprocessor.java:28-45 | a drawing with cells in [lo, hi], lo <= 0 <= hi, is normalized into a 28-row grid with cells in [lo, hi] |
| Preprocessor.WindowStep | src/main/java/com/thomas/neuralnetwork/drawing/Preprocessor.java:62-70 | the window of rows grows by one strip per row of the outer loop |
| Preprocessor.StripHas | src/main/java/com/thomas/neuralnetwork/drawing/Preprocessor.java:63-68 | a strip over an in-grid cell holds at least one cell |
| Preprocessor.WindowHas | src/main/java/com/thomas/neuralnetwork/drawing/Preprocessor.java:62-70 | a window over an in-grid cell holds at least one cell, so count > 0 |
| Preprocessor.StripBounded | src/main/java/com/thomas/neuralnetwork/drawing/Preprocessor.java:63-68 | every cell a strip adds lies between the grid's bounds |
| Preprocessor.WindowBounded | src/main/java/com/thomas/neuralnetwork/drawing/Preprocessor.java:62-70 | every cell a window adds lies between the grid's bounds |
| Preprocessor.Blurred | src/main/java/com/thomas/neuralnetwork/drawing/Preprocessor.java:47-78 | blur2DArray succeeds exactly when the input is non-empty and every row is as long as the first, and then keeps the width and the height |
| Preprocessor.BlurRow | src/main/java/com/thomas/neuralnetwork/drawing/Preprocessor.java:56-74 | a blurred row has height cells |
| Preprocessor.BlurredBounded | src/main/java/com/thomas/neuralnetwork/drawing/Preprocessor.java:47-78 | every blurred cell lies between the least and the greatest input |
| Preprocessor.BlurCellBounded | src/main/java/com/thomas/neuralnetwork/drawing/Preprocessor.java:58-73 | one blurred cell lies between the least and the greatest input |
| Preprocessor.BlurCellIsMean | src/main/java/com/thomas/neuralnetwork/drawing/Preprocessor.java:58-73 | the blurred cell is sum / count over the in-grid cells of its window, which holds at least the cell itself |
| Preprocessor.MeanBounded | src/main/java/com/thomas/neuralnetwork/drawing/Preprocessor.java:73 | the mean of values in [lo, hi] is in [lo, hi] |
| Preprocessor.WindowMean | src/main/java/com/thomas/neuralnetwork/drawing/Preprocessor.java:57-73 | one cell of the result: the window's mean, or an index error on a row shorter than the first |
| Preprocessor.WindowSum | src/main/java/com/thomas/neuralnetwork/drawing/Preprocessor.java:62-70 | the two window loops add up exactly the in-grid cells of the window and count them |
| Preprocessor.AccumulatedStep | src/main/java/com/thomas/neuralnetwork/drawing/Preprocessor.java:62-70 | adding row k's strip extends the rows summed so far by one |
| Preprocessor.AccumulatedDone | src/main/java/com/thomas/neuralnetwork/drawing/Preprocessor.java:62-70 | after the last row the sum and count are those of the whole window |
| Preprocessor.StripSum | src/main/java/com/thomas/neuralnetwork/drawing/Preprocessor.java:63-69 | the inner loop adds the in-grid cells of a row's strip, and fails only on a row shorter than height |
| Preprocessor.BlurRowOf | src/main/java/com/thomas/neuralnetwork/drawing/Preprocessor.java:56-74 | one row of the result, or an index error on a short row |
| Preprocessor.Blur2DArray | src/main/java/com/thomas/neuralnetwork/drawing/Preprocessor.java:47-78 | blur2DArray decrements the radius and computes every cell from its window, as Blurred states |
| DrawingClassifier.FinalResult | src/main/java/com/thomas/neuralnetwork/drawing/DrawingClassifier.java:155-163 | the result is -1 exactly when no prediction is above 0.5; otherwise it is the last index whose prediction is above 0.5 |
| DrawingClassifier.Formatted | src/main/java/com/thomas/neuralnetwork/drawing/DrawingClassifier.java:208-210 | one formatted text per value, in order |
| DrawingClassifier.TransformToString | src/main/java/com/thomas/neuralnetwork/drawing/DrawingClassifier.java:205-219 | no values give ""; otherwise the result is the formatted values joined by ", " exactly when that join is not empty |
| DrawingClassifier.JoinSnoc | src/main/java/com/thomas/neuralnetwork/drawing/DrawingClassifier.java:208-211 | appending one more part to a join adds the separator and the part |
| DrawingClassifier.AppendedJoin | src/main/java/com/thomas/neuralnetwork/drawing/DrawingClassifier.java:208-211 | for at least one value the builder holds the join of the formatted values followed by one ", " |
| DrawingClassifier.JoinEmpty | src/main/java/com/thomas/neuralnetwork/drawing/DrawingClassifier.java:214-216 | a join is empty exactly when it is a single empty part |
| DrawingClassifier.TransformedJoin | src/main/java/com/thomas/neuralnetwork/drawing/DrawingClassifier.java:208-216 | for at least one value the result is the ", "-join when that join is not empty, and ", " when it is |
| DrawingClassifier.TransformedNonEmptyParts | src/main/java/com/thomas/neuralnetwork/drawing/DrawingClassifier.java:208-216 | when every value formats to some text the result is the ", "-join with no trailing separator |

## Left out

- Concurrency: `Trainer.batchBackPropagate` submits one job per sample to a thread pool and waits on a `CountDownLatch`. The model fills the slots one after another, which gives the same result because each submitted job only reads the network. `Trainer.stop()` spin-waits on a volatile flag; it is not modelled beyond the flag values `start` leaves.
- Randomness: `Math.random` and `Collections.shuffle` are parameters (a draw stream, a permutation), not distributions.
- IEEE floating point: no NaN, infinities, rounding or overflow. As a result, sums are associative here. `Calculus.inverseSigmoid` and the numeric accuracy of training are not modelled.
- The JavaFX GUI is not part of this model:
  - canvas drawing, `drawPixel`, the snapshot in `getGrayscaleValues`, and `drawImage`;
  - the result label, `Arrays.toString` of an unsure prediction, the charts (`Trainer.updateChart`) and logging;
  - `DrawingClassifier.addDatapoint` and the `controllers` package. The label-writing path of `addDatapoint` is covered through the `UserData` calls it makes (`UserDataFiles.LabelFile`).
- `Integer.parseInt` of the typed label: `MainControllerFiles.MainController.AppendUserDatapoint` takes the parsed number.
- Real file I/O: a file is a byte buffer with an existence flag, `ByteFile`. Swallowed `IOException`s are not modelled. A `RandomAccessFile` write past the end leaves gap bytes that Java does not define; they are zeros here.
- `Main.java`, `ConfigHandler.java` and `module-info.java` have no behaviour worth modelling. `LeakyReLUActivation.java`, `LearningRate.java`, `DataPoint.java` and Calculus's `Function` enum are not part of this model as files. Leaky ReLU follows the older enum's `LEAKY_RELU`, `DataPoint` is a datatype of inputs and outputs, and `Function` is a five-case datatype.
- `DecimalFormat("#.##")` is an arbitrary total function from numbers to text. `Double.toString` and `Double.parseDouble` are likewise a pair of functions assumed to invert each other.
- Plain accessors (`getNeurons`, `getLayers`, `getPrevOutput`) are read directly as fields or views.
- Shape mismatches that make the network, layer and trainer code throw `ArrayIndexOutOfBoundsException` are preconditions. The loss functions are the exception: a prediction shorter than its target is an `Err(IndexOutOfBounds)` outcome there. Examples are inputs longer than a neuron's weights and samples that do not fit the network. They are not error outcomes, because every caller in the program passes matching shapes.
- Preprocessor.Blurred: requires a radius of at least 1. With a smaller radius no cell is averaged and Java computes 0/0 = NaN, which reals cannot represent. `Preprocessor.Blur2DArray` has the same requirement.
- Training.Trainer.Start: requires at least one sample. With none, Java's costs are 0/0 = NaN and an epoch runs no batches. `Training.AccuracyOneHot` and `Training.CertaintyOneHot` need a sample for the same reason.
- Training.AccuracyOneHot: the [0, 100] bound is proved for one-hot targets only, as the count is unbounded otherwise. `Training.CertaintyOneHot` also needs predictions in [0, 1].
- The batch form of `calculate` in the loss classes needs at least one row (`Loss.BatchDefined`), since the mean over no rows divides by zero.
- Loss.Calculate: requires a non-empty target for mean squared and mean absolute loss (`Loss.Measurable`), since the mean over no entries is 0/0 = NaN in Java. `LegacyLoss.Calculate`, `Loss.CalculateBatch` and `LegacyLoss.CalculateBatch` need the same for each row.
- LegacyLoss.Gradient: requires a non-zero divisor `p + 1e-10` for cross-entropy wherever both arrays have an entry, as reals have no infinity.
- Networks.NewNetwork: takes sizes of type `nat`. Its only caller passes constants (src/test/java/com/thomas/neuralnetwork/ai/NeuralNetworkTest.java:12); negative sizes are modelled on the sizes constructor, `Networks.FromSizes`.
- In the older activation enum's softmax, the `System.exit` on a NaN quotient is an `Err(NotANumber)` outcome (`LegacyActivation.SoftmaxApply`). Under the model's axioms (`exp` positive) it cannot happen.
- The `training` flag of `Training.Trainer.EpochLoop` is cleared after `stopAfter` epochs. This stands in for a call of `stop()` from another thread at an arbitrary moment.

## Findings

| source | as written | input that shows it | evidently intended | confidence | as-written member | corrected member |
|---|---|---|---|---|---|---|
| src/main/java/com/thomas/neuralnetwork/ai/Neuron.java:133-137 | fromArray copies the weights from index 1, so fromArray(toArray(n)) drops the first weight and repeats the bias | a neuron with weight 1.0 and bias 0.0 comes back with weight 0.0 | copy from index 0, so that fromArray inverts toArray, as the save/load test at src/test/java/com/thomas/neuralnetwork/ai/NeuralNetworkTest.java:26 asserts | not executed | Neurons.AsWrittenCounterexample | Neurons.FromArrayInvertsToArray |
| src/main/java/com/thomas/neuralnetwork/data/UserData.java:106-110 | setupLabelFile writes a 12-byte header and each label is saved as a 4-byte int (DrawingClassifier.java:126). readLabelData expects the count at bytes 4..7 and one byte per label from byte 8 | one saved label 3 reads back as the label 0 (the first byte of the third header int) | an 8-byte label header (magic and count) and one byte per label | not executed | UserDataFiles.LabelFileMisread | UserDataFiles.ReadableLabelRoundTrip |
| src/main/java/com/thomas/neuralnetwork/MainController.java:165-172 | readInt leaves the file pointer at 8, so writeInt puts the new count at bytes 8..11 and the count at 4..7 stays 0. write(0) also writes a single header byte | any non-empty list of saved drawings reads back as no drawings | seek(4) again before writeInt, as UserData does, and four-byte dimensions | not executed | MainControllerFiles.ControllerImagesLost | UserDataFiles.ImageRoundTrip |
| src/main/java/com/thomas/neuralnetwork/ai/NeuralNetwork.java:31-38 | with numHidden = 0, line 37 overwrites the layer built on line 33 with one that reads numPerHidden inputs | numInput 2, numHidden 0, numPerHidden 3, numOutput 1 gives a single neuron with 3 weights, which cannot take the 2 inputs | the single layer reads numInput inputs | not executed | Networks.NoHiddenLayerIgnoresInputs | Networks.NewNetworkIntended |
