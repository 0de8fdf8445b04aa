# A verified model of the dnn_lib deep-network engine

`dnn_lib.py` trains a fully connected binary classifier with numpy. The
network is `[LINEAR -> RELU] * (L - 1) -> LINEAR -> SIGMOID`. The library
has these parts:

- He, Xavier and shallow parameter initialisation;
- the forward pass, with optional inverted dropout on the hidden layers;
- the cross-entropy cost (after clamping the output away from 0 and 1)
  plus an optional L2 penalty;
- the backward pass, with the same dropout masks and the L2 term in dW;
- a gradient-descent update;
- a training loop that keeps the cost of every 100th iteration;
- thresholded prediction and an accuracy score.

This project models that engine in Dafny and proves what the code
computes. The modelling choices are:

- Matrices are sequences of rows of idealised reals.
- Every shape the numpy code asserts is stated explicitly.
- The transcendental functions are parameters of the model: the logistic
  function is `sigma`, the natural logarithm `ln` and the square root
  `root`. Nothing is assumed about `sigma`. The cost lemmas that need a
  property of `ln` take it as a precondition.
- The random draws are inputs: the standard-normal draws `G` of the
  initialisers, and the uniform draws `Us[i][l - 1]` behind the dropout
  mask of hidden layer `l` in iteration `i`.

The modules follow the library's layering:

| module | file | contents |
|---|---|---|
| `Matrices` | `matrices.dfy` | the numpy operations used |
| `Activations` | `activations.dfy` | relu, sigmoid, their backward steps, the activation dispatch |
| `Layers` | `layers.dfy` | linear step, dropout, layer cache, single-layer forward and backward |
| `Parameters` | `parameters.dfy` | initialisers and the update |
| `Costs` | `costs.dfy` | clamp, cross-entropy, L2 penalty |
| `Network` | `network.dfy` | the L-layer forward and backward passes |
| `Training` | `training.dfy` | the training loop |
| `Prediction` | `prediction.dfy` | prediction and accuracy |

The form of each piece follows the source:

- Straight array expressions are functions.
- Code that builds dictionaries in loops, accumulates, or copies and
  then overwrites is a method with a loop. Each such method is proved
  equal to the function that specifies it. These are the parameter
  loop, the forward and backward layer loops, the L2 accumulator, relu's
  copy-then-zero, the update loop and the training loop.
- The clamp of the output, which the source performs in place on the
  caller's array, works on an `array2` in place.

## Model

| member | source | states |
|---|---|---|
| Matrices.MatMulEntry | dnn_lib.py:160 | entry (i, j) of np.dot(A, B) is the sum over t of A[i][t] * B[t][j] |
| Matrices.SumSquaresNonNegative | dnn_lib.py:324 | np.sum(np.square(W)) is never negative |
| Matrices.SumSquaresPositive | dnn_lib.py:324 | np.sum(np.square(W)) is positive once some entry of W is non-zero |
| Activations.ReluForward | dnn_lib.py:191 | relu keeps Z's shape; every output entry is non-negative, at least Z's entry, and either 0 or that entry |
| Activations.SigmoidForward | dnn_lib.py:176 | the sigmoid output has Z's shape (the logistic function is abstract) |
| Activations.ActivationForward | dnn_lib.py:208-218 | the output has Z's shape; an unrecognised activation name gives np.zeros of Z's shape; relu gives non-negative entries |
| Activations.ReluGrad | dnn_lib.py:396-397 | dZ has Z's shape and each entry is dA's entry times relu's slope at Z: 1 where Z > 0, 0 where Z <= 0 |
| Activations.ReluSlopeIsSubgradient | dnn_lib.py:396-397 | that slope is a sub-gradient of relu at every z, the kink at 0 included: relu(z') >= relu(z) + slope(z) (z' - z) for every z' |
| Activations.ReluGradOfItself | dnn_lib.py:396-397 | feeding Z through relu's backward step with dA = Z gives relu(Z) |
| Activations.ReluBackward | dnn_lib.py:396-397 | the copy-then-zero loop yields dZ[i][j] = dA[i][j] where Z > 0 and 0 where Z <= 0, with Z's shape; dA is a value and stays unchanged |
| Activations.SigmoidGrad | dnn_lib.py:374-375 | dA * s * (1 - s) with s = sigma(Z) has Z's shape |
| Activations.SigmoidGradBounded | dnn_lib.py:374-375 | where sigma(Z) lies in [0, 1], each dZ entry has the sign of dA's entry and at most a quarter of its size |
| Activations.ActivationGrad | dnn_lib.py:415-426 | the dispatched backward step has Z's shape |
| Activations.ActivationStepBackward | dnn_lib.py:415-428 | the method starts from zeros and dispatches on the name; its result is the specified gradient, of Z's shape, and np.zeros for an unrecognised name |
| Activations.ActivationGradZero | dnn_lib.py:415-426 | for every activation name, a zero incoming gradient entry gives a zero dZ entry |
| Layers.LinearStepForward | dnn_lib.py:160-162 | Z has shape (rows of W, columns of A_prev), as the source asserts |
| Layers.LinearStepForwardEntry | dnn_lib.py:160 | Z[i][j] = sum over k of W[i][k] * A_prev[k][j] + b[i][0], the bias broadcast across columns |
| Layers.DropoutMask | dnn_lib.py:246 | the mask (U < keep_prob) has the draws' shape |
| Layers.InvertedDropout | dnn_lib.py:247 | A * D / keep_prob keeps A's shape |
| Layers.SingleLayerForward | dnn_lib.py:236-252 | the output has shape (rows of W, columns of A_prev); the cache is the 5-tuple exactly when keep_prob = 1, the 6-tuple exactly when 0 < keep_prob < 1, and empty otherwise; a non-empty cache holds Z, the returned output, W, b and A_prev; the mask has the output's shape |
| Layers.SingleLayerForwardCases | dnn_lib.py:243-250 | with dropout, D[i][j] is 1 exactly when U[i][j] < keep_prob and 0 exactly when not; the output is A * D / keep_prob, 0 where D = 0 and A / keep_prob where D = 1; with keep_prob = 1 the output is the activation itself and the cache has five fields; otherwise the output is the activation and the cache is empty |
| Layers.LinearStepBackward | dnn_lib.py:343-360 | dA_prev, dW and db have the shapes of A_prev, W and b, as the source asserts |
| Layers.LinearStepBackwardWeightMatrix | dnn_lib.py:345-348 | dW is the single formula (1/m) dZ A_prev^T + (lambd/m) W for every lambd >= 0, so the branch that drops the L2 term at lambd = 0 gives the same matrix |
| Layers.LinearStepBackwardWeights | dnn_lib.py:345-348 | dW[i][k] = (1/m) sum_j dZ[i][j] A_prev[k][j] + (lambd/m) W[i][k], with m the number of examples |
| Layers.LinearStepBackwardBias | dnn_lib.py:352 | db[i] = (1/m) sum_j dZ[i][j] |
| Layers.LinearStepBackwardInput | dnn_lib.py:353 | dA_prev[k][j] = sum_i W[i][k] dZ[i][j], with no 1/m factor |
| Layers.UpstreamGrad | dnn_lib.py:445-449 | the gradient after the dropout step keeps dA's shape |
| Layers.LayerDZ | dnn_lib.py:445-454 | dZ has the shape of the layer's Z |
| Layers.LayerBackward | dnn_lib.py:445-456 | the three gradients have the shapes of A_prev, W and b |
| Layers.SingleLayerBackward | dnn_lib.py:445-456 | the method unpacks the cache, masks dA with the stored D when 0 < keep_prob < 1, and returns the specified gradients, of A_prev's, W's and b's shapes |
| Layers.DroppedUnitGetsNoGradient | dnn_lib.py:447-449 | the backward step masks with the very D the forward step drew, so a unit dropped in the forward pass (output 0) gets dZ = 0 |
| Parameters.InitScale | dnn_lib.py:116-139 | for a genuine square root the draws' factor is non-negative and its square is the weight variance, 2 / n_prev for He and 1 / n_prev for Xavier |
| Parameters.InitialParameters | dnn_lib.py:115-143 | the He and Xavier parameter sets fit the layer widths and have all-zero biases |
| Parameters.InitializeParametersDeep | dnn_lib.py:115-143 | for every l in 1..len(dims)-1 the loop builds W_l of shape (dims[l], dims[l-1]), equal to the scaled draws, and a zero b_l of shape (dims[l], 1); nothing else |
| Parameters.InitializeParametersShallow | dnn_lib.py:82-99 | W1 (n_h x n_x) and W2 (n_y x n_h) are 0.01 times the draws; both biases are zero columns |
| Parameters.UpdateParameters | dnn_lib.py:517-524 | the loop over layers 1..L gives W_l - lr dW_l and b_l - lr db_l entry by entry, keeping every shape; the input parameters are a value and are unchanged |
| Parameters.UpdatedParameters | dnn_lib.py:520-522 | the step W_l - lr dW_l, b_l - lr db_l keeps the number of layers and every layer's shapes, so the gradients still match |
| Parameters.UpdatePreservesFit | dnn_lib.py:520-522 | the updated parameters fit the same layer widths |
| Parameters.UpdateWithoutStep | dnn_lib.py:520-522 | a zero learning rate, or all-zero gradients, leave the parameters as they were |
| Network.HiddenForward | dnn_lib.py:271-279 | after n relu layers the output has shape (dims[n], m) and there are n caches |
| Network.ModelForward | dnn_lib.py:267-283 | AL has shape (dims[L], m) and there is one cache per layer |
| Network.LLayerModelForward | dnn_lib.py:267-283 | the layer loop computes the specified pass: layers 1..L-1 with relu and their own keep_prob (1 when keep_prob is None), then layer L with sigmoid and no dropout |
| Network.HiddenLayerRecord | dnn_lib.py:271-278 | a relu layer with keep_prob in (0, 1] stores a usable cache of its parameters, input and output, and its output is non-negative |
| Network.HiddenForwardPrefix | dnn_lib.py:271-279 | running more layers leaves the earlier caches as they were |
| Network.HiddenForwardLayer | dnn_lib.py:271-279 | hidden layer i + 1 consumes the output of the first i layers and records its parameters and its non-negative output |
| Network.ModelForwardLayer | dnn_lib.py:267-281 | cache i records layer i + 1's parameters and its input; a hidden layer's cache holds its non-negative output; the output layer's cache is the 5-tuple holding AL |
| Network.ModelForwardCaches | dnn_lib.py:267-281 | the forward pass leaves L caches that the backward pass can unpack with each layer's keep_prob; the last one is the 5-tuple holding AL |
| Network.ModelForwardRecords | dnn_lib.py:267-281 | for all layers at once: cache i holds W_{i+1}, b_{i+1} and the output of the first i layers (X for layer 1); the hidden outputs are non-negative |
| Network.BackwardSeed | dnn_lib.py:479 | dAL = -Y/AL + (1 - Y)/(1 - AL) has AL's shape |
| Network.BackwardSeedOfBinaryLabels | dnn_lib.py:479 | for label 1 the seed is -1/a, for label 0 it is 1/(1 - a) |
| Network.BackwardFrom | dnn_lib.py:489-499 | the gradients of relu layers n..1 have their layers' shapes |
| Network.ModelBackward | dnn_lib.py:475-501 | there is one gradient per layer, each of its layer's shapes |
| Network.BackwardFromAt | dnn_lib.py:489-499 | gradient i comes from cache i + 1 and dA of layer i + 1, i.e. dA_prev of gradient i + 1 |
| Network.ModelBackwardOutput | dnn_lib.py:479-487 | grads of layer L come from the seed dAL through the sigmoid, keep_prob 1, and that layer's own cache |
| Network.ModelBackwardHidden | dnn_lib.py:489-499 | grads of hidden layer l come from grads["dA" + l] (dA_prev of layer l + 1), relu, keep_prob[l-1] and cache l |
| Network.ModelBackwardMatchesParameters | dnn_lib.py:475-501 | the gradients have exactly the shapes of parameters fitting the same widths, so the update applies |
| Network.LLayerModelBackward | dnn_lib.py:475-501 | the reversed loop computes the specified gradients, one per layer, of the layers' shapes |
| Costs.ClampEntry | dnn_lib.py:300-301 | after the two replacements an entry is neither 0 nor 1, any other value is kept, and a value in [0, 1] ends strictly inside (0, 1) |
| Costs.Clamp | dnn_lib.py:300-301 | the clamp keeps the shape and maps every entry through: 0 becomes 1e-10, then 1 becomes 1 - 1e-10 |
| Costs.ClampProperties | dnn_lib.py:300-301 | after the clamp no entry is 0 or 1; other entries are untouched; entries in [0, 1] end strictly inside (0, 1); clamping twice changes nothing |
| Costs.ReplaceExact | dnn_lib.py:300-301 | a[a == from] = to in place: exactly the entries equal to from become to, all others stay |
| Costs.CrossEntropy | dnn_lib.py:303 | the cost is minus the mean, over the m examples, of y log a + (1 - y) log(1 - a) |
| Costs.DotsAreEntryTerms | dnn_lib.py:303 | Y . log(AL) + (1 - Y) . log(1 - AL) is the sum over examples of y log a + (1 - y) log(1 - a) |
| Costs.LabelDotsAreEntryTerms | dnn_lib.py:303 | the same for the logs and complements the cost takes |
| Costs.EntryTermsAreLogLikelihood | dnn_lib.py:303 | for 0/1 labels those terms sum to the log of the probability given to each actual label |
| Costs.LabelDotsAreLogLikelihood | dnn_lib.py:303 | for 0/1 labels the two dot products add up to that log-likelihood |
| Costs.CrossEntropyOfBinaryLabels | dnn_lib.py:303 | for 0/1 labels the cross-entropy is -1/m times the log-likelihood |
| Costs.LogLikelihoodNonPositive | dnn_lib.py:303 | with predictions inside (0, 1) and a log that is non-positive there, the log-likelihood is at most 0 |
| Costs.CrossEntropyNonNegative | dnn_lib.py:303 | under the same conditions the cross-entropy is at least 0 |
| Costs.ComputeCrossEntropyCost | dnn_lib.py:300-306 | the caller's AL is clamped in place; afterwards it has no 0 or 1 entry; the cost is the cross-entropy of the clamped AL |
| Costs.TotalSquaresNonNegative | dnn_lib.py:322-324 | the squared weights summed over all layers are never negative |
| Costs.TotalSquaresPositive | dnn_lib.py:322-324 | that sum is positive once some weight entry of some layer is non-zero |
| Costs.L2Cost | dnn_lib.py:325 | the penalty is at least 0 for lambd >= 0 and exactly 0 for lambd = 0 |
| Costs.L2CostProperties | dnn_lib.py:325 | 1/m * lambd/2 * norm equals lambd/(2m) * norm; it is at least 0 for lambd >= 0, 0 for lambd = 0 and increasing in lambd; with a positive norm it is strictly increasing in lambd and positive for lambd > 0 |
| Costs.ComputeL2RegularizationCost | dnn_lib.py:321-325 | the accumulator loop over layers 1..L gives the L2 penalty of the squared entries of every W_l |
| Training.TrainingCost | dnn_lib.py:609-612 | both branches of the recorded cost equal cross-entropy plus L2 penalty, so the cost is never below the cross-entropy |
| Training.StepCost | dnn_lib.py:607-612 | the cost of one iteration is the cross-entropy of its forward pass's clamped output plus the L2 penalty of the parameters it started from |
| Training.RecordCost | dnn_lib.py:609-612 | the loop's cost computation clamps the output in place and takes its cross-entropy, adding the penalty when lambd is not 0; the cost is the training cost of the clamped output, which is handed on |
| Training.StepFacts | dnn_lib.py:607-618 | within one iteration: the forward pass applies; its caches serve the backward pass; the clamped output is a valid seed; the gradients match the parameters; and the update keeps their shapes |
| Training.StepParams | dnn_lib.py:616-618 | the parameters after one iteration still fit the layer widths |
| Training.Trained | dnn_lib.py:605-623 | after n iterations the parameters fit the widths and ceil(n / 100) costs have been recorded |
| Training.LastCost | dnn_lib.py:622-623 | iteration 100 k appends its cost as entry k |
| Training.EarlierCost | dnn_lib.py:622-623 | later iterations never change a cost already recorded |
| Training.CostAfter | dnn_lib.py:622-623 | a recorded cost is still in place any number of iterations later |
| Training.TrainedCostAt | dnn_lib.py:605-623 | costs[k] is the cost iteration 100 k computed, from the parameters it started with and the clamped output of its forward pass |
| Training.StepWithZeroRate | dnn_lib.py:618 | a zero learning rate leaves one iteration's parameters unchanged |
| Training.ZeroRateAfter | dnn_lib.py:605-618 | the induction behind TrainedWithZeroRate: for n > 0, n iterations at rate 0 leave the parameters unchanged |
| Training.TrainedWithZeroRate | dnn_lib.py:605-618 | any number of iterations at a zero learning rate leave the initial parameters unchanged |
| Training.TrainIteration | dnn_lib.py:607-618 | one loop body: forward pass; cost on the output clamped in place; backward pass from that clamped output; update. It gives the specified new parameters and cost |
| Training.TrainFrom | dnn_lib.py:605-623 | the loop from given parameters gives the parameters and costs of numIterations iterations |
| Training.TrainDeepFullyConnectedModel | dnn_lib.py:590-625 | He or Xavier initialisation followed by the loop; the result fits the widths and holds ceil(num_iterations / 100) costs, those of iterations 0, 100, 200, ... |
| Prediction.Threshold | dnn_lib.py:656 | the mask has the probabilities' shape |
| Prediction.ThresholdMonotone | dnn_lib.py:656 | an entry is True exactly when its probability is strictly above the threshold; raising the threshold only turns True into False |
| Prediction.Predict | dnn_lib.py:648-667 | predictions from the forward pass without dropout have the output's shape (1 x m for one output unit) |
| Prediction.RowAgreements | dnn_lib.py:681 | the agreements of a row number at most the row's length, and equal it exactly when every position agrees |
| Prediction.Agreements | dnn_lib.py:681 | the agreements of r rows of m number at most r m, and equal it exactly when every entry agrees |
| Prediction.CalculateAccuracy | dnn_lib.py:680-683 | accuracy is 0 with no columns; otherwise it lies between 0 and the number of label rows, and equals that number exactly when p and y agree everywhere |
| Prediction.RowAgreementsAndMismatches | dnn_lib.py:681 | every position of a row either agrees or is a mismatch |
| Prediction.AccuracyOfMismatches | dnn_lib.py:680-681 | for one row of m labels of which k disagree with the predictions, accuracy = (m - k) / m |
| Prediction.PredictionAccuracy | dnn_lib.py:648-683 | the predictions of the network on a row of labels score between 0 and 1, and score 1 exactly when every label is 1.0 where the output exceeds the threshold and 0.0 elsewhere |

## Where the code is unusual

- `compute_cross_entropy_cost` clamps the caller's AL in place
  (dnn_lib.py:300-301). The training loop then hands that same array to
  the backward pass (dnn_lib.py:616), so the backward pass starts from the
  clamped output, not from the one the forward pass produced.
  `Costs.ReplaceExact` and `Costs.ComputeCrossEntropyCost` model the
  in-place clamp, and `Training.RecordCost` hands the clamped output on to
  the backward pass in `Training.TrainIteration`.
- AL is also the very array stored as A in the output layer's cache, so
  the clamp rewrites that cache entry as well. No backward step reads a
  cache's A, so the gradients are the same either way. The model's caches
  are values and keep the unclamped A.
- When given an invalid argument, the code prints a message and then
  carries on. The model keeps that outcome wherever the code goes on to
  return something:
  - an unknown activation name yields a zero matrix, forward and backward
    (dnn_lib.py:216, 424; `Unrecognized`);
  - a keep_prob outside (0, 1] in the forward step yields an empty cache
    (dnn_lib.py:250).

  Where the code then fails, the model makes the failing case a
  precondition:
  - a negative lambd leaves `dW` unbound in the backward step
    (dnn_lib.py:350) and `cost` unset in the training loop
    (dnn_lib.py:614);
  - an invalid keep_prob in the backward step leaves `Z` unbound
    (dnn_lib.py:451).
- The initialisers loop over `range(1, len(layer_dims))` and so build
  `len(dims) - 1` layers for any width list, including one with fewer
  than two entries. `InitializeParametersDeep` does the same.
- The keep_prob list is indexed only at 0..L-2 (dnn_lib.py:276, 496), so
  a longer list is accepted (`KeepProbsCover`).

## Left out

- Dataset loading, plotting, `print_mislabeled_images`,
  `plot_decision_boundary`, the experiment script and the cost printing:
  these are file I/O, graphics and console output.
- `shallow_model_train` is not part of this model. Only its initialiser
  `initialize_parameters_shallow` is modelled.
- The random generators and the seeding: the draws are inputs. The model
  does not state that they are normal or uniform.
- Floating-point rounding, infinities and NaN: the reals are exact. The
  model's clamp tests exact equality with 0 and 1, as the code does.
- Network.LLayerModelBackward (and Network.ModelBackward) require
  `Unsaturated(AL)`: the seed at dnn_lib.py:479 divides by AL and by
  1 - AL without a guard, where numpy would give inf or NaN. The trainer
  always passes the clamped AL, which meets the requirement.
- Activations.SigmoidForward states only the output's shape, because the
  logistic function is an abstract parameter. The range (0, 1) of the
  real logistic function is not assumed.
- Activations.SigmoidGrad states only the shape. Its entrywise form
  dA * s * (1 - s) holds whatever values `sigma` takes, and is the body
  itself. Only the bound on its size depends on sigma's range, and
  `SigmoidGradBounded` states that bound for values in [0, 1].
- Parameters.InitialParameters writes Xavier's factor 1/sqrt(n) as
  `root(1 / n)`, because the square root is abstract. The two are equal
  for the real square root.
- Training.TrainDeepFullyConnectedModel takes the scheme as `He` or
  `Xavier`. With any other name the code prints an error, keeps an empty
  parameter dictionary, and then, when num_iterations > 0, fails in the
  forward pass (with 0 iterations it returns the empty dictionary and no
  costs). That case is not modelled.
- Network.LLayerModelBackward returns one (dA_prev, dW, db) per layer.
  The source's `grads` dictionary also holds the seed `grads["dA" + L]`
  (dAL), which no later step reads. The model does not keep it.
- Layers.CacheFits, and so the backward pass, requires every layer width
  and the number of examples m to be positive. m = 0 makes `1./m` fail
  in the code. Empty layers, which numpy would carry through, are not
  covered.
- Layers.LinearStepForward and Layers.SingleLayerForward require at least
  one input row (k > 0). A list of rows cannot hold a (0, m) input,
  which numpy would turn into a (n, m) output equal to the broadcast bias.
- Training.TrainReady requires one output unit and labels of shape
  (1, m). Only then does the cross-entropy's dot product reduce to the
  scalar the code records.
- Prediction.CalculateAccuracy requires p and y to have the same shape;
  numpy broadcasting between other shapes is not modelled. A boolean
  prediction equals a label when True meets 1.0 or False meets 0.0, as
  numpy compares them.
- Prediction.AccuracyOfMismatches is stated for one row of labels, the
  shape that prediction produces for the single output unit.
- Costs.CrossEntropy is computed with an abstract `ln`, so no lemma gives
  its numeric value. The lemmas relate it to the log-likelihood and
  bound its sign.
