/** The training loop of train_deep_fully_connected_model: initialise,
    then per iteration run the forward pass, record the cost (cross-entropy,
    plus the L2 penalty when lambd > 0), run the backward pass on the output
    the cost computation clamped in place, and take a gradient step. The
    random draws of every iteration are inputs: G for the initialisation
    and Us[i] for the dropout masks of iteration i. */
module Training {
  import opened Matrices
  import opened Layers
  import opened Parameters
  import opened Costs
  import opened Network

  /** What the trainer needs of its arguments: two or more positive layer
      widths ending in one output unit, labels Y of shape (1, m) with m > 0,
      inputs X of shape (dims[0], m), keep probabilities in (0, 1] for the
      hidden layers when dropout is on, and lambd >= 0. */
  predicate TrainReady(X: Matrix, Y: Matrix, dims: seq<nat>, kps: KeepProbs, lambd: real) {
    && |dims| >= 2 && PositiveWidths(dims) && dims[|dims| - 1] == 1
    && |Y| == 1 && |Y[0]| > 0 && IsShape(X, dims[0], |Y[0]|)
    && ValidKeepProbs(kps, |dims| - 1)
    && lambd >= 0.0
  }

  /** The draws of one iteration, when dropout is on. */
  predicate StepDraws(U: seq<Matrix>, dims: seq<nat>, kps: KeepProbs, m: nat) {
    kps.PerLayer? ==> DropoutDrawsFit(U, dims, m)
  }

  /** The draws of iterations 0..n-1. */
  predicate IterationDraws(Us: seq<seq<Matrix>>, dims: seq<nat>, kps: KeepProbs, m: nat, n: nat) {
    |Us| >= n && forall i :: 0 <= i < n ==> StepDraws(Us[i], dims, kps, m)
  }

  /** The recorded cost: the cross-entropy alone for lambd = 0, and the
      cross-entropy plus the L2 penalty for lambd > 0. Both branches are the
      cross-entropy plus the penalty (which is 0 for lambd = 0), so the
      recorded cost is never below the cross-entropy. */
  function TrainingCost(AL: Matrix, Y: Matrix, params: seq<LayerParams>, lambd: real, ln: real -> real): (r: real)
    requires |Y| == 1 && |Y[0]| > 0 && IsShape(AL, 1, |Y[0]|) && lambd >= 0.0
    ensures r == CrossEntropy(AL, Y, ln) + L2Cost(|Y[0]|, params, lambd)
    ensures r >= CrossEntropy(AL, Y, ln)
  {
    var ce := CrossEntropy(AL, Y, ln);
    if lambd == 0.0 then ce else ce + L2Cost(|Y[0]|, params, lambd)
  }

  /** Everything one iteration relies on: the forward pass can run, its
      caches serve the backward pass, the clamped output is a valid seed,
      and the gradients fit the parameters, so the update keeps their
      shapes. */
  lemma StepFacts(X: Matrix, Y: Matrix, params: seq<LayerParams>, dims: seq<nat>, kps: KeepProbs, lambd: real,
                  lr: real, U: seq<Matrix>, sigma: real -> real)
    requires TrainReady(X, Y, dims, kps, lambd) && Fits(params, dims) && StepDraws(U, dims, kps, |Y[0]|)
    ensures ForwardReady(X, params, dims, kps, U) && Cols(X) == |Y[0]|
    ensures var (AL, caches) := ModelForward(X, params, dims, kps, U, sigma);
            var ALc := Clamp(AL);
            && IsShape(AL, 1, |Y[0]|) && IsShape(ALc, 1, |Y[0]|)
            && CachesReady(caches, dims, |Y[0]|, kps)
            && SameShape(Y, ALc) && Unsaturated(ALc)
            && GradientsMatch(params, ModelBackward(ALc, Y, caches, dims, |Y[0]|, kps, lambd, sigma))
            && Fits(UpdatedParameters(params, ModelBackward(ALc, Y, caches, dims, |Y[0]|, kps, lambd, sigma), lr), dims)
  {
    var m := |Y[0]|;
    assert Cols(X) == m;
    var (AL, caches) := ModelForward(X, params, dims, kps, U, sigma);
    hide ModelForward, ModelBackward, UpdatedParameters;
    ModelForwardCaches(X, params, dims, kps, U, sigma);
    ClampProperties(AL);
    var ALc := Clamp(AL);
    assert IsShape(ALc, 1, m);
    ModelBackwardMatchesParameters(ALc, Y, caches, dims, m, kps, lambd, sigma, params);
    UpdatePreservesFit(params, ModelBackward(ALc, Y, caches, dims, m, kps, lambd, sigma), lr, dims);
  }

  /** The cost one iteration records: the training cost of the clamped
      output of its forward pass, with the parameters it started from, so
      the cross-entropy of that clamped output plus the parameters' L2
      penalty. */
  function StepCost(X: Matrix, Y: Matrix, params: seq<LayerParams>, dims: seq<nat>, kps: KeepProbs, lambd: real,
                    U: seq<Matrix>, sigma: real -> real, ln: real -> real): (r: real)
    requires TrainReady(X, Y, dims, kps, lambd) && Fits(params, dims) && StepDraws(U, dims, kps, |Y[0]|)
    ensures var AL := ModelForward(X, params, dims, kps, U, sigma).0;
            IsShape(AL, 1, |Y[0]|) && r == CrossEntropy(Clamp(AL), Y, ln) + L2Cost(|Y[0]|, params, lambd)
  {
    StepFacts(X, Y, params, dims, kps, lambd, 0.0, U, sigma);
    TrainingCost(Clamp(ModelForward(X, params, dims, kps, U, sigma).0), Y, params, lambd, ln)
  }

  /** The parameters after one iteration: the backward pass starts from the
      same clamped output the cost was computed on, and its gradients give
      one descent step, which keeps the parameters' shapes. */
  function StepParams(X: Matrix, Y: Matrix, params: seq<LayerParams>, dims: seq<nat>, kps: KeepProbs, lambd: real,
                      lr: real, U: seq<Matrix>, sigma: real -> real): (r: seq<LayerParams>)
    requires TrainReady(X, Y, dims, kps, lambd) && Fits(params, dims) && StepDraws(U, dims, kps, |Y[0]|)
    ensures Fits(r, dims)
  {
    StepFacts(X, Y, params, dims, kps, lambd, lr, U, sigma);
    var (AL, caches) := ModelForward(X, params, dims, kps, U, sigma);
    UpdatedParameters(params, ModelBackward(Clamp(AL), Y, caches, dims, |Y[0]|, kps, lambd, sigma), lr)
  }

  /** Arithmetic helper of Trained: ceil(n / 100) grows by one exactly
      when n - 1 is a multiple of 100. */
  lemma RecordCount(n: nat)
    requires n > 0
    ensures (n + 99) / 100 == (n + 98) / 100 + (if (n - 1) % 100 == 0 then 1 else 0)
  {
    var q := (n - 1) / 100;
    var r := (n - 1) % 100;
    assert n - 1 == 100 * q + r && 0 <= r < 100;
    assert n + 98 == 100 * (q + 0) + (r + 99);
    if r == 0 {
      assert (n + 98) / 100 == q;
      assert (n + 99) / 100 == q + 1;
    } else {
      assert (n + 98) / 100 == q + 1;
      assert (n + 99) / 100 == q + 1;
    }
  }

  /** The parameters after n iterations from params0, and the costs of
      iterations 0, 100, 200, ... below n. */
  function Trained(X: Matrix, Y: Matrix, params0: seq<LayerParams>, dims: seq<nat>, kps: KeepProbs, lambd: real,
                   lr: real, Us: seq<seq<Matrix>>, sigma: real -> real, ln: real -> real, n: nat)
    : (r: (seq<LayerParams>, seq<real>))
    requires TrainReady(X, Y, dims, kps, lambd) && Fits(params0, dims) && IterationDraws(Us, dims, kps, |Y[0]|, n)
    ensures Fits(r.0, dims) && |r.1| == (n + 99) / 100
    decreases n
  {
    if n == 0 then (params0, [])
    else
      var (p, cs) := Trained(X, Y, params0, dims, kps, lambd, lr, Us, sigma, ln, n - 1);
      RecordCount(n);
      (StepParams(X, Y, p, dims, kps, lambd, lr, Us[n - 1], sigma),
       if (n - 1) % 100 == 0 then cs + [StepCost(X, Y, p, dims, kps, lambd, Us[n - 1], sigma, ln)] else cs)
  }

  /** No iteration leaves the initial parameters and records no cost. */
  lemma TrainedNone(X: Matrix, Y: Matrix, params0: seq<LayerParams>, dims: seq<nat>, kps: KeepProbs, lambd: real,
                    lr: real, Us: seq<seq<Matrix>>, sigma: real -> real, ln: real -> real)
    requires TrainReady(X, Y, dims, kps, lambd) && Fits(params0, dims) && IterationDraws(Us, dims, kps, |Y[0]|, 0)
    ensures Trained(X, Y, params0, dims, kps, lambd, lr, Us, sigma, ln, 0) == (params0, [])
  {
  }

  /** Iteration n - 1 takes one step from the parameters of the first
      n - 1 iterations, and records its cost when n - 1 is a multiple of 100. */
  lemma TrainedLast(X: Matrix, Y: Matrix, params0: seq<LayerParams>, dims: seq<nat>, kps: KeepProbs, lambd: real,
                    lr: real, Us: seq<seq<Matrix>>, sigma: real -> real, ln: real -> real, n: nat)
    requires TrainReady(X, Y, dims, kps, lambd) && Fits(params0, dims) && IterationDraws(Us, dims, kps, |Y[0]|, n)
    requires n > 0
    ensures var prev := Trained(X, Y, params0, dims, kps, lambd, lr, Us, sigma, ln, n - 1);
            && Trained(X, Y, params0, dims, kps, lambd, lr, Us, sigma, ln, n).0
               == StepParams(X, Y, prev.0, dims, kps, lambd, lr, Us[n - 1], sigma)
            && Trained(X, Y, params0, dims, kps, lambd, lr, Us, sigma, ln, n).1
               == if (n - 1) % 100 == 0 then prev.1 + [StepCost(X, Y, prev.0, dims, kps, lambd, Us[n - 1], sigma, ln)]
                  else prev.1
  {
  }

  /** TrainedLast for iteration n, in the form the training loop uses. */
  lemma TrainedNext(X: Matrix, Y: Matrix, params0: seq<LayerParams>, dims: seq<nat>, kps: KeepProbs, lambd: real,
                    lr: real, Us: seq<seq<Matrix>>, sigma: real -> real, ln: real -> real, n: nat)
    requires TrainReady(X, Y, dims, kps, lambd) && Fits(params0, dims) && IterationDraws(Us, dims, kps, |Y[0]|, n + 1)
    ensures var prev := Trained(X, Y, params0, dims, kps, lambd, lr, Us, sigma, ln, n);
            && Trained(X, Y, params0, dims, kps, lambd, lr, Us, sigma, ln, n + 1).0 == StepParams(X, Y, prev.0, dims, kps, lambd, lr, Us[n], sigma)
            && Trained(X, Y, params0, dims, kps, lambd, lr, Us, sigma, ln, n + 1).1
               == if n % 100 == 0 then prev.1 + [StepCost(X, Y, prev.0, dims, kps, lambd, Us[n], sigma, ln)] else prev.1
  {
    TrainedLast(X, Y, params0, dims, kps, lambd, lr, Us, sigma, ln, n + 1);
  }

  /** Arithmetic helper of TrainedCostAt: k < ceil(n / 100) means 100 k < n. */
  lemma RecordIndex(n: nat, k: nat)
    requires n > 0 && k < (n + 99) / 100
    ensures 100 * k < n
  {
    var q := (n - 1) / 100;
    assert n - 1 == 100 * q + (n - 1) % 100;
  }

  /** Arithmetic helper of LastCost: 100 k is a multiple of 100 and
      ceil(100 k / 100) == k. */
  lemma RecordedAt(j: nat, k: nat)
    requires j == 100 * k
    ensures j % 100 == 0 && (j + 99) / 100 == k
  {
  }

  /** Iteration j = 100 k appends its cost as the k-th. */
  lemma LastCost(X: Matrix, Y: Matrix, params0: seq<LayerParams>, dims: seq<nat>, kps: KeepProbs, lambd: real,
                   lr: real, Us: seq<seq<Matrix>>, sigma: real -> real, ln: real -> real, j: nat, k: nat)
    requires TrainReady(X, Y, dims, kps, lambd) && Fits(params0, dims) && IterationDraws(Us, dims, kps, |Y[0]|, j + 1)
    requires j == 100 * k
    ensures k < |Trained(X, Y, params0, dims, kps, lambd, lr, Us, sigma, ln, j + 1).1|
    ensures Trained(X, Y, params0, dims, kps, lambd, lr, Us, sigma, ln, j + 1).1[k] == StepCost(X, Y, Trained(X, Y, params0, dims, kps, lambd, lr, Us, sigma, ln, j).0, dims, kps, lambd, Us[j], sigma, ln)
  {
    hide StepParams, ModelForward, Clamp, CrossEntropy, L2Cost;
    RecordedAt(j, k);
    TrainedNext(X, Y, params0, dims, kps, lambd, lr, Us, sigma, ln, j);
  }

  /** Costs already recorded stay as they were. */
  lemma EarlierCost(X: Matrix, Y: Matrix, params0: seq<LayerParams>, dims: seq<nat>, kps: KeepProbs, lambd: real,
                   lr: real, Us: seq<seq<Matrix>>, sigma: real -> real, ln: real -> real, n: nat, k: nat)
    requires TrainReady(X, Y, dims, kps, lambd) && Fits(params0, dims) && IterationDraws(Us, dims, kps, |Y[0]|, n)
    requires n > 0 && k < |Trained(X, Y, params0, dims, kps, lambd, lr, Us, sigma, ln, n - 1).1|
    ensures k < |Trained(X, Y, params0, dims, kps, lambd, lr, Us, sigma, ln, n).1| && Trained(X, Y, params0, dims, kps, lambd, lr, Us, sigma, ln, n).1[k] == Trained(X, Y, params0, dims, kps, lambd, lr, Us, sigma, ln, n - 1).1[k]
  {
    TrainedLast(X, Y, params0, dims, kps, lambd, lr, Us, sigma, ln, n);
  }

  /** A cost recorded after n iterations is still in place d iterations
      later. */
  lemma {:induction false} CostAfter(X: Matrix, Y: Matrix, params0: seq<LayerParams>, dims: seq<nat>, kps: KeepProbs, lambd: real,
                   lr: real, Us: seq<seq<Matrix>>, sigma: real -> real, ln: real -> real, n: nat, k: nat, d: nat)
    requires TrainReady(X, Y, dims, kps, lambd) && Fits(params0, dims) && IterationDraws(Us, dims, kps, |Y[0]|, n + d)
    requires k < |Trained(X, Y, params0, dims, kps, lambd, lr, Us, sigma, ln, n).1|
    ensures k < |Trained(X, Y, params0, dims, kps, lambd, lr, Us, sigma, ln, n + d).1| && Trained(X, Y, params0, dims, kps, lambd, lr, Us, sigma, ln, n + d).1[k] == Trained(X, Y, params0, dims, kps, lambd, lr, Us, sigma, ln, n).1[k]
    decreases d
  {
    hide Trained, StepParams, StepCost;
    if d > 0 {
      CostAfter(X, Y, params0, dims, kps, lambd, lr, Us, sigma, ln, n, k, d - 1);
      EarlierCost(X, Y, params0, dims, kps, lambd, lr, Us, sigma, ln, n + d, k);
    }
  }

  /** The k-th recorded cost is the cost of iteration 100 k: the training
      cost of the clamped output that iteration's forward pass produced from
      the parameters it started with. */
  lemma TrainedCostAt(X: Matrix, Y: Matrix, params0: seq<LayerParams>, dims: seq<nat>, kps: KeepProbs, lambd: real,
                   lr: real, Us: seq<seq<Matrix>>, sigma: real -> real, ln: real -> real, n: nat, k: nat)
    requires TrainReady(X, Y, dims, kps, lambd) && Fits(params0, dims) && IterationDraws(Us, dims, kps, |Y[0]|, n)
    requires n > 0 && k < (n + 99) / 100
    ensures 100 * k < n
    ensures Trained(X, Y, params0, dims, kps, lambd, lr, Us, sigma, ln, n).1[k] == StepCost(X, Y, Trained(X, Y, params0, dims, kps, lambd, lr, Us, sigma, ln, 100 * k).0, dims, kps, lambd, Us[100 * k], sigma, ln)
  {
    hide Trained, StepParams, StepCost, ModelForward, Clamp, CrossEntropy, L2Cost;
    RecordIndex(n, k);
    LastCost(X, Y, params0, dims, kps, lambd, lr, Us, sigma, ln, 100 * k, k);
    CostAfter(X, Y, params0, dims, kps, lambd, lr, Us, sigma, ln, 100 * k + 1, k, n - 1 - 100 * k);
  }

  /** A zero learning rate leaves the parameters of one iteration as they
      were. */
  lemma StepWithZeroRate(X: Matrix, Y: Matrix, params: seq<LayerParams>, dims: seq<nat>, kps: KeepProbs, lambd: real,
                         U: seq<Matrix>, sigma: real -> real)
    requires TrainReady(X, Y, dims, kps, lambd) && Fits(params, dims) && StepDraws(U, dims, kps, |Y[0]|)
    ensures StepParams(X, Y, params, dims, kps, lambd, 0.0, U, sigma) == params
  {
    StepFacts(X, Y, params, dims, kps, lambd, 0.0, U, sigma);
    var (AL, caches) := ModelForward(X, params, dims, kps, U, sigma);
    UpdateWithoutStep(params, ModelBackward(Clamp(AL), Y, caches, dims, |Y[0]|, kps, lambd, sigma), 0.0);
  }

  /** With a zero learning rate training never moves the parameters. */
  lemma TrainedWithZeroRate(X: Matrix, Y: Matrix, params0: seq<LayerParams>, dims: seq<nat>,
                                               kps: KeepProbs, lambd: real, Us: seq<seq<Matrix>>,
                                               sigma: real -> real, ln: real -> real, n: nat)
    requires TrainReady(X, Y, dims, kps, lambd) && Fits(params0, dims) && IterationDraws(Us, dims, kps, |Y[0]|, n)
    ensures Trained(X, Y, params0, dims, kps, lambd, 0.0, Us, sigma, ln, n).0 == params0
  {
    if n > 0 {
      ZeroRateAfter(X, Y, params0, dims, kps, lambd, Us, sigma, ln, n);
    }
  }

  /** The induction behind TrainedWithZeroRate, from one iteration on. */
  lemma {:induction false} ZeroRateAfter(X: Matrix, Y: Matrix, params0: seq<LayerParams>, dims: seq<nat>,
                                               kps: KeepProbs, lambd: real, Us: seq<seq<Matrix>>,
                                               sigma: real -> real, ln: real -> real, n: nat)
    requires TrainReady(X, Y, dims, kps, lambd) && Fits(params0, dims) && IterationDraws(Us, dims, kps, |Y[0]|, n)
    requires n > 0
    ensures Trained(X, Y, params0, dims, kps, lambd, 0.0, Us, sigma, ln, n).0 == params0
    decreases n
  {
    if n > 1 {
      ZeroRateAfter(X, Y, params0, dims, kps, lambd, Us, sigma, ln, n - 1);
    }
    TrainedLast(X, Y, params0, dims, kps, lambd, 0.0, Us, sigma, ln, n);
    StepWithZeroRate(X, Y, params0, dims, kps, lambd, Us[n - 1], sigma);
  }

  /** AL is a numpy array that compute_cross_entropy_cost rewrites in
      place; the forward pass yields it here as a value, so it is copied
      into a fresh two-dimensional array (of r rows and c columns, holding
      M entry for entry) for the clamp to act on. */
  method ToArray(M: Matrix, r: nat, c: nat) returns (a: array2<real>)
    requires IsShape(M, r, c)
    ensures fresh(a) && a.Length0 == r && a.Length1 == c && Contents(a) == M
  {
    a := new real[r, c]((i: nat, j: nat) requires i < r && j < c => M[i][j]);
    assert forall i :: 0 <= i < r ==> Contents(a)[i] == M[i];
  }

  /** StepCost in terms of the output of the forward pass: the
      cross-entropy of that output, clamped, plus the L2 penalty. */
  lemma StepCostOf(X: Matrix, Y: Matrix, params: seq<LayerParams>, dims: seq<nat>, kps: KeepProbs, lambd: real,
                   U: seq<Matrix>, sigma: real -> real, ln: real -> real, AL: Matrix)
    requires TrainReady(X, Y, dims, kps, lambd) && Fits(params, dims) && StepDraws(U, dims, kps, |Y[0]|)
    requires ForwardReady(X, params, dims, kps, U) && AL == ModelForward(X, params, dims, kps, U, sigma).0
    requires IsShape(Clamp(AL), 1, |Y[0]|)
    ensures StepCost(X, Y, params, dims, kps, lambd, U, sigma, ln) == TrainingCost(Clamp(AL), Y, params, lambd, ln)
    ensures StepCost(X, Y, params, dims, kps, lambd, U, sigma, ln) == CrossEntropy(Clamp(AL), Y, ln) + L2Cost(|Y[0]|, params, lambd)
  {
  }

  /** StepParams in terms of the gradients of the backward pass. */
  lemma StepParamsOf(X: Matrix, Y: Matrix, params: seq<LayerParams>, dims: seq<nat>, kps: KeepProbs, lambd: real,
                     lr: real, U: seq<Matrix>, sigma: real -> real, AL: Matrix, caches: seq<LayerCache>,
                     grads: seq<LayerGradient>)
    requires TrainReady(X, Y, dims, kps, lambd) && Fits(params, dims) && StepDraws(U, dims, kps, |Y[0]|)
    requires ForwardReady(X, params, dims, kps, U) && (AL, caches) == ModelForward(X, params, dims, kps, U, sigma)
    requires CachesReady(caches, dims, |Y[0]|, kps) && IsShape(Clamp(AL), 1, |Y[0]|)
    requires SameShape(Y, Clamp(AL)) && Unsaturated(Clamp(AL))
    requires grads == ModelBackward(Clamp(AL), Y, caches, dims, |Y[0]|, kps, lambd, sigma)
    requires GradientsMatch(params, grads)
    ensures StepParams(X, Y, params, dims, kps, lambd, lr, U, sigma) == UpdatedParameters(params, grads, lr)
  {
  }

  /** The cost an iteration records: the output is clamped in place while
      its cross-entropy is taken, and the L2 penalty is added when lambd is
      not 0. The clamped output is handed back for the backward pass. */
  method RecordCost(AL: Matrix, Y: Matrix, params: seq<LayerParams>, lambd: real, ln: real -> real)
    returns (cost: real, ALc: Matrix)
    requires |Y| == 1 && |Y[0]| > 0 && IsShape(AL, 1, |Y[0]|) && lambd >= 0.0
    ensures ALc == Clamp(AL)
    ensures cost == TrainingCost(ALc, Y, params, lambd, ln)
  {
    var m := |Y[0]|;
    var a := ToArray(AL, 1, m);
    cost := ComputeCrossEntropyCost(a, Y, ln);
    if lambd != 0.0 {
      var penalty := ComputeL2RegularizationCost(m, params, lambd);
      cost := cost + penalty;
    }
    ALc := Contents(a);
  }

  /** One pass of the training loop: the forward pass, the cost on the
      output the cost computation clamps in place, the backward pass from
      that clamped output, and the update. */
  method TrainIteration(X: Matrix, Y: Matrix, params: seq<LayerParams>, dims: seq<nat>, kps: KeepProbs, lambd: real,
                        lr: real, U: seq<Matrix>, sigma: real -> real, ln: real -> real)
    returns (updated: seq<LayerParams>, cost: real)
    requires TrainReady(X, Y, dims, kps, lambd) && Fits(params, dims) && StepDraws(U, dims, kps, |Y[0]|)
    ensures updated == StepParams(X, Y, params, dims, kps, lambd, lr, U, sigma)
    ensures cost == StepCost(X, Y, params, dims, kps, lambd, U, sigma, ln)
  {
    var m := |Y[0]|;
    hide TrainingCost, StepCost, StepParams, ModelForward, ModelBackward, UpdatedParameters;
    StepFacts(X, Y, params, dims, kps, lambd, lr, U, sigma);
    var AL, caches := LLayerModelForward(X, params, dims, kps, U, sigma);
    var ALc;
    cost, ALc := RecordCost(AL, Y, params, lambd, ln);
    StepCostOf(X, Y, params, dims, kps, lambd, U, sigma, ln, AL);
    var grads := LLayerModelBackward(ALc, Y, caches, dims, m, kps, lambd, sigma);
    updated := UpdateParameters(params, grads, lr);
    StepParamsOf(X, Y, params, dims, kps, lambd, lr, U, sigma, AL, caches, grads);
  }

  /** The training loop: numIterations passes from params0, recording the
      cost of every pass whose index is a multiple of 100. */
  method TrainFrom(X: Matrix, Y: Matrix, params0: seq<LayerParams>, dims: seq<nat>, kps: KeepProbs, lambd: real,
                   lr: real, numIterations: nat, Us: seq<seq<Matrix>>, sigma: real -> real, ln: real -> real)
    returns (params: seq<LayerParams>, costs: seq<real>)
    requires TrainReady(X, Y, dims, kps, lambd) && Fits(params0, dims)
    requires IterationDraws(Us, dims, kps, |Y[0]|, numIterations)
    ensures params == Trained(X, Y, params0, dims, kps, lambd, lr, Us, sigma, ln, numIterations).0
    ensures costs == Trained(X, Y, params0, dims, kps, lambd, lr, Us, sigma, ln, numIterations).1
  {
    params := params0;
    costs := [];
    TrainedNone(X, Y, params0, dims, kps, lambd, lr, Us, sigma, ln);
    hide Trained, StepParams, StepCost;
    for i := 0 to numIterations
      invariant params == Trained(X, Y, params0, dims, kps, lambd, lr, Us, sigma, ln, i).0
      invariant costs == Trained(X, Y, params0, dims, kps, lambd, lr, Us, sigma, ln, i).1
    {
      TrainedNext(X, Y, params0, dims, kps, lambd, lr, Us, sigma, ln, i);
      var cost;
      params, cost := TrainIteration(X, Y, params, dims, kps, lambd, lr, Us[i], sigma, ln);
      if i % 100 == 0 {
        costs := costs + [cost];
      }
    }
  }

  /** train_deep_fully_connected_model with the He or Xavier
      initialisation. Returns the trained parameters and the costs recorded
      every 100 iterations. */
  method TrainDeepFullyConnectedModel(X: Matrix, Y: Matrix, dims: seq<nat>, lr: real, numIterations: nat,
                                      scheme: Scheme, lambd: real, kps: KeepProbs, G: seq<Matrix>,
                                      Us: seq<seq<Matrix>>, sigma: real -> real, ln: real -> real, root: real -> real)
    returns (params: seq<LayerParams>, costs: seq<real>)
    requires TrainReady(X, Y, dims, kps, lambd) && DrawsFit(G, dims)
    requires IterationDraws(Us, dims, kps, |Y[0]|, numIterations)
    ensures SchemeDefined(scheme, dims)
    ensures var r := Trained(X, Y, InitialParameters(scheme, dims, G, root), dims, kps, lambd, lr, Us, sigma, ln,
                             numIterations);
            params == r.0 && costs == r.1
    ensures Fits(params, dims) && |costs| == (numIterations + 99) / 100
  {
    assert SchemeDefined(scheme, dims);
    var params0 := InitializeParametersDeep(scheme, dims, G, root);
    params, costs := TrainFrom(X, Y, params0, dims, kps, lambd, lr, numIterations, Us, sigma, ln);
  }
}
