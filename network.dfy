/** The whole network: the forward pass through L - 1 relu layers (with
    optional per-layer dropout) and one sigmoid output layer, and the
    backward pass from the cross-entropy gradient of the output down to
    layer 1. Layer l (1-based) uses params[l - 1], caches[l - 1] and the
    uniform draws U[l - 1]; its gradient is grads[l - 1]. */
module Network {
  import opened Matrices
  import opened Activations
  import opened Layers
  import opened Parameters
  import opened Costs

  /** The keep_prob argument: None (no dropout anywhere) or a list whose
      entry l - 1 is the keep probability of hidden layer l. */
  datatype KeepProbs = Disabled | PerLayer(ks: seq<real>)

  /** The list has an entry for each of the L - 1 hidden layers. */
  predicate KeepProbsCover(kps: KeepProbs, L: nat) {
    kps.PerLayer? ==> |kps.ks| >= L - 1
  }

  /** The keep probability the hidden layer l is run with. */
  function KeepProb(kps: KeepProbs, l: nat): real
    requires kps.PerLayer? ==> 1 <= l <= |kps.ks|
  {
    match kps
    case Disabled => 1.0
    case PerLayer(ks) => ks[l - 1]
  }

  /** The keep probability of layer l of L: the output layer never drops. */
  function LayerKeepProb(kps: KeepProbs, l: nat, L: nat): real
    requires 1 <= l <= L && KeepProbsCover(kps, L)
  {
    if l == L then 1.0 else KeepProb(kps, l)
  }

  /** Every hidden keep probability lies in (0, 1]. */
  predicate ValidKeepProbs(kps: KeepProbs, L: nat) {
    && KeepProbsCover(kps, L)
    && forall l :: 1 <= l < L ==> 0.0 < KeepProb(kps, l) <= 1.0
  }

  /** Every layer width is positive. */
  predicate PositiveWidths(dims: seq<nat>) {
    forall i :: 0 <= i < |dims| ==> dims[i] > 0
  }

  /** Every entry is non-negative. */
  predicate NonNegative(M: Matrix) {
    forall i, j :: 0 <= i < |M| && 0 <= j < |M[i]| ==> M[i][j] >= 0.0
  }

  /** Layer i (0-based) can be applied to an input of width dims[i]. */
  lemma LayerApplies(A: Matrix, params: seq<LayerParams>, dims: seq<nat>, i: nat, m: nat)
    requires Fits(params, dims) && i < |params| && dims[i] > 0 && IsShape(A, dims[i], m)
    ensures LinearShapes(A, params[i].W, params[i].b) && Cols(A) == m && |params[i].W| == dims[i + 1]
  {
    assert IsShape(params[i].W, dims[i + 1], dims[i]) && IsShape(params[i].b, dims[i + 1], 1);
    assert |A[0]| == m;
  }

  /** U[l-1] holds the uniform draws of hidden layer l, of its output's
      shape (dims[l] x m). */
  predicate DropoutDrawsFit(U: seq<Matrix>, dims: seq<nat>, m: nat) {
    && |U| >= |dims| - 2
    && forall i :: 0 <= i < |dims| - 2 ==> IsShape(U[i], dims[i + 1], m)
  }

  /** The draws hidden layer l reads: none when dropout is off. */
  function LayerDraws(kps: KeepProbs, U: seq<Matrix>, l: nat): Matrix
    requires kps.PerLayer? ==> 1 <= l <= |U|
  {
    if kps.Disabled? then [] else U[l - 1]
  }

  /** What the forward pass is given: at least one layer, parameters fitting
      positive widths, an input of width dims[0] and, when dropout is on, a
      keep probability and a block of uniform draws of the output's shape
      for every hidden layer. */
  predicate ForwardReady(X: Matrix, params: seq<LayerParams>, dims: seq<nat>, kps: KeepProbs, U: seq<Matrix>) {
    && |params| > 0 && Fits(params, dims) && PositiveWidths(dims)
    && IsShape(X, dims[0], Cols(X))
    && KeepProbsCover(kps, |params|)
    && (kps.PerLayer? ==> DropoutDrawsFit(U, dims, Cols(X)))
  }

  /** The output and the caches of the first n (relu) layers. */
  function HiddenForward(X: Matrix, params: seq<LayerParams>, dims: seq<nat>, kps: KeepProbs, U: seq<Matrix>,
                         sigma: real -> real, n: nat): (r: (Matrix, seq<LayerCache>))
    requires ForwardReady(X, params, dims, kps, U) && n < |params|
    ensures IsShape(r.0, dims[n], Cols(X)) && Cols(r.0) == Cols(X) && |r.1| == n
    decreases n
  {
    if n == 0 then (X, [])
    else
      var (A, cs) := HiddenForward(X, params, dims, kps, U, sigma, n - 1);
      LayerApplies(A, params, dims, n - 1, Cols(X));
      var (A', c) := SingleLayerForward(A, params[n - 1].W, params[n - 1].b, Relu, KeepProb(kps, n), LayerDraws(kps, U, n), sigma);
      (A', cs + [c])
  }

  /** The output AL and the L caches of the whole forward pass; the output
      layer is a sigmoid layer run without dropout. */
  function ModelForward(X: Matrix, params: seq<LayerParams>, dims: seq<nat>, kps: KeepProbs, U: seq<Matrix>,
                        sigma: real -> real): (r: (Matrix, seq<LayerCache>))
    requires ForwardReady(X, params, dims, kps, U)
    ensures IsShape(r.0, dims[|params|], Cols(X)) && Cols(r.0) == Cols(X) && |r.1| == |params|
  {
    var L := |params|;
    var (A, cs) := HiddenForward(X, params, dims, kps, U, sigma, L - 1);
    LayerApplies(A, params, dims, L - 1, Cols(X));
    var (AL, c) := SingleLayerForward(A, params[L - 1].W, params[L - 1].b, Sigmoid, 1.0, [], sigma);
    (AL, cs + [c])
  }

  /** L_layer_model_forward: layers 1..L-1 with relu, each with its own
      keep probability, then layer L with sigmoid. */
  method LLayerModelForward(X: Matrix, params: seq<LayerParams>, dims: seq<nat>, kps: KeepProbs, U: seq<Matrix>,
                            sigma: real -> real) returns (AL: Matrix, caches: seq<LayerCache>)
    requires ForwardReady(X, params, dims, kps, U)
    ensures (AL, caches) == ModelForward(X, params, dims, kps, U, sigma)
    ensures IsShape(AL, dims[|params|], Cols(X)) && |caches| == |params|
  {
    var L := |params|;
    var APrev := X;
    caches := [];
    var l := 1;
    while l < L
      invariant 1 <= l <= L
      invariant (APrev, caches) == HiddenForward(X, params, dims, kps, U, sigma, l - 1)
    {
      LayerApplies(APrev, params, dims, l - 1, Cols(X));
      var r := SingleLayerForward(APrev, params[l - 1].W, params[l - 1].b, Relu, KeepProb(kps, l), LayerDraws(kps, U, l), sigma);
      caches := caches + [r.1];
      APrev := r.0;
      l := l + 1;
    }
    LayerApplies(APrev, params, dims, L - 1, Cols(X));
    var r := SingleLayerForward(APrev, params[L - 1].W, params[L - 1].b, Sigmoid, 1.0, [], sigma);
    AL := r.0;
    caches := caches + [r.1];
  }

  /** The cache of one layer is usable by its backward step and records
      that layer's parameters. */
  predicate LayerRecord(c: LayerCache, p: LayerParams, n: nat, k: nat, m: nat, kp: real) {
    && CacheMatches(c, kp) && CacheFits(c, n, k, m)
    && c.W == p.W && c.b == p.b
  }

  /** What a relu layer with keep probability in (0, 1] records: a usable
      cache, the parameters it used, and a non-negative output. */
  lemma HiddenLayerRecord(APrev: Matrix, p: LayerParams, kp: real, U: Matrix, sigma: real -> real, n: nat, k: nat, m: nat)
    requires IsShape(APrev, k, m) && IsShape(p.W, n, k) && IsShape(p.b, n, 1) && n > 0 && k > 0 && m > 0
    requires 0.0 < kp <= 1.0 && (kp < 1.0 ==> IsShape(U, n, m))
    ensures var (out, c) := SingleLayerForward(APrev, p.W, p.b, Relu, kp, U, sigma);
            LayerRecord(c, p, n, k, m, kp) && c.A == out && c.APrev == APrev && NonNegative(out)
  {
    var (out, c) := SingleLayerForward(APrev, p.W, p.b, Relu, kp, U, sigma);
    SingleLayerForwardCases(APrev, p.W, p.b, Relu, kp, U, sigma);
    var A := ActivationForward(LinearStepForward(APrev, p.W, p.b), Relu, sigma);
    if kp < 1.0 {
      forall i, j | 0 <= i < n && 0 <= j < m
        ensures out[i][j] >= 0.0
      {
        if c.D[i][j] == 1.0 {
          assert A[i][j] >= 0.0;
          assert out[i][j] == A[i][j] / kp;
        }
      }
    }
  }

  /** Running more layers leaves the caches of the earlier ones as they
      were: cache i of the first n layers is the one layer i + 1 added. */
  lemma {:induction false} HiddenForwardPrefix(X: Matrix, params: seq<LayerParams>, dims: seq<nat>, kps: KeepProbs,
                                               U: seq<Matrix>, sigma: real -> real, n: nat, i: nat)
    requires ForwardReady(X, params, dims, kps, U) && i < n < |params|
    ensures HiddenForward(X, params, dims, kps, U, sigma, n).1[i] == HiddenForward(X, params, dims, kps, U, sigma, i + 1).1[i]
    decreases n
  {
    hide SingleLayerForward;
    if n > i + 1 {
      HiddenForwardPrefix(X, params, dims, kps, U, sigma, n - 1, i);
      var (A, cs) := HiddenForward(X, params, dims, kps, U, sigma, n - 1);
      LayerApplies(A, params, dims, n - 1, Cols(X));
      var (A', c) := SingleLayerForward(A, params[n - 1].W, params[n - 1].b, Relu, KeepProb(kps, n), LayerDraws(kps, U, n), sigma);
      assert HiddenForward(X, params, dims, kps, U, sigma, n).1 == cs + [c];
    }
  }

  /** Hidden layer i + 1 is fed the output of the first i layers, records a
      usable cache with its own parameters, and outputs a non-negative
      matrix: the output of the first i + 1 layers. */
  lemma HiddenForwardLayer(X: Matrix, params: seq<LayerParams>, dims: seq<nat>, kps: KeepProbs,
                           U: seq<Matrix>, sigma: real -> real, i: nat)
    requires ForwardReady(X, params, dims, kps, U) && ValidKeepProbs(kps, |params|) && Cols(X) > 0
    requires i < |params| - 1
    ensures var c := HiddenForward(X, params, dims, kps, U, sigma, i + 1).1[i];
            && LayerRecord(c, params[i], dims[i + 1], dims[i], Cols(X), KeepProb(kps, i + 1))
            && !c.Empty?
            && c.APrev == HiddenForward(X, params, dims, kps, U, sigma, i).0
            && c.A == HiddenForward(X, params, dims, kps, U, sigma, i + 1).0
            && NonNegative(c.A)
  {
    var (A, cs) := HiddenForward(X, params, dims, kps, U, sigma, i);
    LayerApplies(A, params, dims, i, Cols(X));
    HiddenLayerRecord(A, params[i], KeepProb(kps, i + 1), LayerDraws(kps, U, i + 1), sigma, dims[i + 1], dims[i], Cols(X));
  }

  /** The caches the backward pass needs: one per layer, each matching its
      layer's keep probability and the layer widths, over m > 0 examples. */
  predicate CachesReady(caches: seq<LayerCache>, dims: seq<nat>, m: nat, kps: KeepProbs) {
    && |caches| > 0 && |dims| == |caches| + 1
    && KeepProbsCover(kps, |caches|)
    && forall i :: 0 <= i < |caches| ==>
         CacheMatches(caches[i], LayerKeepProb(kps, i + 1, |caches|)) && CacheFits(caches[i], dims[i + 1], dims[i], m)
  }

  /** Cache i of the whole pass, layer by layer: a hidden layer's cache is
      the one HiddenForwardLayer describes; the output layer's is the
      5-tuple one, fed by the last hidden output, and holds AL. */
  lemma ModelForwardLayer(X: Matrix, params: seq<LayerParams>, dims: seq<nat>, kps: KeepProbs, U: seq<Matrix>,
                          sigma: real -> real, i: nat)
    requires ForwardReady(X, params, dims, kps, U) && ValidKeepProbs(kps, |params|) && Cols(X) > 0
    requires i < |params|
    ensures var (AL, cs) := ModelForward(X, params, dims, kps, U, sigma);
            && LayerRecord(cs[i], params[i], dims[i + 1], dims[i], Cols(X), LayerKeepProb(kps, i + 1, |params|))
            && !cs[i].Empty?
            && cs[i].APrev == HiddenForward(X, params, dims, kps, U, sigma, i).0
            && (i < |params| - 1 ==> cs[i].A == HiddenForward(X, params, dims, kps, U, sigma, i + 1).0 && NonNegative(cs[i].A))
            && (i == |params| - 1 ==> cs[i].Plain? && AL == cs[i].A)
  {
    hide SingleLayerForward, LinearStepForward, ActivationForward;
    var L := |params|;
    var (A, cs) := HiddenForward(X, params, dims, kps, U, sigma, L - 1);
    LayerApplies(A, params, dims, L - 1, Cols(X));
    var (AL, c) := SingleLayerForward(A, params[L - 1].W, params[L - 1].b, Sigmoid, 1.0, [], sigma);
    assert ModelForward(X, params, dims, kps, U, sigma) == (AL, cs + [c]);
    if i < L - 1 {
      assert (cs + [c])[i] == cs[i];
      HiddenForwardPrefix(X, params, dims, kps, U, sigma, L - 1, i);
      HiddenForwardLayer(X, params, dims, kps, U, sigma, i);
    } else {
      assert (cs + [c])[i] == c;
    }
  }

  /** With valid keep probabilities and at least one example, the forward
      pass leaves caches the backward pass can use, the output layer's
      being the 5-tuple one that holds AL. */
  lemma ModelForwardCaches(X: Matrix, params: seq<LayerParams>, dims: seq<nat>, kps: KeepProbs, U: seq<Matrix>,
                           sigma: real -> real)
    requires ForwardReady(X, params, dims, kps, U) && ValidKeepProbs(kps, |params|) && Cols(X) > 0
    ensures var (AL, cs) := ModelForward(X, params, dims, kps, U, sigma);
            && CachesReady(cs, dims, Cols(X), kps)
            && cs[|params| - 1].Plain? && AL == cs[|params| - 1].A
  {
    var L := |params|;
    var (AL, cs) := ModelForward(X, params, dims, kps, U, sigma);
    forall i | 0 <= i < L
      ensures CacheMatches(cs[i], LayerKeepProb(kps, i + 1, L)) && CacheFits(cs[i], dims[i + 1], dims[i], Cols(X))
    {
      ModelForwardLayer(X, params, dims, kps, U, sigma, i);
    }
    ModelForwardLayer(X, params, dims, kps, U, sigma, L - 1);
  }

  /** Cache i records layer i + 1's parameters and its input, the output of
      the first i layers (X for the first); the output of every hidden
      layer is non-negative. */
  lemma ModelForwardRecords(X: Matrix, params: seq<LayerParams>, dims: seq<nat>, kps: KeepProbs, U: seq<Matrix>,
                            sigma: real -> real)
    requires ForwardReady(X, params, dims, kps, U) && ValidKeepProbs(kps, |params|) && Cols(X) > 0
    ensures var cs := ModelForward(X, params, dims, kps, U, sigma).1;
            && (forall i :: 0 <= i < |params| ==>
                  && !cs[i].Empty? && cs[i].W == params[i].W && cs[i].b == params[i].b
                  && cs[i].APrev == HiddenForward(X, params, dims, kps, U, sigma, i).0)
            && (forall i :: 0 <= i < |params| - 1 ==>
                  && !cs[i].Empty? && cs[i].A == HiddenForward(X, params, dims, kps, U, sigma, i + 1).0
                  && NonNegative(cs[i].A))
            && !cs[0].Empty? && cs[0].APrev == X
  {
    hide ModelForward, SingleLayerForward;
    var L := |params|;
    var cs := ModelForward(X, params, dims, kps, U, sigma).1;
    forall i | 0 <= i < L
      ensures !cs[i].Empty? && cs[i].W == params[i].W && cs[i].b == params[i].b
      ensures cs[i].APrev == HiddenForward(X, params, dims, kps, U, sigma, i).0
      ensures i < L - 1 ==> cs[i].A == HiddenForward(X, params, dims, kps, U, sigma, i + 1).0 && NonNegative(cs[i].A)
    {
      ModelForwardLayer(X, params, dims, kps, U, sigma, i);
    }
    ModelForwardLayer(X, params, dims, kps, U, sigma, 0);
  }

  /** dAL = -Y / AL + (1 - Y) / (1 - AL), entrywise. */
  function BackwardSeed(AL: Matrix, Y: Matrix): (dAL: Matrix)
    requires SameShape(Y, AL) && Unsaturated(AL)
    ensures SameShape(dAL, AL)
  {
    seq(|AL|, i requires 0 <= i < |AL| =>
      seq(|AL[i]|, j requires 0 <= j < |AL[i]| => -(Y[i][j] / AL[i][j]) + (1.0 - Y[i][j]) / (1.0 - AL[i][j])))
  }

  /** For a label 1 the seed is -1/a, for a label 0 it is 1/(1 - a): the
      derivative of -log of the predicted probability of the label. */
  lemma BackwardSeedOfBinaryLabels(AL: Matrix, Y: Matrix, i: nat, j: nat)
    requires SameShape(Y, AL) && Unsaturated(AL) && i < |AL| && j < |AL[i]|
    requires Y[i][j] == 0.0 || Y[i][j] == 1.0
    ensures BackwardSeed(AL, Y)[i][j] == if Y[i][j] == 1.0 then -1.0 / AL[i][j] else 1.0 / (1.0 - AL[i][j])
  {
  }

  /** Each layer's gradients have that layer's shapes. */
  predicate GradientsFit(gs: seq<LayerGradient>, dims: seq<nat>, m: nat) {
    && |dims| > |gs|
    && forall i :: 0 <= i < |gs| ==>
         IsShape(gs[i].dW, dims[i + 1], dims[i]) && IsShape(gs[i].db, dims[i + 1], 1) && IsShape(gs[i].dAPrev, dims[i], m)
  }

  lemma GradientsFitAppend(gs: seq<LayerGradient>, g: LayerGradient, dims: seq<nat>, m: nat)
    requires GradientsFit(gs, dims, m) && |dims| > |gs| + 1
    requires IsShape(g.dW, dims[|gs| + 1], dims[|gs|]) && IsShape(g.db, dims[|gs| + 1], 1) && IsShape(g.dAPrev, dims[|gs|], m)
    ensures GradientsFit(gs + [g], dims, m)
  {
    var all := gs + [g];
    forall i | 0 <= i < |all|
      ensures IsShape(all[i].dW, dims[i + 1], dims[i]) && IsShape(all[i].db, dims[i + 1], 1) && IsShape(all[i].dAPrev, dims[i], m)
    {
      if i < |gs| {
        assert all[i] == gs[i];
      }
    }
  }

  /** What the backward pass may rely on about cache i. */
  lemma CacheAt(caches: seq<LayerCache>, dims: seq<nat>, m: nat, kps: KeepProbs, i: nat)
    requires CachesReady(caches, dims, m, kps) && i < |caches|
    ensures CacheFits(caches[i], dims[i + 1], dims[i], m)
    ensures |caches[i].W| == dims[i + 1] && |caches[i].APrev| == dims[i] && Cols(caches[i].APrev) == m
    ensures i < |caches| - 1 ==> CacheMatches(caches[i], KeepProb(kps, i + 1))
    ensures i == |caches| - 1 ==> CacheMatches(caches[i], 1.0)
  {
  }

  /** The gradients of the relu layers n, n-1, ..., 1, given the gradient dA
      of layer n's output. */
  function BackwardFrom(dA: Matrix, caches: seq<LayerCache>, dims: seq<nat>, m: nat, kps: KeepProbs, lambd: real,
                        sigma: real -> real, n: nat): (gs: seq<LayerGradient>)
    requires CachesReady(caches, dims, m, kps) && lambd >= 0.0
    requires n < |caches| && IsShape(dA, dims[n], m)
    ensures |gs| == n && GradientsFit(gs, dims, m)
    decreases n
  {
    if n == 0 then []
    else
      CacheAt(caches, dims, m, kps, n - 1);
      var g := LayerBackward(dA, caches[n - 1], Relu, lambd, KeepProb(kps, n), sigma);
      var prefix := BackwardFrom(g.dAPrev, caches, dims, m, kps, lambd, sigma, n - 1);
      GradientsFitAppend(prefix, g, dims, m);
      prefix + [g]
  }

  /** The gradients of all L layers, starting from the seed dAL at the
      sigmoid output layer, which is run without dropout. */
  function ModelBackward(AL: Matrix, Y: Matrix, caches: seq<LayerCache>, dims: seq<nat>, m: nat, kps: KeepProbs,
                         lambd: real, sigma: real -> real): (gs: seq<LayerGradient>)
    requires CachesReady(caches, dims, m, kps) && lambd >= 0.0
    requires IsShape(AL, dims[|caches|], m) && SameShape(Y, AL) && Unsaturated(AL)
    ensures |gs| == |caches| && GradientsFit(gs, dims, m)
  {
    var L := |caches|;
    CacheAt(caches, dims, m, kps, L - 1);
    var g := LayerBackward(BackwardSeed(AL, Y), caches[L - 1], Sigmoid, lambd, 1.0, sigma);
    var prefix := BackwardFrom(g.dAPrev, caches, dims, m, kps, lambd, sigma, L - 1);
    GradientsFitAppend(prefix, g, dims, m);
    prefix + [g]
  }

  lemma BackwardFromStep(dA: Matrix, caches: seq<LayerCache>, dims: seq<nat>, m: nat, kps: KeepProbs,
                          lambd: real, sigma: real -> real, n: nat)
    requires CachesReady(caches, dims, m, kps) && lambd >= 0.0
    requires 0 < n < |caches| && IsShape(dA, dims[n], m)
    ensures CacheFits(caches[n - 1], dims[n], dims[n - 1], m) && CacheMatches(caches[n - 1], KeepProb(kps, n))
    ensures var g := LayerBackward(dA, caches[n - 1], Relu, lambd, KeepProb(kps, n), sigma);
            && IsShape(g.dAPrev, dims[n - 1], m)
            && BackwardFrom(dA, caches, dims, m, kps, lambd, sigma, n)
               == BackwardFrom(g.dAPrev, caches, dims, m, kps, lambd, sigma, n - 1) + [g]
  {
    hide LayerBackward, BackwardSeed;
    CacheAt(caches, dims, m, kps, n - 1);
  }

  lemma ModelBackwardStep(AL: Matrix, Y: Matrix, caches: seq<LayerCache>, dims: seq<nat>, m: nat, kps: KeepProbs,
                          lambd: real, sigma: real -> real)
    requires CachesReady(caches, dims, m, kps) && lambd >= 0.0
    requires IsShape(AL, dims[|caches|], m) && SameShape(Y, AL) && Unsaturated(AL)
    ensures CacheFits(caches[|caches| - 1], dims[|caches|], dims[|caches| - 1], m) && CacheMatches(caches[|caches| - 1], 1.0)
    ensures var g := LayerBackward(BackwardSeed(AL, Y), caches[|caches| - 1], Sigmoid, lambd, 1.0, sigma);
            && IsShape(g.dAPrev, dims[|caches| - 1], m)
            && ModelBackward(AL, Y, caches, dims, m, kps, lambd, sigma)
               == BackwardFrom(g.dAPrev, caches, dims, m, kps, lambd, sigma, |caches| - 1) + [g]
  {
    hide LayerBackward, BackwardSeed;
    CacheAt(caches, dims, m, kps, |caches| - 1);
  }

  /** Gradient i of the relu layers n..1 comes from layer i + 1's cache and
      the gradient of that layer's output: dA itself for the top layer n,
      and dA_prev of gradient i + 1 below it. */
  lemma {:induction false} BackwardFromAt(dA: Matrix, caches: seq<LayerCache>, dims: seq<nat>, m: nat, kps: KeepProbs,
                                          lambd: real, sigma: real -> real, n: nat, i: nat)
    requires CachesReady(caches, dims, m, kps) && lambd >= 0.0
    requires n < |caches| && IsShape(dA, dims[n], m) && i < n
    ensures var gs := BackwardFrom(dA, caches, dims, m, kps, lambd, sigma, n);
            gs[i] == LayerBackward(if i == n - 1 then dA else gs[i + 1].dAPrev, caches[i], Relu, lambd, KeepProb(kps, i + 1), sigma)
    decreases n
  {
    hide LayerBackward, BackwardFrom;
    BackwardFromStep(dA, caches, dims, m, kps, lambd, sigma, n);
    var g := LayerBackward(dA, caches[n - 1], Relu, lambd, KeepProb(kps, n), sigma);
    var prefix := BackwardFrom(g.dAPrev, caches, dims, m, kps, lambd, sigma, n - 1);
    var gs := BackwardFrom(dA, caches, dims, m, kps, lambd, sigma, n);
    if i < n - 1 {
      BackwardFromAt(g.dAPrev, caches, dims, m, kps, lambd, sigma, n - 1, i);
      assert gs[i] == prefix[i];
      assert gs[i + 1] == if i + 1 == n - 1 then g else prefix[i + 1];
    }
  }

  /** The output layer's gradient comes from the seed dAL through the
      sigmoid, without dropout. */
  lemma ModelBackwardOutput(AL: Matrix, Y: Matrix, caches: seq<LayerCache>, dims: seq<nat>, m: nat, kps: KeepProbs,
                            lambd: real, sigma: real -> real)
    requires CachesReady(caches, dims, m, kps) && lambd >= 0.0
    requires IsShape(AL, dims[|caches|], m) && SameShape(Y, AL) && Unsaturated(AL)
    ensures CacheFits(caches[|caches| - 1], dims[|caches|], dims[|caches| - 1], m) && CacheMatches(caches[|caches| - 1], 1.0)
    ensures LayerBackward(BackwardSeed(AL, Y), caches[|caches| - 1], Sigmoid, lambd, 1.0, sigma)
            == ModelBackward(AL, Y, caches, dims, m, kps, lambd, sigma)[|caches| - 1]
  {
    hide LayerBackward, BackwardSeed, BackwardFrom;
    CacheAt(caches, dims, m, kps, |caches| - 1);
  }

  /** Each hidden layer's gradient comes from dA_prev of the layer above,
      through relu with that layer's keep probability. */
  lemma ModelBackwardHidden(AL: Matrix, Y: Matrix, caches: seq<LayerCache>, dims: seq<nat>, m: nat, kps: KeepProbs,
                            lambd: real, sigma: real -> real, i: nat)
    requires CachesReady(caches, dims, m, kps) && lambd >= 0.0
    requires IsShape(AL, dims[|caches|], m) && SameShape(Y, AL) && Unsaturated(AL)
    requires i < |caches| - 1
    ensures CacheFits(caches[i], dims[i + 1], dims[i], m) && CacheMatches(caches[i], KeepProb(kps, i + 1))
    ensures var gs := ModelBackward(AL, Y, caches, dims, m, kps, lambd, sigma);
            gs[i] == LayerBackward(gs[i + 1].dAPrev, caches[i], Relu, lambd, KeepProb(kps, i + 1), sigma)
  {
    hide LayerBackward, BackwardSeed, BackwardFrom, ModelBackward;
    var L := |caches|;
    CacheAt(caches, dims, m, kps, i);
    ModelBackwardStep(AL, Y, caches, dims, m, kps, lambd, sigma);
    var g := LayerBackward(BackwardSeed(AL, Y), caches[L - 1], Sigmoid, lambd, 1.0, sigma);
    var prefix := BackwardFrom(g.dAPrev, caches, dims, m, kps, lambd, sigma, L - 1);
    var gs := ModelBackward(AL, Y, caches, dims, m, kps, lambd, sigma);
    BackwardFromAt(g.dAPrev, caches, dims, m, kps, lambd, sigma, L - 1, i);
    assert gs[i] == prefix[i];
    assert gs[i + 1] == if i + 1 == L - 1 then g else prefix[i + 1];
  }

  /** The gradients have exactly the shapes of parameters that fit the same
      widths, so they can be fed to the update. */
  lemma ModelBackwardMatchesParameters(AL: Matrix, Y: Matrix, caches: seq<LayerCache>, dims: seq<nat>, m: nat,
                                       kps: KeepProbs, lambd: real, sigma: real -> real, params: seq<LayerParams>)
    requires CachesReady(caches, dims, m, kps) && lambd >= 0.0
    requires IsShape(AL, dims[|caches|], m) && SameShape(Y, AL) && Unsaturated(AL)
    requires Fits(params, dims)
    ensures GradientsMatch(params, ModelBackward(AL, Y, caches, dims, m, kps, lambd, sigma))
  {
    var gs := ModelBackward(AL, Y, caches, dims, m, kps, lambd, sigma);
    forall i | 0 <= i < |params|
      ensures SameShape(gs[i].dW, params[i].W) && SameShape(gs[i].db, params[i].b)
    {
      assert IsShape(gs[i].dW, dims[i + 1], dims[i]) && IsShape(params[i].W, dims[i + 1], dims[i]);
    }
  }

  /** L_layer_model_backward: the seed dAL, the sigmoid output layer without
      dropout, then layers L-1 down to 1 with relu and their own keep
      probabilities; lambd is passed to every layer. */
  method LLayerModelBackward(AL: Matrix, Y: Matrix, caches: seq<LayerCache>, dims: seq<nat>, m: nat, kps: KeepProbs,
                             lambd: real, sigma: real -> real) returns (grads: seq<LayerGradient>)
    requires CachesReady(caches, dims, m, kps) && lambd >= 0.0
    requires IsShape(AL, dims[|caches|], m) && SameShape(Y, AL) && Unsaturated(AL)
    ensures grads == ModelBackward(AL, Y, caches, dims, m, kps, lambd, sigma)
    ensures |grads| == |caches| && GradientsFit(grads, dims, m)
  {
    hide LayerBackward, BackwardSeed, BackwardFrom, ModelBackward;
    var L := |caches|;
    var dAL := BackwardSeed(AL, Y);
    ModelBackwardStep(AL, Y, caches, dims, m, kps, lambd, sigma);
    var dAPrev, dW, db := SingleLayerBackward(dAL, caches[L - 1], Sigmoid, lambd, 1.0, sigma);
    grads := [LayerGradient(dAPrev, dW, db)];
    var l := L - 1;
    while l >= 1
      invariant 0 <= l <= L - 1
      invariant IsShape(dAPrev, dims[l], m)
      invariant BackwardFrom(dAPrev, caches, dims, m, kps, lambd, sigma, l) + grads
                == ModelBackward(AL, Y, caches, dims, m, kps, lambd, sigma)
    {
      var dA := dAPrev;
      BackwardFromStep(dA, caches, dims, m, kps, lambd, sigma, l);
      dAPrev, dW, db := SingleLayerBackward(dA, caches[l - 1], Relu, lambd, KeepProb(kps, l), sigma);
      var g := LayerGradient(dAPrev, dW, db);
      ghost var earlier := BackwardFrom(dAPrev, caches, dims, m, kps, lambd, sigma, l - 1);
      assert (earlier + [g]) + grads == earlier + ([g] + grads);
      grads := [g] + grads;
      l := l - 1;
    }
  }
}
