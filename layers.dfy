/** One fully-connected layer: the linear step, the activation, inverted
    dropout, the per-layer cache, and the backward pass through the same
    layer. The uniform random draws behind a dropout mask are an input. */
module Layers {
  import opened Matrices
  import opened Activations

  /** What single_layer_forward keeps for the backward pass: the 5-tuple
      (Z, A, W, b, A_prev) without dropout, the 6-tuple with the mask D when
      dropout was applied, and the empty tuple for an invalid keep_prob. A
      is the layer's output after dropout. */
  datatype LayerCache =
    | Plain(Z: Matrix, A: Matrix, W: Matrix, b: Matrix, APrev: Matrix)
    | Masked(Z: Matrix, A: Matrix, W: Matrix, b: Matrix, APrev: Matrix, D: Matrix)
    | Empty

  /** The three results of single_layer_backward. */
  datatype LayerGradient = LayerGradient(dAPrev: Matrix, dW: Matrix, db: Matrix)

  /** The operand shapes of np.dot(W, A_prev) + b: A_prev is k x m with
      k > 0, W is n x k and b is n x 1. A sequence of rows cannot hold a
      k = 0 input with m columns, so that case is excluded. */
  predicate LinearShapes(APrev: Matrix, W: Matrix, b: Matrix) {
    |APrev| > 0 && IsShape(APrev, |APrev|, Cols(APrev)) && IsShape(W, |W|, |APrev|) && IsShape(b, |W|, 1)
  }

  /** linear_step_forward: Z = np.dot(W, A_prev) + b. */
  function LinearStepForward(APrev: Matrix, W: Matrix, b: Matrix): (Z: Matrix)
    requires LinearShapes(APrev, W, b)
    ensures IsShape(Z, |W|, Cols(APrev))
  {
    AddColumn(MatMul(W, APrev), b)
  }

  /** Entry (i, j) of Z is the sum over k of W[i][k] * A_prev[k][j], plus b[i][0]. */
  lemma LinearStepForwardEntry(APrev: Matrix, W: Matrix, b: Matrix, i: nat, j: nat)
    requires LinearShapes(APrev, W, b)
    requires i < |W| && j < Cols(APrev)
    ensures LinearStepForward(APrev, W, b)[i][j] == SumOfProducts(W, APrev, i, j, |APrev|) + b[i][0]
  {
    MatMulEntry(W, APrev, i, j);
  }

  /** The dropout draw (np.random.rand(...) < keep_prob).astype(int), with
      the uniform draws U given. */
  function DropoutMask(U: Matrix, kp: real): (D: Matrix)
    ensures SameShape(D, U)
  {
    seq(|U|, i requires 0 <= i < |U| =>
      seq(|U[i]|, j requires 0 <= j < |U[i]| => if U[i][j] < kp then 1.0 else 0.0))
  }

  /** np.multiply(A, D) / keep_prob */
  function InvertedDropout(A: Matrix, D: Matrix, kp: real): (R: Matrix)
    requires SameShape(A, D) && kp != 0.0
    ensures SameShape(R, A)
  {
    seq(|A|, i requires 0 <= i < |A| =>
      seq(|A[i]|, j requires 0 <= j < |A[i]| => A[i][j] * D[i][j] / kp))
  }

  /** single_layer_forward: returns the layer output and its cache. */
  function SingleLayerForward(APrev: Matrix, W: Matrix, b: Matrix, act: Activation, kp: real,
                              U: Matrix, sigma: real -> real): (r: (Matrix, LayerCache))
    requires LinearShapes(APrev, W, b)
    requires 0.0 < kp < 1.0 ==> IsShape(U, |W|, Cols(APrev))
    ensures IsShape(r.0, |W|, Cols(APrev))
    ensures r.1.Plain? <==> kp == 1.0
    ensures r.1.Masked? <==> 0.0 < kp < 1.0
    ensures !r.1.Empty? ==>
      r.1.Z == LinearStepForward(APrev, W, b) && r.1.A == r.0 &&
      r.1.W == W && r.1.b == b && r.1.APrev == APrev
    ensures r.1.Masked? ==> IsShape(r.1.D, |W|, Cols(APrev))
  {
    var Z := LinearStepForward(APrev, W, b);
    var A := ActivationForward(Z, act, sigma);
    if kp == 1.0 then
      (A, Plain(Z, A, W, b, APrev))
    else if 0.0 < kp < 1.0 then
      var D := DropoutMask(U, kp);
      var AD := InvertedDropout(A, D, kp);
      (AD, Masked(Z, AD, W, b, APrev, D))
    else
      (A, Empty)
  }

  /** The three cases of single_layer_forward. With 0 < keep_prob < 1 the
      output is A * D / keep_prob for the 0/1 mask D drawn from U, zero
      wherever D is 0, and D is the cache's sixth field; with keep_prob = 1
      the output is the activation itself; otherwise the output is the
      activation and the cache is empty. */
  lemma SingleLayerForwardCases(APrev: Matrix, W: Matrix, b: Matrix, act: Activation, kp: real,
                                U: Matrix, sigma: real -> real)
    requires LinearShapes(APrev, W, b)
    requires 0.0 < kp < 1.0 ==> IsShape(U, |W|, Cols(APrev))
    ensures var (out, cache) := SingleLayerForward(APrev, W, b, act, kp, U, sigma);
            var A := ActivationForward(LinearStepForward(APrev, W, b), act, sigma);
            && (0.0 < kp < 1.0 ==>
                  && cache.D == DropoutMask(U, kp)
                  && forall i, j :: 0 <= i < |W| && 0 <= j < Cols(APrev) ==>
                       && (cache.D[i][j] == 1.0 <==> U[i][j] < kp)
                       && (cache.D[i][j] == 0.0 <==> U[i][j] >= kp)
                       && out[i][j] == A[i][j] * cache.D[i][j] / kp
                       && (cache.D[i][j] == 0.0 ==> out[i][j] == 0.0)
                       && (cache.D[i][j] == 1.0 ==> out[i][j] == A[i][j] / kp))
            && (kp == 1.0 ==> out == A && cache == Plain(cache.Z, A, W, b, APrev))
            && (!(0.0 < kp <= 1.0) ==> out == A && cache == Empty)
  {
    hide LinearStepForward, ActivationForward;
  }

  /** linear_step_backward, for lambd >= 0 (a negative lambd leaves dW
      unbound in the source). m is the number of columns of dZ. */
  function LinearStepBackward(dZ: Matrix, APrev: Matrix, W: Matrix, b: Matrix, lambd: real): (g: LayerGradient)
    requires lambd >= 0.0
    requires LinearShapes(APrev, W, b) && |W| > 0 && |APrev| > 0 && Cols(APrev) > 0
    requires IsShape(dZ, |W|, Cols(APrev))
    ensures IsShape(g.dAPrev, |APrev|, Cols(APrev))
    ensures IsShape(g.dW, |W|, |APrev|)
    ensures IsShape(g.db, |W|, 1)
  {
    var m := Cols(dZ) as real;
    var G := MatMul(dZ, Transpose(APrev));
    var dW := if lambd == 0.0 then Scale(1.0 / m, G) else Add(Scale(1.0 / m, G), Scale(lambd / m, W));
    var db := Scale(1.0 / m, RowSums(dZ));
    var dAPrev := MatMul(Transpose(W), dZ);
    LayerGradient(dAPrev, dW, db)
  }

  /** The weight gradient of the linear step is the one formula
      (1/m) dZ A_prev^T + (lambd/m) W for every lambd >= 0: the branch that
      skips the L2 term at lambd = 0 gives the same matrix. */
  lemma LinearStepBackwardWeightMatrix(dZ: Matrix, APrev: Matrix, W: Matrix, b: Matrix, lambd: real)
    requires lambd >= 0.0
    requires LinearShapes(APrev, W, b) && |W| > 0 && |APrev| > 0 && Cols(APrev) > 0
    requires IsShape(dZ, |W|, Cols(APrev))
    ensures var m := Cols(APrev) as real;
            var G := MatMul(dZ, Transpose(APrev));
            SameShape(Scale(1.0 / m, G), Scale(lambd / m, W)) &&
            LinearStepBackward(dZ, APrev, W, b, lambd).dW == Add(Scale(1.0 / m, G), Scale(lambd / m, W))
  {
    assert Cols(dZ) == Cols(APrev);
    var m := Cols(APrev) as real;
    var S := Scale(1.0 / m, MatMul(dZ, Transpose(APrev)));
    var R := Add(S, Scale(lambd / m, W));
    if lambd == 0.0 {
      forall i | 0 <= i < |S|
        ensures R[i] == S[i]
      {
        assert |R[i]| == |S[i]|;
        forall j | 0 <= j < |S[i]|
          ensures R[i][j] == S[i][j]
        {
          assert lambd / m * W[i][j] == 0.0;
        }
      }
      assert R == S;
    }
  }

  /** The weight gradient of the linear step, entry by entry, over the m
      columns of dZ: dW[i][k] = (1/m) sum_j dZ[i][j] A_prev[k][j] plus the
      L2 term (lambd/m) W[i][k], which vanishes for lambd = 0. */
  lemma LinearStepBackwardWeights(dZ: Matrix, APrev: Matrix, W: Matrix, b: Matrix, lambd: real,
                                  i: nat, k: nat)
    requires lambd >= 0.0
    requires LinearShapes(APrev, W, b) && |W| > 0 && |APrev| > 0 && Cols(APrev) > 0
    requires IsShape(dZ, |W|, Cols(APrev))
    requires i < |W| && k < |APrev|
    ensures LinearStepBackward(dZ, APrev, W, b, lambd).dW[i][k] ==
      1.0 / (Cols(APrev) as real) * SumOfProducts(dZ, Transpose(APrev), i, k, Cols(APrev))
      + lambd / (Cols(APrev) as real) * W[i][k]
  {
    hide LinearStepBackward, MatMul, Transpose, SumOfProducts, Scale, Add;
    var m := Cols(APrev) as real;
    var G := MatMul(dZ, Transpose(APrev));
    MatMulEntry(dZ, Transpose(APrev), i, k);
    LinearStepBackwardWeightMatrix(dZ, APrev, W, b, lambd);
    if lambd == 0.0 {
      assert lambd / m * W[i][k] == 0.0;
    }
  }

  /** The bias gradient is the row mean of dZ: db[i] = (1/m) sum_j dZ[i][j]. */
  lemma LinearStepBackwardBias(dZ: Matrix, APrev: Matrix, W: Matrix, b: Matrix, lambd: real, i: nat)
    requires lambd >= 0.0
    requires LinearShapes(APrev, W, b) && |W| > 0 && |APrev| > 0 && Cols(APrev) > 0
    requires IsShape(dZ, |W|, Cols(APrev))
    requires i < |W|
    ensures LinearStepBackward(dZ, APrev, W, b, lambd).db[i][0] == 1.0 / (Cols(APrev) as real) * Sum(dZ[i])
  {
    var g := LinearStepBackward(dZ, APrev, W, b, lambd);
    assert g.db == Scale(1.0 / (Cols(dZ) as real), RowSums(dZ));
  }

  /** The gradient passed to the previous layer is W^T dZ with no 1/m
      factor: dA_prev[k][j] = sum_i W[i][k] dZ[i][j]. */
  lemma LinearStepBackwardInput(dZ: Matrix, APrev: Matrix, W: Matrix, b: Matrix, lambd: real, k: nat, j: nat)
    requires lambd >= 0.0
    requires LinearShapes(APrev, W, b) && |W| > 0 && |APrev| > 0 && Cols(APrev) > 0
    requires IsShape(dZ, |W|, Cols(APrev))
    requires k < |APrev| && j < Cols(APrev)
    ensures LinearStepBackward(dZ, APrev, W, b, lambd).dAPrev[k][j] == SumOfProducts(Transpose(W), dZ, k, j, |W|)
  {
    var g := LinearStepBackward(dZ, APrev, W, b, lambd);
    assert g.dAPrev == MatMul(Transpose(W), dZ);
    MatMulEntry(Transpose(W), dZ, k, j);
  }

  /** A cache that a backward step can use: not empty, and with shapes
      Z, A, D: n x m; W: n x k; b: n x 1; A_prev: k x m, all positive. */
  predicate CacheFits(c: LayerCache, n: nat, k: nat, m: nat) {
    && !c.Empty? && n > 0 && k > 0 && m > 0
    && IsShape(c.Z, n, m) && IsShape(c.A, n, m)
    && IsShape(c.W, n, k) && IsShape(c.b, n, 1) && IsShape(c.APrev, k, m)
    && (c.Masked? ==> IsShape(c.D, n, m))
  }

  /** The shape of cache single_layer_backward unpacks for keep_prob kp: the
      5-tuple for kp = 1, the 6-tuple for 0 < kp < 1 (any other pairing
      fails to unpack, and any other kp leaves the cache unread). */
  predicate CacheMatches(c: LayerCache, kp: real) {
    (kp == 1.0 && c.Plain?) || (0.0 < kp < 1.0 && c.Masked?)
  }

  /** The dropout step of single_layer_backward: dA * D / keep_prob with
      the mask D read back from the cache. */
  function UpstreamGrad(dA: Matrix, c: LayerCache, kp: real): (R: Matrix)
    requires CacheMatches(c, kp) && (c.Masked? ==> SameShape(dA, c.D))
    ensures SameShape(R, dA)
  {
    if kp == 1.0 then dA else InvertedDropout(dA, c.D, kp)
  }

  /** The gradient with respect to Z of one layer. */
  function LayerDZ(dA: Matrix, c: LayerCache, act: Activation, kp: real, sigma: real -> real): (dZ: Matrix)
    requires CacheMatches(c, kp) && CacheFits(c, |c.W|, |c.APrev|, Cols(c.APrev))
    requires IsShape(dA, |c.W|, Cols(c.APrev))
    ensures IsShape(dZ, |c.W|, Cols(c.APrev))
  {
    ActivationGrad(UpstreamGrad(dA, c, kp), c.Z, act, sigma)
  }

  /** The result of single_layer_backward. */
  function LayerBackward(dA: Matrix, c: LayerCache, act: Activation, lambd: real, kp: real,
                         sigma: real -> real): (g: LayerGradient)
    requires CacheMatches(c, kp) && CacheFits(c, |c.W|, |c.APrev|, Cols(c.APrev)) && lambd >= 0.0
    requires IsShape(dA, |c.W|, Cols(c.APrev))
    ensures IsShape(g.dAPrev, |c.APrev|, Cols(c.APrev))
    ensures IsShape(g.dW, |c.W|, |c.APrev|)
    ensures IsShape(g.db, |c.W|, 1)
  {
    LinearStepBackward(LayerDZ(dA, c, act, kp, sigma), c.APrev, c.W, c.b, lambd)
  }

  /** single_layer_backward */
  method SingleLayerBackward(dA: Matrix, c: LayerCache, act: Activation, lambd: real, kp: real,
                             sigma: real -> real)
    returns (dAPrev: Matrix, dW: Matrix, db: Matrix)
    requires CacheMatches(c, kp) && CacheFits(c, |c.W|, |c.APrev|, Cols(c.APrev)) && lambd >= 0.0
    requires IsShape(dA, |c.W|, Cols(c.APrev))
    ensures LayerGradient(dAPrev, dW, db) == LayerBackward(dA, c, act, lambd, kp, sigma)
    ensures SameShape(dAPrev, c.APrev) && SameShape(dW, c.W) && SameShape(db, c.b)
  {
    hide LinearStepBackward, ActivationGrad;
    var up := dA;
    if kp != 1.0 {
      up := InvertedDropout(dA, c.D, kp);
    }
    var dZ := ActivationStepBackward(up, c.Z, act, sigma);
    var g := LinearStepBackward(dZ, c.APrev, c.W, c.b, lambd);
    dAPrev, dW, db := g.dAPrev, g.dW, g.db;
  }

  /** The backward step reuses the forward step's mask: the gradient is
      masked with the same D = (U < keep_prob) that produced the output, so
      a unit dropped in the forward pass (output 0) gets no gradient with
      respect to its pre-activation either. */
  lemma DroppedUnitGetsNoGradient(APrev: Matrix, W: Matrix, b: Matrix, act: Activation, kp: real,
                                  U: Matrix, sigma: real -> real, dA: Matrix, i: nat, j: nat)
    requires LinearShapes(APrev, W, b) && |W| > 0 && |APrev| > 0 && Cols(APrev) > 0
    requires 0.0 < kp < 1.0 && IsShape(U, |W|, Cols(APrev))
    requires IsShape(dA, |W|, Cols(APrev))
    requires i < |W| && j < Cols(APrev) && U[i][j] >= kp
    ensures var (out, cache) := SingleLayerForward(APrev, W, b, act, kp, U, sigma);
            && UpstreamGrad(dA, cache, kp) == InvertedDropout(dA, DropoutMask(U, kp), kp)
            && out[i][j] == 0.0
            && LayerDZ(dA, cache, act, kp, sigma)[i][j] == 0.0
  {
    var (out, cache) := SingleLayerForward(APrev, W, b, act, kp, U, sigma);
    assert cache.D[i][j] == 0.0;
    var up := UpstreamGrad(dA, cache, kp);
    assert up[i][j] == dA[i][j] * 0.0 / kp;
    ActivationGradZero(up, cache.Z, act, sigma, i, j);
  }
}
