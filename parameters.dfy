/** The parameter set of the network: per layer a weight matrix and a bias
    column, how the initialisers build it from random draws, and the
    gradient-descent update. Layer l (counted from 1, as in the source's
    "W1", "b1", ... keys) is stored at index l - 1. */
module Parameters {
  import opened Matrices
  import opened Layers

  datatype LayerParams = LayerParams(W: Matrix, b: Matrix)

  /** The parameters fit the layer widths dims (dims[0] is the input
      width): W_l is dims[l] x dims[l-1] and b_l is dims[l] x 1. */
  predicate Fits(params: seq<LayerParams>, dims: seq<nat>) {
    && |dims| == |params| + 1
    && forall i :: 0 <= i < |params| ==>
         IsShape(params[i].W, dims[i + 1], dims[i]) && IsShape(params[i].b, dims[i + 1], 1)
  }

  /** Every bias entry is zero. */
  predicate ZeroBiases(params: seq<LayerParams>) {
    forall i :: 0 <= i < |params| ==>
      forall r, c :: 0 <= r < |params[i].b| && 0 <= c < |params[i].b[r]| ==> params[i].b[r][c] == 0.0
  }

  /** The two weight-initialisation schemes. */
  datatype Scheme = He | Xavier

  /** `root` is the square root on the non-negative numbers. */
  ghost predicate IsSquareRoot(root: real -> real) {
    forall x :: x >= 0.0 ==> root(x) >= 0.0 && root(x) * root(x) == x
  }

  /** The factor a standard-normal draw is multiplied by, for a layer fed
      by nPrev units: sqrt(2 / nPrev) for He and 1 / sqrt(nPrev) for
      Xavier, the latter written sqrt(1 / nPrev) because the square root
      `root` is an abstract parameter. He divides by nPrev and so needs
      nPrev > 0; a Xavier layer with nPrev = 0 has no weight entries, so its
      factor is immaterial. For a genuine square root the factor is the
      standard deviation the scheme prescribes: its square is the weight
      variance 2 / nPrev (He) or 1 / nPrev (Xavier). */
  function InitScale(scheme: Scheme, nPrev: nat, root: real -> real): (r: real)
    requires scheme.He? ==> nPrev > 0
    ensures IsSquareRoot(root) ==> r >= 0.0
    ensures IsSquareRoot(root) && nPrev > 0 ==> r * r == (if scheme.He? then 2.0 else 1.0) / nPrev as real
  {
    match scheme
    case He => root(2.0 / nPrev as real)
    case Xavier => if nPrev == 0 then 0.0 else root(1.0 / nPrev as real)
  }

  /** G[l-1] holds the standard-normal draws for W_l, of W_l's shape. */
  predicate DrawsFit(G: seq<Matrix>, dims: seq<nat>) {
    && |G| >= |dims| - 1
    && forall i :: 0 <= i < |dims| - 1 ==> IsShape(G[i], dims[i + 1], dims[i])
  }

  /** He divides by every layer width except the last. */
  predicate SchemeDefined(scheme: Scheme, dims: seq<nat>) {
    scheme.He? ==> forall i :: 0 <= i < |dims| - 1 ==> dims[i] > 0
  }

  /** The parameter set initialize_parameters_deep_* build: it fits the
      widths and every bias is zero. */
  function InitialParameters(scheme: Scheme, dims: seq<nat>, G: seq<Matrix>, root: real -> real): (params: seq<LayerParams>)
    requires DrawsFit(G, dims) && SchemeDefined(scheme, dims)
    ensures |dims| > 0 ==> Fits(params, dims)
    ensures ZeroBiases(params)
  {
    seq(if |dims| == 0 then 0 else |dims| - 1, i requires 0 <= i < |dims| - 1 =>
      LayerParams(Scale(InitScale(scheme, dims[i], root), G[i]), Zeros(dims[i + 1], 1)))
  }

  /** initialize_parameters_deep_he and initialize_parameters_deep_xavier:
      for every l in 1..len(dims)-1, W_l is the scaled draw of shape
      (dims[l], dims[l-1]) and b_l is a zero column of dims[l] entries. */
  method InitializeParametersDeep(scheme: Scheme, dims: seq<nat>, G: seq<Matrix>, root: real -> real)
    returns (params: seq<LayerParams>)
    requires DrawsFit(G, dims) && SchemeDefined(scheme, dims)
    ensures params == InitialParameters(scheme, dims, G, root)
    ensures |params| == if |dims| == 0 then 0 else |dims| - 1
    ensures |dims| > 0 ==> Fits(params, dims)
    ensures ZeroBiases(params)
    ensures forall i :: 0 <= i < |params| ==> params[i].W == Scale(InitScale(scheme, dims[i], root), G[i])
  {
    params := [];
    var L := |dims|;
    var l := 1;
    while l < L
      invariant |params| == if l <= L then l - 1 else if L == 0 then 0 else L - 1
      invariant 1 <= l && (L > 0 ==> l <= L)
      invariant params == InitialParameters(scheme, dims, G, root)[..|params|]
    {
      var W := Scale(InitScale(scheme, dims[l - 1], root), G[l - 1]);
      var b := Zeros(dims[l], 1);
      params := params + [LayerParams(W, b)];
      l := l + 1;
    }
    assert params == InitialParameters(scheme, dims, G, root);
  }

  /** initialize_parameters_shallow: two layers, draws scaled by 0.01,
      zero biases. */
  function InitializeParametersShallow(nx: nat, nh: nat, ny: nat, G1: Matrix, G2: Matrix): (params: seq<LayerParams>)
    requires IsShape(G1, nh, nx) && IsShape(G2, ny, nh)
    ensures Fits(params, [nx, nh, ny])
    ensures ZeroBiases(params)
    ensures params[0].W == Scale(0.01, G1) && params[1].W == Scale(0.01, G2)
  {
    [LayerParams(Scale(0.01, G1), Zeros(nh, 1)), LayerParams(Scale(0.01, G2), Zeros(ny, 1))]
  }

  /** The gradients carry one (dW, db) per layer, of the parameters' shapes. */
  predicate GradientsMatch(params: seq<LayerParams>, grads: seq<LayerGradient>) {
    && |grads| == |params|
    && forall i :: 0 <= i < |params| ==>
         SameShape(grads[i].dW, params[i].W) && SameShape(grads[i].db, params[i].b)
  }

  /** One gradient-descent step on every layer; every layer keeps its
      shapes, and the gradients still match the result. */
  function UpdatedParameters(params: seq<LayerParams>, grads: seq<LayerGradient>, lr: real): (r: seq<LayerParams>)
    requires GradientsMatch(params, grads)
    ensures |r| == |params|
    ensures forall i :: 0 <= i < |params| ==> SameShape(r[i].W, params[i].W) && SameShape(r[i].b, params[i].b)
    ensures GradientsMatch(r, grads)
  {
    seq(|params|, i requires 0 <= i < |params| =>
      LayerParams(Sub(params[i].W, Scale(lr, grads[i].dW)), Sub(params[i].b, Scale(lr, grads[i].db))))
  }

  /** update_parameters: the (deep-)copied parameters get, for l = 1..L,
      W_l - lr * dW_l and then b_l - lr * db_l. The input sequence is a
      value, so the caller's parameters are never changed. */
  method UpdateParameters(params: seq<LayerParams>, grads: seq<LayerGradient>, lr: real)
    returns (parameters: seq<LayerParams>)
    requires GradientsMatch(params, grads)
    ensures parameters == UpdatedParameters(params, grads, lr)
    ensures |parameters| == |params|
    ensures forall i :: 0 <= i < |params| ==>
      && SameShape(parameters[i].W, params[i].W) && SameShape(parameters[i].b, params[i].b)
      && (forall r, c :: 0 <= r < |params[i].W| && 0 <= c < |params[i].W[r]| ==>
            parameters[i].W[r][c] == params[i].W[r][c] - lr * grads[i].dW[r][c])
      && (forall r, c :: 0 <= r < |params[i].b| && 0 <= c < |params[i].b[r]| ==>
            parameters[i].b[r][c] == params[i].b[r][c] - lr * grads[i].db[r][c])
  {
    parameters := params;
    var L := |parameters|;
    var l := 1;
    while l <= L
      invariant 1 <= l <= L + 1 && |parameters| == L
      invariant parameters[..l - 1] == UpdatedParameters(params, grads, lr)[..l - 1]
      invariant parameters[l - 1..] == params[l - 1..]
    {
      parameters := parameters[l - 1 := parameters[l - 1].(W := Sub(parameters[l - 1].W, Scale(lr, grads[l - 1].dW)))];
      parameters := parameters[l - 1 := parameters[l - 1].(b := Sub(parameters[l - 1].b, Scale(lr, grads[l - 1].db)))];
      assert parameters[l - 1] == UpdatedParameters(params, grads, lr)[l - 1];
      l := l + 1;
    }
    assert parameters[..L] == parameters;
  }

  /** The update keeps every layer's shapes, so the updated parameters fit
      the same layer widths. */
  lemma {:induction false} UpdatePreservesFit(params: seq<LayerParams>, grads: seq<LayerGradient>, lr: real, dims: seq<nat>)
    requires GradientsMatch(params, grads) && Fits(params, dims)
    ensures Fits(UpdatedParameters(params, grads, lr), dims)
  {
    var p := UpdatedParameters(params, grads, lr);
    forall i | 0 <= i < |params|
      ensures IsShape(p[i].W, dims[i + 1], dims[i]) && IsShape(p[i].b, dims[i + 1], 1)
    {
    }
  }

  /** With a zero learning rate, or an all-zero gradient, the update leaves
      every parameter as it was. */
  lemma {:induction false} UpdateWithoutStep(params: seq<LayerParams>, grads: seq<LayerGradient>, lr: real)
    requires GradientsMatch(params, grads)
    requires lr == 0.0 || forall i :: 0 <= i < |grads| ==>
               && (forall r, c :: 0 <= r < |grads[i].dW| && 0 <= c < |grads[i].dW[r]| ==> grads[i].dW[r][c] == 0.0)
               && (forall r, c :: 0 <= r < |grads[i].db| && 0 <= c < |grads[i].db[r]| ==> grads[i].db[r][c] == 0.0)
    ensures UpdatedParameters(params, grads, lr) == params
  {
    var p := UpdatedParameters(params, grads, lr);
    forall i | 0 <= i < |params|
      ensures p[i] == params[i]
    {
      forall r | 0 <= r < |params[i].W|
        ensures p[i].W[r] == params[i].W[r]
      {
        forall c | 0 <= c < |params[i].W[r]|
          ensures p[i].W[r][c] == params[i].W[r][c]
        {
        }
      }
      forall r | 0 <= r < |params[i].b|
        ensures p[i].b[r] == params[i].b[r]
      {
        forall c | 0 <= c < |params[i].b[r]|
          ensures p[i].b[r][c] == params[i].b[r][c]
        {
        }
      }
    }
  }
}
