/** The activation functions of a layer (relu and sigmoid), their backward
    steps, and the dispatch on the activation name. The logistic function
    itself is a transcendental floating-point function; it is passed in as
    the scalar function `sigma` and nothing is assumed about it. */
module Activations {
  import opened Matrices

  /** The activation names the layer code recognises; any other string
      is `Unrecognized`. */
  datatype Activation = Sigmoid | Relu | Unrecognized

  function Max(a: real, b: real): real {
    if a >= b then a else b
  }

  /** relu: np.maximum(0, Z) */
  function ReluForward(Z: Matrix): (A: Matrix)
    ensures SameShape(A, Z)
    ensures forall i, j :: 0 <= i < |Z| && 0 <= j < |Z[i]| ==>
      A[i][j] >= 0.0 && A[i][j] >= Z[i][j] && (A[i][j] == 0.0 || A[i][j] == Z[i][j])
  {
    seq(|Z|, i requires 0 <= i < |Z| =>
      seq(|Z[i]|, j requires 0 <= j < |Z[i]| => Max(0.0, Z[i][j])))
  }

  /** sigmoid: the logistic function applied to every entry. */
  function SigmoidForward(Z: Matrix, sigma: real -> real): (A: Matrix)
    ensures SameShape(A, Z)
  {
    seq(|Z|, i requires 0 <= i < |Z| =>
      seq(|Z[i]|, j requires 0 <= j < |Z[i]| => sigma(Z[i][j])))
  }

  /** activation_step_forward: the output starts as a zero matrix of Z's
      shape and is replaced only for a recognised activation name. */
  function ActivationForward(Z: Matrix, act: Activation, sigma: real -> real): (A: Matrix)
    requires IsShape(Z, |Z|, Cols(Z))
    ensures IsShape(A, |Z|, Cols(Z))
    ensures act.Unrecognized? ==> A == Zeros(|Z|, Cols(Z))
    ensures act.Relu? ==> forall i, j :: 0 <= i < |Z| && 0 <= j < Cols(Z) ==> A[i][j] >= 0.0
  {
    match act
    case Sigmoid => SigmoidForward(Z, sigma)
    case Relu => ReluForward(Z)
    case Unrecognized => Zeros(|Z|, Cols(Z))
  }

  /** The slope the backward step gives relu at z: 1 for z > 0 and 0 for
      z <= 0, the kink at 0 included. */
  function ReluSlope(z: real): real {
    if z > 0.0 then 1.0 else 0.0
  }

  /** That slope is a sub-gradient of relu at every z, the kink included:
      the line through (z, relu(z)) with that slope never lies above relu. */
  lemma ReluSlopeIsSubgradient(Z: Matrix, i: nat, j: nat, z': real)
    requires i < |Z| && j < |Z[i]|
    ensures Max(0.0, z') >= ReluForward(Z)[i][j] + ReluSlope(Z[i][j]) * (z' - Z[i][j])
  {
  }

  /** The relu backward step: the incoming gradient times relu's slope at
      Z, entry by entry. */
  function ReluGrad(dA: Matrix, Z: Matrix): (dZ: Matrix)
    requires SameShape(dA, Z)
    ensures SameShape(dZ, Z)
    ensures forall i, j :: 0 <= i < |Z| && 0 <= j < |Z[i]| ==> dZ[i][j] == dA[i][j] * ReluSlope(Z[i][j])
  {
    seq(|Z|, i requires 0 <= i < |Z| =>
      seq(|Z[i]|, j requires 0 <= j < |Z[i]| => if Z[i][j] <= 0.0 then 0.0 else dA[i][j]))
  }

  /** relu(z) = z * relu'(z) entrywise: feeding Z back through relu's
      backward step as its own upstream gradient gives relu(Z). */
  lemma ReluGradOfItself(Z: Matrix)
    ensures ReluGrad(Z, Z) == ReluForward(Z)
  {
    forall i | 0 <= i < |Z|
      ensures ReluGrad(Z, Z)[i] == ReluForward(Z)[i]
    {
    }
  }

  /** relu_backward: dZ starts as a copy of dA and the entries where
      Z <= 0 are then set to 0. dA is a value and is not changed. */
  method ReluBackward(dA: Matrix, Z: Matrix) returns (dZ: Matrix)
    requires SameShape(dA, Z)
    ensures dZ == ReluGrad(dA, Z)
    ensures SameShape(dZ, Z)
    ensures forall i, j :: 0 <= i < |Z| && 0 <= j < |Z[i]| ==>
      dZ[i][j] == (if Z[i][j] > 0.0 then dA[i][j] else 0.0)
  {
    dZ := dA;
    var i := 0;
    while i < |Z|
      invariant 0 <= i <= |Z|
      invariant SameShape(dZ, Z)
      invariant forall r :: 0 <= r < i ==> dZ[r] == ReluGrad(dA, Z)[r]
      invariant forall r :: i <= r < |Z| ==> dZ[r] == dA[r]
    {
      var j := 0;
      while j < |Z[i]|
        invariant 0 <= j <= |Z[i]|
        invariant SameShape(dZ, Z)
        invariant forall r :: 0 <= r < i ==> dZ[r] == ReluGrad(dA, Z)[r]
        invariant forall r :: i < r < |Z| ==> dZ[r] == dA[r]
        invariant forall c :: 0 <= c < j ==> dZ[i][c] == ReluGrad(dA, Z)[i][c]
        invariant forall c :: j <= c < |Z[i]| ==> dZ[i][c] == dA[i][c]
      {
        if Z[i][j] <= 0.0 {
          dZ := dZ[i := dZ[i][j := 0.0]];
        }
        j := j + 1;
      }
      assert dZ[i] == ReluGrad(dA, Z)[i];
      i := i + 1;
    }
  }

  /** sigmoid_backward: dA * s * (1 - s) with s = sigmoid(Z), recomputed
      from Z rather than read from the cache. */
  function SigmoidGrad(dA: Matrix, Z: Matrix, sigma: real -> real): (dZ: Matrix)
    requires SameShape(dA, Z)
    ensures SameShape(dZ, Z)
  {
    seq(|Z|, i requires 0 <= i < |Z| =>
      seq(|Z[i]|, j requires 0 <= j < |Z[i]| =>
        var s := sigma(Z[i][j]); dA[i][j] * s * (1.0 - s)))
  }

  /** The product of two non-negative numbers is non-negative. */
  lemma ProductNonNegative(a: real, b: real)
    requires a >= 0.0 && b >= 0.0
    ensures a * b >= 0.0
  {
  }

  /** Where the logistic value lies in [0, 1], s (1 - s) lies in
      [0, 1/4], so the backward step keeps the sign of dA and shrinks it at
      least fourfold. */
  lemma SigmoidGradBounded(dA: Matrix, Z: Matrix, sigma: real -> real, i: nat, j: nat)
    requires SameShape(dA, Z) && i < |Z| && j < |Z[i]|
    requires 0.0 <= sigma(Z[i][j]) <= 1.0
    ensures var g, d := SigmoidGrad(dA, Z, sigma)[i][j], dA[i][j];
            (d >= 0.0 ==> 0.0 <= g <= d / 4.0) && (d <= 0.0 ==> d / 4.0 <= g <= 0.0)
  {
    var s, d := sigma(Z[i][j]), dA[i][j];
    var p := s * (1.0 - s);
    ProductNonNegative(s, 1.0 - s);
    var t := s - 0.5;
    assert t * t >= 0.0;
    assert p == 0.25 - t * t;
    assert SigmoidGrad(dA, Z, sigma)[i][j] == d * p;
    var q := 0.25 - p;
    assert d * q == d / 4.0 - d * p;
    if d >= 0.0 {
      assert d * p >= 0.0 && d * q >= 0.0;
    } else {
      var e := -d;
      assert e * p >= 0.0 && e * q >= 0.0;
      assert d * p == -(e * p) && d * q == -(e * q);
    }
  }

  /** The backward step of the named activation; a zero matrix of dA's
      shape for an unrecognised name. */
  function ActivationGrad(dA: Matrix, Z: Matrix, act: Activation, sigma: real -> real): (dZ: Matrix)
    requires IsShape(Z, |Z|, Cols(Z)) && SameShape(dA, Z)
    ensures IsShape(dZ, |Z|, Cols(Z))
  {
    match act
    case Sigmoid => SigmoidGrad(dA, Z, sigma)
    case Relu => ReluGrad(dA, Z)
    case Unrecognized => Zeros(|dA|, Cols(dA))
  }

  /** activation_step_backward */
  method ActivationStepBackward(dA: Matrix, Z: Matrix, act: Activation, sigma: real -> real)
    returns (dZ: Matrix)
    requires IsShape(Z, |Z|, Cols(Z)) && SameShape(dA, Z)
    ensures dZ == ActivationGrad(dA, Z, act, sigma)
    ensures IsShape(dZ, |Z|, Cols(Z))
    ensures act.Unrecognized? ==> dZ == Zeros(|Z|, Cols(Z))
  {
    dZ := Zeros(|dA|, Cols(dA));
    match act {
      case Sigmoid => dZ := SigmoidGrad(dA, Z, sigma);
      case Relu => dZ := ReluBackward(dA, Z);
      case Unrecognized =>
    }
  }

  /** Wherever the incoming gradient is zero, every activation's backward
      step yields zero. */
  lemma ActivationGradZero(dA: Matrix, Z: Matrix, act: Activation, sigma: real -> real, i: nat, j: nat)
    requires IsShape(Z, |Z|, Cols(Z)) && SameShape(dA, Z)
    requires i < |Z| && j < Cols(Z) && dA[i][j] == 0.0
    ensures ActivationGrad(dA, Z, act, sigma)[i][j] == 0.0
  {
  }
}
