/** Prediction and accuracy: the trained network's output thresholded into
    boolean labels, and the share of the true labels those booleans match. */
module Prediction {
  import opened Matrices
  import opened Parameters
  import opened Network

  /** A matrix of booleans, as an elementwise comparison leaves it. */
  type Mask = seq<seq<bool>>

  /** Entry by entry, whether the probability exceeds the threshold t. */
  function Threshold(P: Matrix, t: real): (p: Mask)
    ensures |p| == |P| && forall i :: 0 <= i < |P| ==> |p[i]| == |P[i]|
  {
    seq(|P|, i requires 0 <= i < |P| => seq(|P[i]|, j requires 0 <= j < |P[i]| => P[i][j] > t))
  }

  /** An entry is predicted true exactly when its probability is strictly
      above the threshold, so raising the threshold can only turn
      predictions from true to false. */
  lemma {:induction false} ThresholdMonotone(P: Matrix, t: real, t': real, i: nat, j: nat)
    requires t <= t' && i < |P| && j < |P[i]|
    ensures Threshold(P, t)[i][j] <==> P[i][j] > t
    ensures Threshold(P, t')[i][j] ==> Threshold(P, t)[i][j]
  {
  }

  /** predict: the forward pass without dropout, its output compared with
      the threshold; the predictions have the output's shape, one column
      per example. */
  function Predict(X: Matrix, params: seq<LayerParams>, dims: seq<nat>, t: real, sigma: real -> real): (p: Mask)
    requires ForwardReady(X, params, dims, Disabled, [])
    ensures |p| == dims[|params|] && forall i :: 0 <= i < |p| ==> |p[i]| == Cols(X)
  {
    Threshold(ModelForward(X, params, dims, Disabled, [], sigma).0, t)
  }

  /** A boolean prediction equals a real label when True meets 1.0 or False
      meets 0.0, as numpy compares them. */
  predicate Agrees(b: bool, v: real) {
    if b then v == 1.0 else v == 0.0
  }

  /** The number of positions of one row where prediction and label agree. */
  function RowAgreements(p: seq<bool>, y: seq<real>): (n: nat)
    requires |p| == |y|
    ensures n <= |y|
    ensures n == |y| <==> forall j :: 0 <= j < |y| ==> Agrees(p[j], y[j])
    decreases |y|
  {
    if |y| == 0 then 0
    else RowAgreements(p[..|y| - 1], y[..|y| - 1]) + (if Agrees(p[|y| - 1], y[|y| - 1]) then 1 else 0)
  }

  /** The mask has the labels' shape: r rows of m entries. */
  predicate MaskFits(p: Mask, y: Matrix, m: nat) {
    IsShape(y, |y|, m) && |p| == |y| && forall i :: 0 <= i < |p| ==> |p[i]| == m
  }

  /** Every entry of the first r rows agrees with its label. */
  predicate AllAgree(p: Mask, y: Matrix, r: nat, m: nat)
    requires MaskFits(p, y, m) && r <= |y|
  {
    forall i, j :: 0 <= i < r && 0 <= j < m ==> Agrees(p[i][j], y[i][j])
  }

  /** The number of entries in the first r rows where prediction and label
      agree: at most all r m of them, and all of them exactly when every
      entry agrees. */
  function Agreements(p: Mask, y: Matrix, m: nat, r: nat): (n: nat)
    requires MaskFits(p, y, m) && r <= |y|
    ensures n <= r * m
    ensures n == r * m <==> AllAgree(p, y, r, m)
    decreases r
  {
    if r == 0 then 0
    else
      var before := Agreements(p, y, m, r - 1);
      var last := RowAgreements(p[r - 1], y[r - 1]);
      FullSum(before, last, r - 1, m);
      before + last
  }

  /** Two counts bounded by k m and m sum to at most (k + 1) m, and reach
      it only when both are full. */
  lemma FullSum(a: nat, b: nat, k: nat, m: nat)
    requires a <= k * m && b <= m
    ensures a + b <= (k + 1) * m
    ensures a + b == (k + 1) * m <==> a == k * m && b == m
  {
    assert (k + 1) * m == k * m + m;
  }

  /** calculate_accuracy: the agreements divided by m, the labels' column
      count; with no columns the sum is empty and the accuracy 0. It lies
      between 0 and the number of label rows (1 for a row of labels), and
      reaches that number exactly when every prediction matches its
      label. */
  function CalculateAccuracy(p: Mask, y: Matrix): (accuracy: real)
    requires MaskFits(p, y, Cols(y))
    ensures Cols(y) == 0 ==> accuracy == 0.0
    ensures 0.0 <= accuracy <= |y| as real
    ensures Cols(y) > 0 ==>
              (accuracy == |y| as real <==>
                 AllAgree(p, y, |y|, Cols(y)))
  {
    var m := Cols(y);
    if m == 0 then 0.0
    else
      var n := Agreements(p, y, m, |y|);
      AccuracyScale(n, |y|, m);
      n as real / m as real
  }

  /** n / m lies in [0, r] for n <= r m, and equals r exactly when n = r m. */
  lemma AccuracyScale(n: nat, r: nat, m: nat)
    requires m > 0 && n <= r * m
    ensures 0.0 <= n as real / m as real <= r as real
    ensures n as real / m as real == r as real <==> n == r * m
  {
    assert (r * m) as real == r as real * m as real;
    assert n as real <= r as real * m as real;
  }

  /** The positions of one row where prediction and label disagree. */
  function Mismatches(p: seq<bool>, y: seq<real>): set<nat>
    requires |p| == |y|
  {
    set j: nat | j < |y| && !Agrees(p[j], y[j])
  }

  /** Every position of a row either agrees or is a mismatch. */
  lemma {:induction false} RowAgreementsAndMismatches(p: seq<bool>, y: seq<real>)
    requires |p| == |y|
    ensures RowAgreements(p, y) + |Mismatches(p, y)| == |y|
    decreases |y|
  {
    if |y| > 0 {
      var k := |y| - 1;
      RowAgreementsAndMismatches(p[..k], y[..k]);
      var before := Mismatches(p[..k], y[..k]);
      assert k !in before;
      if Agrees(p[k], y[k]) {
        assert Mismatches(p, y) == before;
      } else {
        assert Mismatches(p, y) == before + {k};
      }
    }
  }

  /** For one row of m > 0 labels of which k disagree with the predictions,
      the accuracy is (m - k) / m. */
  lemma AccuracyOfMismatches(p: Mask, y: Matrix)
    requires |y| == 1 && Cols(y) > 0 && MaskFits(p, y, Cols(y))
    ensures CalculateAccuracy(p, y) == (Cols(y) as real - |Mismatches(p[0], y[0])| as real) / Cols(y) as real
  {
    var m := Cols(y);
    assert Agreements(p, y, m, 1) == RowAgreements(p[0], y[0]);
    RowAgreementsAndMismatches(p[0], y[0]);
  }

  /** With a row of m > 0 labels, the predictions of the network score
      accuracy 1 exactly when every label is 1.0 where the output is above
      the threshold and 0.0 elsewhere, and always score between 0 and 1. */
  lemma PredictionAccuracy(X: Matrix, params: seq<LayerParams>, dims: seq<nat>, t: real, sigma: real -> real, Y: Matrix)
    requires ForwardReady(X, params, dims, Disabled, []) && dims[|params|] == 1
    requires IsShape(Y, 1, Cols(X)) && Cols(X) > 0
    ensures var p := Predict(X, params, dims, t, sigma);
            MaskFits(p, Y, Cols(Y)) && 0.0 <= CalculateAccuracy(p, Y) <= 1.0
    ensures var AL := ModelForward(X, params, dims, Disabled, [], sigma).0;
            CalculateAccuracy(Predict(X, params, dims, t, sigma), Y) == 1.0 <==>
              forall j :: 0 <= j < Cols(X) ==> Y[0][j] == if AL[0][j] > t then 1.0 else 0.0
  {
    var AL := ModelForward(X, params, dims, Disabled, [], sigma).0;
    var p := Predict(X, params, dims, t, sigma);
    assert Cols(Y) == Cols(X);
    assert forall j :: 0 <= j < Cols(X) ==> (Agrees(p[0][j], Y[0][j]) <==> Y[0][j] == if AL[0][j] > t then 1.0 else 0.0);
  }
}
