/** The two parts of the training cost: the binary cross-entropy of the
    output layer against the labels, computed after the output has been
    clamped away from 0 and 1 in place, and the L2 penalty on the weights.
    The natural logarithm is passed in as the scalar function `ln`. */
module Costs {
  import opened Matrices
  import opened Parameters

  /** The value that replaces an output of exactly 0 (and whose complement
      replaces an output of exactly 1): 1e-10. */
  const Epsilon: real := 0.0000000001

  /** One entry after the two replacements: never 0 or 1 afterwards, every
      other value kept, and a probability moved strictly inside (0, 1). */
  function ClampEntry(x: real): (r: real)
    ensures r != 0.0 && r != 1.0
    ensures x != 0.0 && x != 1.0 ==> r == x
    ensures 0.0 <= x <= 1.0 ==> 0.0 < r < 1.0
  {
    if x == 0.0 then Epsilon else if x == 1.0 then 1.0 - Epsilon else x
  }

  /** The output with every 0 replaced by Epsilon and then every 1 by
      1 - Epsilon. */
  function Clamp(M: Matrix): (R: Matrix)
    ensures SameShape(R, M)
    ensures forall i, j :: 0 <= i < |M| && 0 <= j < |M[i]| ==> R[i][j] == ClampEntry(M[i][j])
  {
    seq(|M|, i requires 0 <= i < |M| =>
      seq(|M[i]|, j requires 0 <= j < |M[i]| => ClampEntry(M[i][j])))
  }

  /** No entry is exactly 0 or exactly 1, so both log(A) and log(1 - A)
      are taken away from their singularity. */
  predicate Unsaturated(M: Matrix) {
    forall i, j :: 0 <= i < |M| && 0 <= j < |M[i]| ==> M[i][j] != 0.0 && M[i][j] != 1.0
  }

  /** After the clamp no entry is 0 or 1; every other entry is untouched;
      entries that were probabilities lie strictly between 0 and 1; and a
      second clamp changes nothing. */
  lemma ClampProperties(M: Matrix)
    ensures Unsaturated(Clamp(M))
    ensures forall i, j :: 0 <= i < |M| && 0 <= j < |M[i]| && M[i][j] != 0.0 && M[i][j] != 1.0 ==>
      Clamp(M)[i][j] == M[i][j]
    ensures forall i, j :: 0 <= i < |M| && 0 <= j < |M[i]| && 0.0 <= M[i][j] <= 1.0 ==>
      0.0 < Clamp(M)[i][j] < 1.0
    ensures Clamp(Clamp(M)) == Clamp(M)
  {
    forall i | 0 <= i < |M|
      ensures Clamp(Clamp(M))[i] == Clamp(M)[i]
    {
    }
  }

  /** The contents of a two-dimensional array, row by row. */
  function Contents(a: array2<real>): (M: Matrix)
    reads a
    ensures IsShape(M, a.Length0, a.Length1)
    ensures forall i, j :: 0 <= i < a.Length0 && 0 <= j < a.Length1 ==> M[i][j] == a[i, j]
  {
    seq(a.Length0, i requires 0 <= i < a.Length0 reads a =>
      seq(a.Length1, j requires 0 <= j < a.Length1 reads a => a[i, j]))
  }

  /** a[a == from] = to, in place */
  method ReplaceExact(a: array2<real>, from: real, to: real)
    modifies a
    ensures forall i, j :: 0 <= i < a.Length0 && 0 <= j < a.Length1 ==>
      a[i, j] == if old(a[i, j]) == from then to else old(a[i, j])
  {
    var i := 0;
    while i < a.Length0
      invariant 0 <= i <= a.Length0
      invariant forall r, c :: 0 <= r < i && 0 <= c < a.Length1 ==>
        a[r, c] == if old(a[r, c]) == from then to else old(a[r, c])
      invariant forall r, c :: i <= r < a.Length0 && 0 <= c < a.Length1 ==> a[r, c] == old(a[r, c])
    {
      var j := 0;
      while j < a.Length1
        invariant 0 <= j <= a.Length1
        invariant forall r, c :: 0 <= r < i && 0 <= c < a.Length1 ==>
          a[r, c] == if old(a[r, c]) == from then to else old(a[r, c])
        invariant forall c :: 0 <= c < j ==>
          a[i, c] == if old(a[i, c]) == from then to else old(a[i, c])
        invariant forall r, c :: i <= r < a.Length0 && 0 <= c < a.Length1 && (r > i || c >= j) ==>
          a[r, c] == old(a[r, c])
      {
        if a[i, j] == from {
          a[i, j] := to;
        }
        j := j + 1;
      }
      i := i + 1;
    }
  }

  /** The logarithm of every entry. */
  function Logs(v: seq<real>, ln: real -> real): (r: seq<real>)
    ensures |r| == |v| && forall k :: 0 <= k < |v| ==> r[k] == ln(v[k])
  {
    seq(|v|, k requires 0 <= k < |v| => ln(v[k]))
  }

  /** 1 - v, entrywise */
  function Complement(v: seq<real>): (r: seq<real>)
    ensures |r| == |v| && forall k :: 0 <= k < |v| ==> r[k] == 1.0 - v[k]
  {
    seq(|v|, k requires 0 <= k < |v| => 1.0 - v[k])
  }

  /** -1/m * (Y . log(AL) + (1 - Y) . log(1 - AL)) for one output unit over
      m > 0 examples: minus the mean, over the examples, of
      y log a + (1 - y) log (1 - a). */
  function CrossEntropy(AL: Matrix, Y: Matrix, ln: real -> real): (c: real)
    requires |Y| == 1 && |Y[0]| > 0 && IsShape(AL, 1, |Y[0]|)
    ensures c == -1.0 / |Y[0]| as real * EntryTerms(Y[0], AL[0], ln)
  {
    LabelDotsAreEntryTerms(Y[0], AL[0], ln);
    var m := |Y[0]|;
    -1.0 / m as real * (Dot(Y[0], Logs(AL[0], ln)) + Dot(Complement(Y[0]), Logs(Complement(AL[0]), ln)))
  }

  /** Every label is 0 or 1. */
  predicate BinaryLabels(y: seq<real>) {
    forall k :: 0 <= k < |y| ==> y[k] == 0.0 || y[k] == 1.0
  }

  /** The log-likelihood of binary labels: the log of the predicted
      probability of each example's actual label, summed. */
  function LogLikelihood(y: seq<real>, a: seq<real>, ln: real -> real): real
    requires |y| == |a|
    decreases |y|
  {
    if |y| == 0 then 0.0
    else
      var k := |y| - 1;
      LogLikelihood(y[..k], a[..k], ln) + (if y[k] == 1.0 then ln(a[k]) else ln(1.0 - a[k]))
  }

  /** Example k's share of the cross-entropy sum: y log a + (1 - y) log (1 - a). */
  function EntryTerm(y: real, a: real, ln: real -> real): real {
    y * ln(a) + (1.0 - y) * ln(1.0 - a)
  }

  /** The sum of the entry terms of all examples. */
  function EntryTerms(y: seq<real>, a: seq<real>, ln: real -> real): real
    requires |y| == |a|
    decreases |y|
  {
    if |y| == 0 then 0.0 else EntryTerms(y[..|y| - 1], a[..|y| - 1], ln) + EntryTerm(y[|y| - 1], a[|y| - 1], ln)
  }

  /** The last products of the two dot products make up an entry term. */
  lemma EntryTermOfProducts(y: real, c: real, l1: real, l2: real, a: real, ln: real -> real)
    requires c == 1.0 - y && l1 == ln(a) && l2 == ln(1.0 - a)
    ensures y * l1 + c * l2 == EntryTerm(y, a, ln)
  {
  }

  /** For a label 0 or 1 the entry term is the log of the probability
      given to that label. */
  lemma EntryTermOfLabel(y: real, a: real, ln: real -> real)
    requires y == 0.0 || y == 1.0
    ensures EntryTerm(y, a, ln) == if y == 1.0 then ln(a) else ln(1.0 - a)
  {
  }

  /** The two dot products of the cross-entropy add up to the entry terms,
      stated for any sequences l1, c and l2 holding log a, 1 - y and
      log (1 - a) entry by entry. */
  lemma {:induction false} DotsAreEntryTerms(y: seq<real>, a: seq<real>, l1: seq<real>, c: seq<real>, l2: seq<real>, ln: real -> real)
    requires |y| == |a| == |l1| == |c| == |l2|
    requires forall k :: 0 <= k < |y| ==> l1[k] == ln(a[k]) && c[k] == 1.0 - y[k] && l2[k] == ln(1.0 - a[k])
    ensures Dot(y, l1) + Dot(c, l2) == EntryTerms(y, a, ln)
    decreases |y|
  {
    if |y| > 0 {
      var k := |y| - 1;
      hide EntryTerm;
      DotsAreEntryTerms(y[..k], a[..k], l1[..k], c[..k], l2[..k], ln);
      EntryTermOfProducts(y[k], c[k], l1[k], l2[k], a[k], ln);
    }
  }

  /** The same for the logs and complements the cross-entropy takes. */
  lemma LabelDotsAreEntryTerms(y: seq<real>, a: seq<real>, ln: real -> real)
    requires |y| == |a|
    ensures Dot(y, Logs(a, ln)) + Dot(Complement(y), Logs(Complement(a), ln)) == EntryTerms(y, a, ln)
  {
    DotsAreEntryTerms(y, a, Logs(a, ln), Complement(y), Logs(Complement(a), ln), ln);
  }

  /** For binary labels the entry terms add up to the log-likelihood. */
  lemma {:induction false} EntryTermsAreLogLikelihood(y: seq<real>, a: seq<real>, ln: real -> real)
    requires |y| == |a| && BinaryLabels(y)
    ensures EntryTerms(y, a, ln) == LogLikelihood(y, a, ln)
    decreases |y|
  {
    if |y| > 0 {
      var k := |y| - 1;
      EntryTermsAreLogLikelihood(y[..k], a[..k], ln);
      EntryTermOfLabel(y[k], a[k], ln);
    }
  }

  /** For binary labels, the two dot products of the cross-entropy add up
      to the log-likelihood. */
  lemma LabelDotsAreLogLikelihood(y: seq<real>, a: seq<real>, ln: real -> real)
    requires |y| == |a| && BinaryLabels(y)
    ensures Dot(y, Logs(a, ln)) + Dot(Complement(y), Logs(Complement(a), ln)) == LogLikelihood(y, a, ln)
  {
    LabelDotsAreEntryTerms(y, a, ln);
    EntryTermsAreLogLikelihood(y, a, ln);
  }

  /** For binary labels the cross-entropy is minus the mean log-likelihood
      of the labels. */
  lemma CrossEntropyOfBinaryLabels(AL: Matrix, Y: Matrix, ln: real -> real)
    requires |Y| == 1 && |Y[0]| > 0 && IsShape(AL, 1, |Y[0]|) && BinaryLabels(Y[0])
    ensures CrossEntropy(AL, Y, ln) == -1.0 / |Y[0]| as real * LogLikelihood(Y[0], AL[0], ln)
  {
    EntryTermsAreLogLikelihood(Y[0], AL[0], ln);
  }

  lemma {:induction false} LogLikelihoodNonPositive(y: seq<real>, a: seq<real>, ln: real -> real)
    requires |y| == |a| && forall k :: 0 <= k < |a| ==> 0.0 < a[k] < 1.0
    requires forall x :: 0.0 < x < 1.0 ==> ln(x) <= 0.0
    ensures LogLikelihood(y, a, ln) <= 0.0
    decreases |y|
  {
    if |y| > 0 {
      LogLikelihoodNonPositive(y[..|y| - 1], a[..|y| - 1], ln);
    }
  }

  /** With binary labels, predictions strictly inside (0, 1) and a
      logarithm that is non-positive there, the cross-entropy is never
      negative. */
  lemma CrossEntropyNonNegative(AL: Matrix, Y: Matrix, ln: real -> real)
    requires |Y| == 1 && |Y[0]| > 0 && IsShape(AL, 1, |Y[0]|) && BinaryLabels(Y[0])
    requires forall k :: 0 <= k < |AL[0]| ==> 0.0 < AL[0][k] < 1.0
    requires forall x :: 0.0 < x < 1.0 ==> ln(x) <= 0.0
    ensures CrossEntropy(AL, Y, ln) >= 0.0
  {
    CrossEntropyOfBinaryLabels(AL, Y, ln);
    LogLikelihoodNonPositive(Y[0], AL[0], ln);
    var m := |Y[0]| as real;
    var ll := LogLikelihood(Y[0], AL[0], ln);
    assert -1.0 / m * ll == (1.0 / m) * (-ll);
    assert 1.0 / m > 0.0;
  }

  /** compute_cross_entropy_cost: the output AL is clamped IN PLACE (the
      caller sees the clamped values afterwards) and the cost is taken on
      the clamped output. */
  method ComputeCrossEntropyCost(AL: array2<real>, Y: Matrix, ln: real -> real) returns (cost: real)
    requires |Y| == 1 && |Y[0]| > 0 && AL.Length0 == 1 && AL.Length1 == |Y[0]|
    modifies AL
    ensures Contents(AL) == Clamp(old(Contents(AL)))
    ensures Unsaturated(Contents(AL))
    ensures cost == CrossEntropy(Clamp(old(Contents(AL))), Y, ln)
  {
    ghost var before := Contents(AL);
    ReplaceExact(AL, 0.0, Epsilon);
    ReplaceExact(AL, 1.0, 1.0 - Epsilon);
    assert Contents(AL)[0] == Clamp(before)[0];
    ClampProperties(before);
    cost := CrossEntropy(Contents(AL), Y, ln);
  }

  /** The sum of the squared weights of every layer (biases excluded). */
  function TotalSquares(params: seq<LayerParams>): real
    decreases |params|
  {
    if |params| == 0 then 0.0
    else TotalSquares(params[..|params| - 1]) + SumSquares(params[|params| - 1].W)
  }

  /** 1/m * lambd/2 * (sum of squared weights): never negative for
      lambd >= 0, and 0 for lambd = 0. */
  function L2Cost(m: nat, params: seq<LayerParams>, lambd: real): (r: real)
    requires m > 0
    ensures lambd >= 0.0 ==> r >= 0.0
    ensures lambd == 0.0 ==> r == 0.0
  {
    TotalSquaresNonNegative(params);
    assert 1.0 / m as real > 0.0;
    1.0 / m as real * lambd / 2.0 * TotalSquares(params)
  }

  lemma {:induction false} TotalSquaresNonNegative(params: seq<LayerParams>)
    ensures TotalSquares(params) >= 0.0
    decreases |params|
  {
    if |params| > 0 {
      TotalSquaresNonNegative(params[..|params| - 1]);
      SumSquaresNonNegative(params[|params| - 1].W);
    }
  }

  /** Some non-zero weight entry makes the squared weight norm positive. */
  lemma {:induction false} TotalSquaresPositive(params: seq<LayerParams>, l: nat, i: nat, j: nat)
    requires l < |params| && i < |params[l].W| && j < |params[l].W[i]| && params[l].W[i][j] != 0.0
    ensures TotalSquares(params) > 0.0
    decreases |params|
  {
    var n := |params| - 1;
    if l == n {
      TotalSquaresNonNegative(params[..n]);
      SumSquaresPositive(params[n].W, i, j);
    } else {
      assert params[..n][l] == params[l];
      TotalSquaresPositive(params[..n], l, i, j);
      SumSquaresNonNegative(params[n].W);
    }
  }

  /** The L2 penalty is lambd / (2m) times the squared weight norm; it is
      never negative for lambd >= 0, vanishes for lambd = 0, grows with
      lambd, and grows strictly, and is positive for lambd > 0, once some
      weight is non-zero (TotalSquaresPositive). */
  lemma L2CostProperties(m: nat, params: seq<LayerParams>, lambd: real, lambd': real)
    requires m > 0
    ensures L2Cost(m, params, lambd) == lambd / (2.0 * m as real) * TotalSquares(params)
    ensures lambd >= 0.0 ==> L2Cost(m, params, lambd) >= 0.0
    ensures lambd == 0.0 ==> L2Cost(m, params, lambd) == 0.0
    ensures lambd <= lambd' ==> L2Cost(m, params, lambd) <= L2Cost(m, params, lambd')
    ensures TotalSquares(params) > 0.0 && lambd < lambd' ==> L2Cost(m, params, lambd) < L2Cost(m, params, lambd')
    ensures TotalSquares(params) > 0.0 && lambd > 0.0 ==> L2Cost(m, params, lambd) > 0.0
  {
    TotalSquaresNonNegative(params);
    var s := TotalSquares(params);
    var c := 1.0 / (2.0 * m as real);
    assert c > 0.0;
    assert L2Cost(m, params, lambd) == c * lambd * s;
    assert L2Cost(m, params, lambd') == c * lambd' * s;
    assert c * s >= 0.0;
    if s > 0.0 {
      assert c * s > 0.0;
      if lambd > 0.0 {
        assert c * lambd * s == lambd * (c * s);
      }
    }
    assert L2Cost(m, params, lambd') - L2Cost(m, params, lambd) == (lambd' - lambd) * (c * s);
  }

  /** compute_L2_regularization_cost: the squared weights are accumulated
      layer by layer, l = 1..L. */
  method ComputeL2RegularizationCost(m: nat, params: seq<LayerParams>, lambd: real) returns (cost: real)
    requires m > 0
    ensures cost == L2Cost(m, params, lambd)
  {
    var L := |params|;
    var norm := 0.0;
    var l := 1;
    while l <= L
      invariant 1 <= l <= L + 1
      invariant norm == TotalSquares(params[..l - 1])
    {
      assert params[..l][..l - 1] == params[..l - 1];
      norm := norm + SumSquares(params[l - 1].W);
      l := l + 1;
    }
    assert params[..L] == params;
    cost := 1.0 / m as real * lambd / 2.0 * norm;
  }
}
