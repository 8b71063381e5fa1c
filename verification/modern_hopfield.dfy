/**
  The modern Hopfield update against transformer attention.  Stored
  patterns are the columns of `X` (d × N), the state pattern is `ξ`.  The
  Hopfield side computes `ξ_new = X softmax(β Xᵀ ξ)`; the transformer side
  takes `Q = ξᵀ`, `K = V = Xᵀ` and computes `softmax(β Q Kᵀ) V`.  The two
  use the same products in a different order, so they give the same
  similarities, the same weights and the same retrieved pattern.
*/
module ModernHopfield {
  import opened LinAlg

  datatype Option<T> = None | Some(value: T)

  datatype HopfieldResult = HopfieldResult(similarities: Vec, p: Vec, xiNew: Vec)
  datatype TransformerResult = TransformerResult(scores: Vec, attnWeights: Vec, outputRow: Vec)

  // ---------------------------------------------------------------------
  // The two loops
  // ---------------------------------------------------------------------

  /** `vecMatMul`: for each column of `M`, push its dot product with `v`. */
  method VecMatMul(v: Vec, M: Mat) returns (result: Vec)
    requires IsRect(M) && |v| == |M|
    ensures result == VecMat(v, M)
  {
    result := [];
    var cols := |M[0]|;
    for i := 0 to cols
      invariant result == VecMat(v, M)[..i]
    {
      var col := Col(M, i);
      result := result + [Dot(v, col)];
    }
  }

  /** `matMulMat`: row by row, push the dot product of `A[r]` with each column of `B`. */
  method MatMulMat(A: Mat, B: Mat) returns (result: Mat)
    requires IsRect(B) && forall r :: 0 <= r < |A| ==> |A[r]| == |B|
    ensures result == MatMul(A, B)
  {
    result := [];
    var bCols := |B[0]|;
    for r := 0 to |A|
      invariant result == MatMul(A, B)[..r]
    {
      var row := [];
      for c := 0 to bCols
        invariant row == VecMat(A[r], B)[..c]
      {
        var col := Col(B, c);
        row := row + [Dot(A[r], col)];
      }
      assert row == VecMat(A[r], B);
      assert MatMul(A, B)[..r + 1] == MatMul(A, B)[..r] + [MatMul(A, B)[r]];
      result := result + [row];
    }
  }

  /** `vecMatMul(p, M)` is `matMulVec(transpose(M), p)`. */
  lemma {:induction false} VecMatIsTransposedMatVec(p: Vec, M: Mat)
    requires IsRect(M) && |p| == |M|
    ensures VecMat(p, M) == MatVec(Transpose(M), p)
  {
    forall j | 0 <= j < |M[0]|
      ensures VecMat(p, M)[j] == MatVec(Transpose(M), p)[j]
    {
      DotSymm(p, Col(M, j));
    }
  }

  /** `matMulMat([v], M)[0]` is `vecMatMul(v, M)`. */
  lemma {:induction false} SingleRowProduct(v: Vec, M: Mat)
    requires IsRect(M) && |v| == |M|
    ensures |MatMul([v], M)| == 1 && MatMul([v], M)[0] == VecMat(v, M)
  {
  }

  // ---------------------------------------------------------------------
  // Softmax
  // ---------------------------------------------------------------------

  /** `Math.max(...vec)`: an element of `vec` no smaller than any other (0 for the empty vector, where it is unused). */
  function MaxOf(vec: Vec): (r: real)
    ensures |vec| > 0 ==> (exists i :: 0 <= i < |vec| && r == vec[i]) && forall i :: 0 <= i < |vec| ==> vec[i] <= r
    decreases |vec|
  {
    if |vec| == 0 then 0.0
    else if |vec| == 1 then vec[0]
    else
      var m := MaxOf(vec[..|vec| - 1]);
      assert forall i :: 0 <= i < |vec| - 1 ==> vec[..|vec| - 1][i] == vec[i];
      if m < vec[|vec| - 1] then vec[|vec| - 1] else m
  }

  /** `exps.reduce((a, b) => a + b, 0)` over positive entries is positive. */
  function Exps(vec: Vec, exp: real -> real): (r: Vec)
    requires IsExp(exp)
    ensures |r| == |vec| && forall i :: 0 <= i < |vec| ==> 0.0 < r[i]
    ensures |vec| > 0 ==> 0.0 < Sum(r)
  {
    var m := MaxOf(vec);
    var e := seq(|vec|, i requires 0 <= i < |vec| => exp(vec[i] - m));
    SumPositive(e);
    e
  }

  /**
    `softmax`: shift by the maximum, exponentiate, divide by the sum.  With
    `exp` positive every weight is positive and the weights sum to 1.
  */
  function Softmax(vec: Vec, exp: real -> real): (r: Vec)
    requires IsExp(exp)
    ensures |r| == |vec|
    ensures forall i :: 0 <= i < |r| ==> 0.0 < r[i]
    ensures |vec| > 0 ==> Sum(r) == 1.0
  {
    if |vec| == 0 then []
    else
      var exps := Exps(vec, exp);
      var s := Sum(exps);
      var r := seq(|exps|, i requires 0 <= i < |exps| => exps[i] / s);
      Normalised(exps, s, r);
      r
  }

  /** Dividing positive entries by their positive sum gives positive entries summing to 1. */
  lemma {:induction false} Normalised(e: Vec, s: real, r: Vec)
    requires 0.0 < s && s == Sum(e) && forall i :: 0 <= i < |e| ==> 0.0 < e[i]
    requires |r| == |e| && forall i :: 0 <= i < |e| ==> r[i] == e[i] / s
    ensures forall i :: 0 <= i < |r| ==> 0.0 < r[i]
    ensures Sum(r) == 1.0
  {
    SumDiv(e, s, r);
    assert s / s == 1.0;
  }

  /** Dividing every entry by `s` divides the sum by `s`. */
  lemma {:induction false} SumDiv(e: Vec, s: real, r: Vec)
    requires 0.0 < s && |r| == |e| && forall i :: 0 <= i < |e| ==> r[i] == e[i] / s
    ensures Sum(r) == Sum(e) / s
    decreases |e|
  {
    if |e| > 0 {
      var n := |e| - 1;
      SumDiv(e[..n], s, r[..n]);
      assert Sum(r) == Sum(e[..n]) / s + e[n] / s;
    }
  }

  /** `vec.map(s => s * beta)`. */
  function Scaled(vec: Vec, beta: real): (r: Vec)
    ensures |r| == |vec| && forall i :: 0 <= i < |vec| ==> r[i] == vec[i] * beta
  {
    seq(|vec|, i requires 0 <= i < |vec| => vec[i] * beta)
  }

  /**
    Scaling the similarities by β is scaling the state pattern: `β (M ξ) =
    M (β ξ)`, so β acts as an inverse temperature on the query.
  */
  lemma {:induction false} ScaledIsInverseTemperature(M: Mat, xi: Vec, beta: real)
    requires forall i :: 0 <= i < |M| ==> |M[i]| == |xi|
    ensures Scaled(MatVec(M, xi), beta) == MatVec(M, VecScale(xi, beta))
  {
    forall i | 0 <= i < |M|
      ensures Scaled(MatVec(M, xi), beta)[i] == MatVec(M, VecScale(xi, beta))[i]
    {
      DotScaleR(M[i], xi, beta);
    }
  }

  // ---------------------------------------------------------------------
  // The two computations
  // ---------------------------------------------------------------------

  /** Stored patterns of dimension `|xi|`, at least one of them. */
  predicate Patterns(xi: Vec, X: Mat) {
    IsRect(X) && |X| == |xi| && |X[0]| > 0
  }

  /** `hopfieldResults`: nothing until there is a state pattern. */
  function Hopfield(xi: Vec, X: Mat, beta: real, exp: real -> real): (r: Option<HopfieldResult>)
    requires IsExp(exp) && (|xi| > 0 ==> Patterns(xi, X))
    ensures |xi| == 0 <==> r == None
    ensures r.Some? ==> |r.value.similarities| == |X[0]| && |r.value.p| == |X[0]| && |r.value.xiNew| == |xi|
  {
    if |xi| == 0 then None
    else
      var XT := Transpose(X);
      var similarities := MatVec(XT, xi);
      var p := Softmax(Scaled(similarities, beta), exp);
      Some(HopfieldResult(similarities, p, MatVec(X, p)))
  }

  /** `transformerResults`: nothing until there is a state pattern. */
  function Transformer(xi: Vec, X: Mat, beta: real, exp: real -> real): (r: Option<TransformerResult>)
    requires IsExp(exp) && (|xi| > 0 ==> Patterns(xi, X))
    ensures |xi| == 0 <==> r == None
    ensures r.Some? ==> |r.value.scores| == |X[0]| && |r.value.attnWeights| == |X[0]| && |r.value.outputRow| == |xi|
  {
    if |xi| == 0 then None
    else
      var K := Transpose(X);
      var V := Transpose(X);
      TransposeTranspose(X);
      var KT := Transpose(K);
      var scores := MatMul([xi], KT)[0];
      var attnWeights := Softmax(Scaled(scores, beta), exp);
      Some(TransformerResult(scores, attnWeights, VecMat(attnWeights, V)))
  }

  /** `diff`: the summed absolute difference of the two retrieved patterns. */
  function Diff(a: Vec, b: Vec): (r: real)
    requires |a| <= |b|
    ensures 0.0 <= r
    ensures r == 0.0 <==> forall i :: 0 <= i < |a| ==> a[i] == b[i]
    decreases |a|
  {
    if |a| == 0 then 0.0
    else
      var n := |a| - 1;
      var d := if a[n] - b[n] < 0.0 then b[n] - a[n] else a[n] - b[n];
      assert forall i :: 0 <= i < n ==> a[..n][i] == a[i];
      Diff(a[..n], b) + d
  }

  /** `isEquivalent = diff < 1e-9`. */
  predicate IsEquivalent(h: HopfieldResult, t: TransformerResult)
    requires |h.xiNew| <= |t.outputRow|
  {
    Diff(h.xiNew, t.outputRow) < 0.000000001
  }

  // ---------------------------------------------------------------------
  // Hopfield = attention
  // ---------------------------------------------------------------------

  /**
    The two computations agree step by step: the Hopfield similarities are
    the attention scores, the Hopfield weights are the attention weights,
    the retrieved pattern is the output row; hence `diff = 0` and the demo
    reports them equivalent.
  */
  lemma {:induction false} HopfieldIsAttention(xi: Vec, X: Mat, beta: real, exp: real -> real)
    requires IsExp(exp) && |xi| > 0 && Patterns(xi, X)
    ensures var h := Hopfield(xi, X, beta, exp).value;
      var t := Transformer(xi, X, beta, exp).value;
      h.similarities == t.scores && h.p == t.attnWeights && h.xiNew == t.outputRow &&
      Diff(h.xiNew, t.outputRow) == 0.0 && IsEquivalent(h, t)
  {
    var h := Hopfield(xi, X, beta, exp).value;
    var t := Transformer(xi, X, beta, exp).value;
    SimilaritiesAreScores(xi, X);
    assert h.p == t.attnWeights;
    RetrievalIsOutputRow(h.p, X);
  }

  /** `Xᵀ ξ` equals `matMulMat([ξ], (Xᵀ)ᵀ)[0]` entrywise. */
  lemma {:induction false} SimilaritiesAreScores(xi: Vec, X: Mat)
    requires Patterns(xi, X)
    ensures IsRect(Transpose(X)) && |Transpose(Transpose(X))| == |xi|
    ensures MatVec(Transpose(X), xi) == MatMul([xi], Transpose(Transpose(X)))[0]
  {
    TransposeTranspose(X);
    forall n | 0 <= n < |X[0]|
      ensures MatVec(Transpose(X), xi)[n] == VecMat(xi, X)[n]
    {
      DotSymm(Col(X, n), xi);
    }
  }

  /** `X p` equals `vecMatMul(p, Xᵀ)`. */
  lemma {:induction false} RetrievalIsOutputRow(p: Vec, X: Mat)
    requires IsRect(X) && |p| == |X[0]| > 0
    ensures IsRect(Transpose(X)) && MatVec(X, p) == VecMat(p, Transpose(X))
  {
    forall i | 0 <= i < |X|
      ensures MatVec(X, p)[i] == VecMat(p, Transpose(X))[i]
    {
      ColTranspose(X, i);
      DotSymm(X[i], p);
    }
  }
}
