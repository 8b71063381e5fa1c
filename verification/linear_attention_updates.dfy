/*
  The generalised online update-rule family of linear-attention-updates.tsx.

  Each rule turns the previous 2x2 associative memory `Sprev`, a key `k` and
  a value `v` into `nextS` in closed form.  The demo also shows, for the
  active rule, the quadratic objective whose minimiser that closed form is,
  the reconstruction loss `‖S k - v‖²` and the alignment `⟨S k, v⟩`.

  The rule id is a datatype, so the source's "unknown id" fall-through
  (which leaves `nextS = Sprev`) cannot arise.
*/
module LinearAttentionUpdates {
  import opened LinAlg

  /** The state dimension. */
  const D: nat := 2

  datatype Rule = LA | Mamba2 | Longhorn | DeltaNet | GatedDelta

  /** The rules whose alpha slider is enabled. */
  predicate UsesAlpha(rule: Rule) {
    rule == Mamba2 || rule == GatedDelta
  }

  /** The rules whose beta slider is enabled. */
  predicate UsesBeta(rule: Rule) {
    rule == Longhorn || rule == DeltaNet || rule == GatedDelta
  }

  /** A D x D state, a key and a value of length D. */
  predicate Inputs(Sprev: Mat, k: Vec, v: Vec) {
    IsMat(Sprev, D, D) && |k| == D && |v| == D
  }

  /** Everything the `computed` block returns. */
  datatype Computed = Computed(
    nextS: Mat, delta: Mat, eps: real, kNorm: real,
    objectivePrev: real, objectiveNext: real,
    reconPrev: real, reconNext: real,
    alignPrev: real, alignNext: real)

  /**
    Longhorn's gate `beta / (1 + beta kᵀk)`.  With beta at or above the
    slider minimum 0 the denominator is at least 1, so the gate is defined
    and lies between 0 and beta.
  */
  function Eps(beta: real, kNorm: real): (eps: real)
    requires 0.0 <= beta && 0.0 <= kNorm
    ensures 0.0 <= eps <= beta
    ensures eps * (1.0 + beta * kNorm) == beta
  {
    assert 1.0 <= 1.0 + beta * kNorm;
    beta / (1.0 + beta * kNorm)
  }

  /** The five-way dispatch on the active rule. */
  function NextS(rule: Rule, Sprev: Mat, k: Vec, v: Vec, alpha: real, beta: real): (r: Mat)
    requires Inputs(Sprev, k, v) && 0.0 <= beta
    ensures IsMat(r, D, D)
  {
    var kkT := Outer(k, k);
    var vkT := Outer(v, k);
    var eps := Eps(beta, NormSq(k));
    var I := Identity(D);
    var IminusBeta := MatSub(I, MatScale(kkT, beta));
    var IminusEps := MatSub(I, MatScale(kkT, eps));
    match rule
    case LA => MatAdd(Sprev, vkT)
    case Mamba2 => MatAdd(MatScale(Sprev, alpha), vkT)
    case Longhorn => MatAdd(MatMul(Sprev, IminusEps), MatScale(vkT, eps))
    case DeltaNet => MatAdd(MatMul(Sprev, IminusBeta), MatScale(vkT, beta))
    case GatedDelta => MatAdd(MatMul(MatScale(Sprev, alpha), IminusBeta), MatScale(vkT, beta))
  }

  /** The quadratic objective the demo displays for the active rule, evaluated at `S`. */
  function Objective(rule: Rule, Sprev: Mat, k: Vec, v: Vec, alpha: real, beta: real, S: Mat): real
    requires Inputs(Sprev, k, v) && IsMat(S, D, D)
  {
    match rule
    case LA => FrobSq(MatSub(S, Sprev)) - 2.0 * Dot(MatVec(S, k), v)
    case Mamba2 => FrobSq(MatSub(S, MatScale(Sprev, alpha))) - 2.0 * Dot(MatVec(S, k), v)
    case Longhorn => FrobSq(MatSub(S, Sprev)) + beta * NormSq(VecSub(MatVec(S, k), v))
    case DeltaNet =>
      var u := VecScale(VecSub(v, MatVec(Sprev, k)), beta);
      FrobSq(MatSub(S, Sprev)) - 2.0 * Dot(MatVec(S, k), u)
    case GatedDelta =>
      var u := VecScale(VecSub(v, MatVec(MatScale(Sprev, alpha), k)), beta);
      FrobSq(MatSub(S, MatScale(Sprev, alpha))) - 2.0 * Dot(MatVec(S, k), u)
  }

  /** The reconstruction loss `‖S k - v‖²`. */
  function Recon(S: Mat, k: Vec, v: Vec): real
    requires IsMat(S, |v|, |k|)
  {
    NormSq(VecSub(MatVec(S, k), v))
  }

  /** The alignment `⟨S k, v⟩`. */
  function Align(S: Mat, k: Vec, v: Vec): real
    requires IsMat(S, |v|, |k|)
  {
    Dot(MatVec(S, k), v)
  }

  /**
    The `computed` block.  Whatever the rule, `delta` is exactly the change
    from `Sprev` to `nextS`, the gate is in `[0, beta]` and both
    reconstruction losses are non-negative.
  */
  function Compute(rule: Rule, Sprev: Mat, k: Vec, v: Vec, alpha: real, beta: real): (c: Computed)
    requires Inputs(Sprev, k, v) && 0.0 <= beta
    ensures IsMat(c.nextS, D, D) && IsMat(c.delta, D, D)
    ensures MatAdd(Sprev, c.delta) == c.nextS
    ensures 0.0 <= c.kNorm && 0.0 <= c.eps <= beta
    ensures 0.0 <= c.reconPrev && 0.0 <= c.reconNext
  {
    var nextS := NextS(rule, Sprev, k, v, alpha, beta);
    MatAddSubCancel(Sprev, nextS);
    Computed(
      nextS, MatSub(nextS, Sprev), Eps(beta, NormSq(k)), NormSq(k),
      Objective(rule, Sprev, k, v, alpha, beta, Sprev),
      Objective(rule, Sprev, k, v, alpha, beta, nextS),
      Recon(Sprev, k, v), Recon(nextS, k, v),
      Align(Sprev, k, v), Align(nextS, k, v))
  }

  /**
    `matMul` as the source writes it: a triple loop accumulating into
    `result[i][j]`, starting from the zero matrix.
  */
  method MatMulLoop(A: Mat, B: Mat) returns (result: Mat)
    requires IsRect(B) && forall i :: 0 <= i < |A| ==> |A[i]| == |B|
    ensures result == MatMul(A, B)
  {
    var rows, cols := |A|, |B[0]|;
    result := Zeros(rows, cols);
    for i := 0 to rows
      invariant IsMat(result, rows, cols)
      invariant forall r :: 0 <= r < i ==> result[r] == MatMul(A, B)[r]
      invariant forall r :: i <= r < rows ==> result[r] == ZeroVec(cols)
    {
      ghost var before := result;
      for j := 0 to cols
        invariant |result| == rows && |result[i]| == cols
        invariant forall r :: 0 <= r < rows && r != i ==> result[r] == before[r]
        invariant forall c :: 0 <= c < j ==> result[i][c] == Dot(A[i], Col(B, c))
        invariant forall c :: j <= c < cols ==> result[i][c] == 0.0
      {
        ghost var rowBefore := result[i];
        for t := 0 to |B|
          invariant |result| == rows && |result[i]| == cols
          invariant forall r :: 0 <= r < rows && r != i ==> result[r] == before[r]
          invariant forall c :: 0 <= c < cols && c != j ==> result[i][c] == rowBefore[c]
          invariant result[i][j] == Dot(A[i][..t], Col(B, j)[..t])
        {
          DotPrefixStep(A[i], Col(B, j), t);
          result := result[i := result[i][j := result[i][j] + A[i][t] * B[t][j]]];
        }
        assert A[i][..|B|] == A[i] && Col(B, j)[..|B|] == Col(B, j);
      }
      assert result[i] == MatMul(A, B)[i];
    }
  }

  // ---------------------------------------------------------------------
  // Properties of the rules
  // ---------------------------------------------------------------------

  /** LA is the plain Hebbian write: `nextS = Sprev + v kᵀ`, `delta = v kᵀ`. */
  lemma {:induction false} LAWrite(Sprev: Mat, k: Vec, v: Vec, alpha: real, beta: real)
    requires Inputs(Sprev, k, v) && 0.0 <= beta
    ensures var c := Compute(LA, Sprev, k, v, alpha, beta);
      c.nextS == MatAdd(Sprev, Outer(v, k)) && c.delta == Outer(v, k)
  {
    var c := Compute(LA, Sprev, k, v, alpha, beta);
    forall i, j | 0 <= i < D && 0 <= j < D
      ensures c.delta[i][j] == Outer(v, k)[i][j]
    {
    }
    MatExt(c.delta, Outer(v, k), D, D);
  }

  /** With alpha = 1 the gated rules collapse to their ungated versions. */
  lemma {:induction false} AlphaOneCollapses(Sprev: Mat, k: Vec, v: Vec, beta: real)
    requires Inputs(Sprev, k, v) && 0.0 <= beta
    ensures NextS(Mamba2, Sprev, k, v, 1.0, beta) == NextS(LA, Sprev, k, v, 1.0, beta)
    ensures NextS(GatedDelta, Sprev, k, v, 1.0, beta) == NextS(DeltaNet, Sprev, k, v, 1.0, beta)
  {
    MatScaleOne(Sprev);
  }

  /** DeltaNet with beta = 0 leaves the state unchanged, because `S I = S`. */
  lemma {:induction false} DeltaNetBetaZero(Sprev: Mat, k: Vec, v: Vec, alpha: real)
    requires Inputs(Sprev, k, v)
    ensures var c := Compute(DeltaNet, Sprev, k, v, alpha, 0.0);
      c.nextS == Sprev && c.delta == Zeros(D, D)
  {
    var I := Identity(D);
    MatScaleZero(Outer(k, k), D, D);
    MatSubZerosR(I, D, D);
    MatMulIdentityR(Sprev, D);
    MatScaleZero(Outer(v, k), D, D);
    MatAddZerosR(Sprev, D, D);
    MatSubSelf(Sprev, D, D);
  }

  /** The sliders a rule disables have no influence on its `nextS`. */
  lemma {:induction false} DisabledGatesIgnored(rule: Rule, Sprev: Mat, k: Vec, v: Vec,
                             alpha1: real, alpha2: real, beta1: real, beta2: real)
    requires Inputs(Sprev, k, v) && 0.0 <= beta1 && 0.0 <= beta2
    ensures !UsesAlpha(rule) ==>
      NextS(rule, Sprev, k, v, alpha1, beta1) == NextS(rule, Sprev, k, v, alpha2, beta1)
    ensures !UsesBeta(rule) ==>
      NextS(rule, Sprev, k, v, alpha1, beta1) == NextS(rule, Sprev, k, v, alpha1, beta2)
  {
  }

  /** The matrix each rule stays close to: `alpha Sprev` for the gated rules, else `Sprev`. */
  function Base(rule: Rule, Sprev: Mat, alpha: real): (B: Mat)
    requires IsMat(Sprev, D, D)
    ensures IsMat(B, D, D)
  {
    if UsesAlpha(rule) then MatScale(Sprev, alpha) else Sprev
  }

  /**
    The vector each rule writes along `k`: `v` for the Hebbian rules, and
    the gated prediction error for the error-driven ones (the `u_t` the
    demo displays for DeltaNet and Gated Delta).
  */
  function Target(rule: Rule, Sprev: Mat, k: Vec, v: Vec, alpha: real, beta: real): (u: Vec)
    requires Inputs(Sprev, k, v) && 0.0 <= beta
    ensures |u| == D
  {
    match rule
    case LA => v
    case Mamba2 => v
    case Longhorn => VecScale(VecSub(v, MatVec(Sprev, k)), Eps(beta, NormSq(k)))
    case DeltaNet => VecScale(VecSub(v, MatVec(Sprev, k)), beta)
    case GatedDelta => VecScale(VecSub(v, MatVec(MatScale(Sprev, alpha), k)), beta)
  }

  /** Every rule is a rank-one correction of its base: `nextS = Base + Target kᵀ`. */
  lemma {:induction false} NextSRankOne(rule: Rule, Sprev: Mat, k: Vec, v: Vec, alpha: real, beta: real)
    requires Inputs(Sprev, k, v) && 0.0 <= beta
    ensures NextS(rule, Sprev, k, v, alpha, beta)
         == MatAdd(Base(rule, Sprev, alpha), Outer(Target(rule, Sprev, k, v, alpha, beta), k))
  {
    var eps := Eps(beta, NormSq(k));
    match rule
    case LA =>
    case Mamba2 =>
    case Longhorn =>
      MatMulEraseR(Sprev, k, eps);
      EraseWrite(Sprev, k, v, eps);
    case DeltaNet =>
      MatMulEraseR(Sprev, k, beta);
      EraseWrite(Sprev, k, v, beta);
    case GatedDelta =>
      MatMulEraseR(MatScale(Sprev, alpha), k, beta);
      EraseWrite(MatScale(Sprev, alpha), k, v, beta);
  }

  /**
    For `J(S) = ‖S - B‖²_F - 2 ⟨S k, u⟩`, the matrix `S* = B + u kᵀ` is the
    unique minimiser: `J(S) = J(S*) + ‖S - S*‖²_F`.
  */
  lemma {:induction false} HebbianMinimiser(B: Mat, u: Vec, k: Vec, S: Mat)
    requires IsMat(B, |u|, |k|) && IsMat(S, |u|, |k|)
    ensures var Sstar := MatAdd(B, Outer(u, k));
      FrobSq(MatSub(S, B)) - 2.0 * Dot(MatVec(S, k), u)
      == FrobSq(MatSub(Sstar, B)) - 2.0 * Dot(MatVec(Sstar, k), u) + FrobSq(MatSub(S, Sstar))
  {
    var O := Outer(u, k);
    var Sstar := MatAdd(B, O);
    var E := MatSub(S, Sstar);
    assert MatSub(S, B) == MatAdd(E, O) by {
      forall i, j | 0 <= i < |u| && 0 <= j < |k|
        ensures MatSub(S, B)[i][j] == MatAdd(E, O)[i][j]
      {
      }
      MatExt(MatSub(S, B), MatAdd(E, O), |u|, |k|);
    }
    assert MatSub(Sstar, B) == O by {
      forall i, j | 0 <= i < |u| && 0 <= j < |k|
        ensures MatSub(Sstar, B)[i][j] == O[i][j]
      {
      }
      MatExt(MatSub(Sstar, B), O, |u|, |k|);
    }
    assert S == MatAdd(Sstar, E) by {
      forall i, j | 0 <= i < |u| && 0 <= j < |k|
        ensures S[i][j] == MatAdd(Sstar, E)[i][j]
      {
      }
      MatExt(S, MatAdd(Sstar, E), |u|, |k|);
    }
    FrobSqAddOuter(E, u, k);
    FrobOuter(u, k);
    MatVecAdd(Sstar, E, k);
    DotAddL(MatVec(Sstar, k), MatVec(E, k), u);
  }

  /**
    Longhorn's update in rank-one form, over plain names: the gate `eps`
    satisfies `eps (1 + beta kᵀk) = beta`, `w = eps (v - Sprev k)` and
    `Sstar = Sprev + w kᵀ` (NextSRankOne shows NextS has this form).
  */
  predicate LonghornStep(Sprev: Mat, k: Vec, v: Vec, beta: real, eps: real, w: Vec, Sstar: Mat)
    requires Inputs(Sprev, k, v)
  {
    eps * (1.0 + beta * NormSq(k)) == beta &&
    w == VecScale(VecSub(v, MatVec(Sprev, k)), eps) &&
    Sstar == MatAdd(Sprev, Outer(w, k))
  }

  /**
    For Longhorn's `J(S) = ‖S - Sprev‖²_F + beta ‖S k - v‖²` the closed form
    `S*` is the unique minimiser: `J(S) = J(S*) + ‖S - S*‖²_F + beta ‖(S - S*) k‖²`.
  */
  lemma {:induction false} LonghornMinimiser(Sprev: Mat, k: Vec, v: Vec, alpha: real, beta: real, S: Mat)
    requires Inputs(Sprev, k, v) && 0.0 <= beta && IsMat(S, D, D)
    ensures var Sstar := NextS(Longhorn, Sprev, k, v, alpha, beta);
      Objective(Longhorn, Sprev, k, v, alpha, beta, S)
      == Objective(Longhorn, Sprev, k, v, alpha, beta, Sstar)
         + FrobSq(MatSub(S, Sstar)) + beta * NormSq(MatVec(MatSub(S, Sstar), k))
  {
    NextSRankOne(Longhorn, Sprev, k, v, alpha, beta);
    LonghornMinimiserAt(Sprev, k, v, beta, Eps(beta, NormSq(k)), Target(Longhorn, Sprev, k, v, alpha, beta),
      NextS(Longhorn, Sprev, k, v, alpha, beta), S);
  }

  /** LonghornMinimiser for any state in LonghornStep form. */
  lemma {:induction false} LonghornMinimiserAt(Sprev: Mat, k: Vec, v: Vec, beta: real, eps: real, w: Vec,
                                               Sstar: Mat, S: Mat)
    requires Inputs(Sprev, k, v) && IsMat(S, D, D) && LonghornStep(Sprev, k, v, beta, eps, w, Sstar)
    ensures FrobSq(MatSub(S, Sprev)) + beta * NormSq(VecSub(MatVec(S, k), v))
      == (FrobSq(MatSub(Sstar, Sprev)) + beta * NormSq(VecSub(MatVec(Sstar, k), v)))
         + FrobSq(MatSub(S, Sstar)) + beta * NormSq(MatVec(MatSub(S, Sstar), k))
  {
    LonghornDistancePart(Sprev, k, v, beta, eps, w, Sstar, S);
    LonghornResidualPart(Sprev, k, v, beta, eps, w, Sstar, S);
    var n := NormSq(k);
    var d := Dot(MatVec(MatSub(S, Sstar), k), VecSub(MatVec(Sprev, k), v));
    var x := Dot(MatVec(MatSub(S, Sstar), k), w);
    var y := Dot(MatVec(MatSub(S, Sstar), k), VecScale(VecSub(MatVec(Sprev, k), v), 1.0 - eps * NormSq(k)));
    var nr := NormSq(VecScale(VecSub(MatVec(Sprev, k), v), 1.0 - eps * NormSq(k)));
    var fS := FrobSq(MatSub(S, Sprev));
    var rS := NormSq(VecSub(MatVec(S, k), v));
    var fE := FrobSq(MatSub(S, Sstar));
    var nEk := NormSq(MatVec(MatSub(S, Sstar), k));
    var nw := NormSq(w);
    var fStar := FrobSq(MatSub(Sstar, Sprev));
    assert eps * (1.0 + beta * n) == beta;
    assert fS == fE + 2.0 * x + nw * n && fStar == nw * n && x == eps * (-1.0 * d);
    assert rS == nEk + 2.0 * y + nr && y == (1.0 - eps * n) * d;
    LonghornArith(beta, n, eps, d, fS, rS, fE, nEk, x, y, nw, nr, fStar);
  }

  /** The distance term of LonghornMinimiser, expanded around `S*`. */
  lemma {:induction false} LonghornDistancePart(Sprev: Mat, k: Vec, v: Vec, beta: real, eps: real, w: Vec,
                                                Sstar: Mat, S: Mat)
    requires Inputs(Sprev, k, v) && IsMat(S, D, D) && LonghornStep(Sprev, k, v, beta, eps, w, Sstar)
    ensures var Ek := MatVec(MatSub(S, Sstar), k);
      FrobSq(MatSub(S, Sprev)) == FrobSq(MatSub(S, Sstar)) + 2.0 * Dot(Ek, w) + NormSq(w) * NormSq(k) &&
      FrobSq(MatSub(Sstar, Sprev)) == NormSq(w) * NormSq(k) &&
      Dot(Ek, w) == eps * (-1.0 * Dot(Ek, VecSub(MatVec(Sprev, k), v)))
  {
    var Sk := MatVec(Sprev, k);
    var O := Outer(w, k);
    var E := MatSub(S, Sstar);
    var Ek := MatVec(E, k);
    assert FrobSq(MatSub(S, Sprev)) == FrobSq(E) + 2.0 * Dot(Ek, w) + NormSq(w) * NormSq(k) by {
      MatSubAddRight(S, Sprev, O, D, D);
      FrobSqAddOuter(E, w, k);
    }
    assert FrobSq(MatSub(Sstar, Sprev)) == NormSq(w) * NormSq(k) by {
      MatAddSubLeft(Sprev, O, D, D);
      FrobOuter(w, k);
    }
    DotScaleR(Ek, VecSub(v, Sk), eps);
    NormSqSubSwap(Sk, v);
    DotScaleR(Ek, VecSub(Sk, v), -1.0);
  }

  /** The reconstruction term of LonghornMinimiser, expanded around `S*`. */
  lemma {:induction false} LonghornResidualPart(Sprev: Mat, k: Vec, v: Vec, beta: real, eps: real, w: Vec,
                                                Sstar: Mat, S: Mat)
    requires Inputs(Sprev, k, v) && IsMat(S, D, D) && LonghornStep(Sprev, k, v, beta, eps, w, Sstar)
    ensures var Ek := MatVec(MatSub(S, Sstar), k);
      var e := VecSub(MatVec(Sprev, k), v);
      var r := VecScale(e, 1.0 - eps * NormSq(k));
      VecSub(MatVec(Sstar, k), v) == r &&
      NormSq(VecSub(MatVec(S, k), v)) == NormSq(Ek) + 2.0 * Dot(Ek, r) + NormSq(r) &&
      Dot(Ek, r) == (1.0 - eps * NormSq(k)) * Dot(Ek, e)
  {
    var E := MatSub(S, Sstar);
    var Ek := MatVec(E, k);
    var e := VecSub(MatVec(Sprev, k), v);
    var g := 1.0 - eps * NormSq(k);
    var r := VecScale(e, g);
    RankOneResidual(Sprev, k, v, eps);
    assert VecSub(MatVec(S, k), v) == VecAdd(Ek, r) by {
      MatAddSubCancel(Sstar, S);
      MatVecAdd(Sstar, E, k);
      VecSubAddSwap(MatVec(Sstar, k), Ek, v);
    }
    NormSqAdd(Ek, r);
    DotScaleR(Ek, e, g);
  }

  /**
    The scalar bookkeeping of LonghornMinimiser: the two cross terms
    `2 x` and `2 beta y` cancel because `eps = beta (1 - eps ‖k‖²)`.
  */
  lemma {:induction false} LonghornArith(beta: real, n: real, eps: real, d: real, fS: real, rS: real,
                                         fE: real, nEk: real, x: real, y: real, nw: real, nr: real, fStar: real)
    requires eps * (1.0 + beta * n) == beta
    requires fS == fE + 2.0 * x + nw * n && fStar == nw * n && x == eps * (-1.0 * d)
    requires rS == nEk + 2.0 * y + nr && y == (1.0 - eps * n) * d
    ensures fS + beta * rS == (fStar + beta * nr) + fE + beta * nEk
  {
    assert beta * (1.0 - eps * n) == eps;
    assert 2.0 * x + beta * (2.0 * y) == 0.0;
  }

  /**
    Every rule's `nextS` minimises the objective the demo displays for it:
    no state `S` scores lower, and `S` ties only if it equals `nextS`.
  */
  lemma {:induction false} NextSMinimisesObjective(rule: Rule, Sprev: Mat, k: Vec, v: Vec, alpha: real, beta: real, S: Mat)
    requires Inputs(Sprev, k, v) && 0.0 <= beta && IsMat(S, D, D)
    ensures var nextS := NextS(rule, Sprev, k, v, alpha, beta);
      Objective(rule, Sprev, k, v, alpha, beta, nextS)
        + FrobSq(MatSub(S, nextS)) <= Objective(rule, Sprev, k, v, alpha, beta, S)
  {
    if rule == Longhorn {
      LonghornMinimiser(Sprev, k, v, alpha, beta, S);
    } else {
      HebbianRuleMinimiser(rule, Sprev, k, v, alpha, beta, S);
    }
  }

  /** The four rules other than Longhorn: their objective is exactly HebbianMinimiser's `J`. */
  lemma {:induction false} HebbianRuleMinimiser(rule: Rule, Sprev: Mat, k: Vec, v: Vec, alpha: real, beta: real, S: Mat)
    requires Inputs(Sprev, k, v) && 0.0 <= beta && IsMat(S, D, D) && rule != Longhorn
    ensures var nextS := NextS(rule, Sprev, k, v, alpha, beta);
      Objective(rule, Sprev, k, v, alpha, beta, S)
        == Objective(rule, Sprev, k, v, alpha, beta, nextS) + FrobSq(MatSub(S, nextS))
  {
    NextSRankOne(rule, Sprev, k, v, alpha, beta);
    HebbianMinimiser(Base(rule, Sprev, alpha), Target(rule, Sprev, k, v, alpha, beta), k, S);
  }

  /** Hence, for every rule, the step never raises the objective. */
  lemma {:induction false} ObjectiveDecreases(rule: Rule, Sprev: Mat, k: Vec, v: Vec, alpha: real, beta: real)
    requires Inputs(Sprev, k, v) && 0.0 <= beta
    ensures var c := Compute(rule, Sprev, k, v, alpha, beta);
      c.objectiveNext <= c.objectivePrev
  {
    NextSMinimisesObjective(rule, Sprev, k, v, alpha, beta, Sprev);
    FrobNonneg(MatSub(Sprev, NextS(rule, Sprev, k, v, alpha, beta)));
  }

  /**
    Longhorn's objective before and after the step in terms of the
    reconstruction loss: `objectivePrev = beta reconPrev` and
    `objectiveNext = beta reconPrev / (1 + beta kᵀk)`.
  */
  lemma {:induction false} LonghornObjectiveValues(Sprev: Mat, k: Vec, v: Vec, alpha: real, beta: real)
    requires Inputs(Sprev, k, v) && 0.0 <= beta
    ensures Objective(Longhorn, Sprev, k, v, alpha, beta, Sprev) == beta * Recon(Sprev, k, v)
    ensures Objective(Longhorn, Sprev, k, v, alpha, beta, NextS(Longhorn, Sprev, k, v, alpha, beta))
            == beta * Recon(Sprev, k, v) / (1.0 + beta * NormSq(k))
  {
    NextSRankOne(Longhorn, Sprev, k, v, alpha, beta);
    LonghornValuesAt(Sprev, k, v, alpha, beta, Eps(beta, NormSq(k)), Target(Longhorn, Sprev, k, v, alpha, beta),
      NextS(Longhorn, Sprev, k, v, alpha, beta));
  }

  /** LonghornObjectiveValues for any state in LonghornStep form. */
  lemma {:induction false} LonghornValuesAt(Sprev: Mat, k: Vec, v: Vec, alpha: real, beta: real, eps: real,
                                            w: Vec, Sstar: Mat)
    requires Inputs(Sprev, k, v) && 0.0 <= beta && LonghornStep(Sprev, k, v, beta, eps, w, Sstar)
    ensures Objective(Longhorn, Sprev, k, v, alpha, beta, Sprev) == beta * Recon(Sprev, k, v)
    ensures Objective(Longhorn, Sprev, k, v, alpha, beta, Sstar)
            == beta * Recon(Sprev, k, v) / (1.0 + beta * NormSq(k))
  {
    assert FrobSq(MatSub(Sprev, Sprev)) == 0.0 by {
      MatSubSelf(Sprev, D, D);
      FrobZeros(D, D);
    }
    LonghornWriteNorm(Sprev, k, v, beta, eps, w, Sstar);
    LonghornResidualNorm(Sprev, k, v, beta, eps, w, Sstar);
    LonghornValueArith(beta, NormSq(k), eps, NormSq(VecSub(MatVec(Sprev, k), v)), NormSq(w),
      FrobSq(MatSub(Sstar, Sprev)), NormSq(VecSub(MatVec(Sstar, k), v)));
  }

  /** The size of Longhorn's write: `‖w kᵀ‖²_F = ‖w‖² ‖k‖² = eps² ‖Sprev k - v‖² ‖k‖²`. */
  lemma {:induction false} LonghornWriteNorm(Sprev: Mat, k: Vec, v: Vec, beta: real, eps: real, w: Vec, Sstar: Mat)
    requires Inputs(Sprev, k, v) && LonghornStep(Sprev, k, v, beta, eps, w, Sstar)
    ensures FrobSq(MatSub(Sstar, Sprev)) == NormSq(w) * NormSq(k)
    ensures NormSq(w) == eps * eps * NormSq(VecSub(MatVec(Sprev, k), v))
  {
    MatAddSubLeft(Sprev, Outer(w, k), D, D);
    FrobOuter(w, k);
    NormSqScale(VecSub(v, MatVec(Sprev, k)), eps);
    NormSqSubSwap(MatVec(Sprev, k), v);
  }

  /** Longhorn's residual on the written key: `‖S* k - v‖² = (1 - eps ‖k‖²)² ‖Sprev k - v‖²`. */
  lemma {:induction false} LonghornResidualNorm(Sprev: Mat, k: Vec, v: Vec, beta: real, eps: real, w: Vec, Sstar: Mat)
    requires Inputs(Sprev, k, v) && LonghornStep(Sprev, k, v, beta, eps, w, Sstar)
    ensures NormSq(VecSub(MatVec(Sstar, k), v))
         == (1.0 - eps * NormSq(k)) * (1.0 - eps * NormSq(k)) * NormSq(VecSub(MatVec(Sprev, k), v))
  {
    RankOneResidual(Sprev, k, v, eps);
    NormSqScale(VecSub(MatVec(Sprev, k), v), 1.0 - eps * NormSq(k));
  }

  /** The scalar identity behind LonghornObjectiveValues. */
  lemma {:induction false} LonghornValueArith(beta: real, n: real, eps: real, q: real, nw: real, f: real, rn: real)
    requires 0.0 <= beta && 0.0 <= n && eps * (1.0 + beta * n) == beta
    requires f == nw * n && nw == eps * eps * q && rn == (1.0 - eps * n) * (1.0 - eps * n) * q
    ensures f + beta * rn == beta * q / (1.0 + beta * n)
  {
    var g := 1.0 - eps * n;
    var den := 1.0 + beta * n;
    assert g * den == 1.0;
    assert eps == beta * g;
    calc {
      f + beta * rn;
      eps * eps * q * n + beta * (g * g * q);
      beta * g * g * q * (beta * n + 1.0);
      beta * g * q * (g * den);
      beta * g * q;
      { assert g == 1.0 / den; }
      beta * q / den;
    }
  }

  /** Longhorn's `nextS` solves the displayed normal equation `S (I + beta k kᵀ) = Sprev + beta v kᵀ`. */
  lemma {:induction false} LonghornNormalEquation(Sprev: Mat, k: Vec, v: Vec, alpha: real, beta: real)
    requires Inputs(Sprev, k, v) && 0.0 <= beta
    ensures var nextS := NextS(Longhorn, Sprev, k, v, alpha, beta);
      MatMul(nextS, MatAdd(Identity(D), MatScale(Outer(k, k), beta)))
      == MatAdd(Sprev, MatScale(Outer(v, k), beta))
  {
    var Sk := MatVec(Sprev, k);
    var d := VecSub(v, Sk);
    var w := Target(Longhorn, Sprev, k, v, alpha, beta);
    var nextS := NextS(Longhorn, Sprev, k, v, alpha, beta);
    assert nextS == MatAdd(Sprev, Outer(w, k)) by { NextSRankOne(Longhorn, Sprev, k, v, alpha, beta); }
    var Nk := MatVec(nextS, k);
    var wn := VecScale(w, NormSq(k));
    assert Nk == VecAdd(Sk, wn) by {
      MatVecAdd(Sprev, Outer(w, k), k);
      MatVecOuterSelf(w, k);
    }
    MatMulGrowR(nextS, k, beta);
    NormalEquationEntries(Sprev, k, v, w, d, Sk, wn, nextS, Nk, NormSq(k), Eps(beta, NormSq(k)), beta);
  }

  /** LonghornNormalEquation entry by entry, over names for every intermediate vector. */
  lemma {:induction false} NormalEquationEntries(Sprev: Mat, k: Vec, v: Vec, w: Vec, d: Vec, Sk: Vec, wn: Vec,
                                                 nextS: Mat, Nk: Vec, n: real, eps: real, beta: real)
    requires IsMat(Sprev, D, D) && |k| == D && |v| == D && |Sk| == D
    requires eps * (1.0 + beta * n) == beta && d == VecSub(v, Sk) && w == VecScale(d, eps)
    requires nextS == MatAdd(Sprev, Outer(w, k)) && wn == VecScale(w, n) && Nk == VecAdd(Sk, wn)
    ensures MatAdd(nextS, MatScale(Outer(Nk, k), beta)) == MatAdd(Sprev, MatScale(Outer(v, k), beta))
  {
    var L := MatAdd(nextS, MatScale(Outer(Nk, k), beta));
    var R := MatAdd(Sprev, MatScale(Outer(v, k), beta));
    forall i | 0 <= i < D
      ensures L[i] == R[i]
    {
      OuterRow(w, k, i);
      OuterRow(Nk, k, i);
      OuterRow(v, k, i);
      NormalEquationRow(Sprev[i], k, w[i], Sk[i], v[i], d[i], wn[i], Nk[i], n, eps, beta);
    }
  }

  /** One row of LonghornNormalEquation. */
  lemma {:induction false} NormalEquationRow(s: Vec, k: Vec, w: real, sk: real, v: real, d: real, wn: real, nk: real,
                                             n: real, eps: real, beta: real)
    requires |s| == |k|
    requires eps * (1.0 + beta * n) == beta && d == v - sk && w == d * eps && wn == w * n && nk == sk + wn
    ensures VecAdd(VecAdd(s, VecScale(k, w)), VecScale(VecScale(k, nk), beta))
         == VecAdd(s, VecScale(VecScale(k, v), beta))
  {
    var L := VecAdd(VecAdd(s, VecScale(k, w)), VecScale(VecScale(k, nk), beta));
    var R := VecAdd(s, VecScale(VecScale(k, v), beta));
    forall j | 0 <= j < |k|
      ensures L[j] == R[j]
    {
      NormalEquationArith(s[j], w, sk, v, k[j], n, eps, beta, d, wn, nk,
        VecAdd(s, VecScale(k, w))[j], VecScale(k, w)[j], L[j], VecScale(VecScale(k, nk), beta)[j], VecScale(k, nk)[j],
        R[j], VecScale(VecScale(k, v), beta)[j], VecScale(k, v)[j]);
    }
  }

  /**
    One entry of LonghornNormalEquation, every product named by its own
    variable: `l = ns + (k_j nk) beta` equals `r = s + (k_j v) beta`.
  */
  lemma {:induction false} NormalEquationArith(s: real, w: real, sk: real, v: real, kj: real, n: real,
                                               eps: real, beta: real, d: real, wn: real, nk: real,
                                               ns: real, ow: real,
                                               l: real, m1: real, o1: real,
                                               r: real, m2: real, o2: real)
    requires eps * (1.0 + beta * n) == beta && d == v - sk && w == d * eps
    requires ns == s + ow && ow == kj * w && nk == sk + wn && wn == w * n
    requires l == ns + m1 && m1 == o1 * beta && o1 == kj * nk
    requires r == s + m2 && m2 == o2 * beta && o2 == kj * v
    ensures l == r
  {
    assert w * (1.0 + beta * n) == (v - sk) * beta;
    calc {
      l;
      (s + kj * w) + (kj * (sk + w * n)) * beta;
      s + kj * (w * (1.0 + beta * n) + sk * beta);
      s + kj * ((v - sk) * beta + sk * beta);
      s + (kj * v) * beta;
      r;
    }
  }

  /**
    DeltaNet scales the prediction error on the written key by
    `1 - beta kᵀk`; in particular `reconNext = (1 - beta kᵀk)² reconPrev`,
    which is 0 when `beta kᵀk = 1`.
  */
  lemma {:induction false} DeltaNetResidual(Sprev: Mat, k: Vec, v: Vec, alpha: real, beta: real)
    requires Inputs(Sprev, k, v) && 0.0 <= beta
    ensures var nextS := NextS(DeltaNet, Sprev, k, v, alpha, beta);
      Recon(nextS, k, v) == (1.0 - beta * NormSq(k)) * (1.0 - beta * NormSq(k)) * Recon(Sprev, k, v) &&
      (beta * NormSq(k) == 1.0 ==> Recon(nextS, k, v) == 0.0)
  {
    NextSRankOne(DeltaNet, Sprev, k, v, alpha, beta);
    DeltaNetResidualAt(Sprev, k, v, beta, NextS(DeltaNet, Sprev, k, v, alpha, beta));
  }

  /** DeltaNetResidual for any state of DeltaNet's rank-one form `Sprev + beta (v - Sprev k) kᵀ`. */
  lemma {:induction false} DeltaNetResidualAt(Sprev: Mat, k: Vec, v: Vec, beta: real, S: Mat)
    requires Inputs(Sprev, k, v)
    requires S == MatAdd(Sprev, Outer(VecScale(VecSub(v, MatVec(Sprev, k)), beta), k))
    ensures VecSub(MatVec(S, k), v) == VecScale(VecSub(MatVec(Sprev, k), v), 1.0 - beta * NormSq(k))
    ensures Recon(S, k, v) == (1.0 - beta * NormSq(k)) * (1.0 - beta * NormSq(k)) * Recon(Sprev, k, v)
    ensures beta * NormSq(k) == 1.0 ==> Recon(S, k, v) == 0.0
  {
    RankOneResidual(Sprev, k, v, beta);
    NormSqScale(VecSub(MatVec(Sprev, k), v), 1.0 - beta * NormSq(k));
  }

  /** The Hebbian write raises the alignment by `‖k‖² ‖v‖² >= 0`. */
  lemma {:induction false} LAAlignmentGrows(Sprev: Mat, k: Vec, v: Vec, alpha: real, beta: real)
    requires Inputs(Sprev, k, v) && 0.0 <= beta
    ensures var nextS := NextS(LA, Sprev, k, v, alpha, beta);
      Align(nextS, k, v) == Align(Sprev, k, v) + NormSq(k) * NormSq(v) && Align(Sprev, k, v) <= Align(nextS, k, v)
  {
    HebbianAlignAt(Sprev, k, v, NextS(LA, Sprev, k, v, alpha, beta));
  }

  /** The alignment after adding `v kᵀ` to `Sprev`. */
  lemma {:induction false} HebbianAlignAt(Sprev: Mat, k: Vec, v: Vec, S: Mat)
    requires Inputs(Sprev, k, v) && S == MatAdd(Sprev, Outer(v, k))
    ensures Align(S, k, v) == Align(Sprev, k, v) + NormSq(k) * NormSq(v)
    ensures Align(Sprev, k, v) <= Align(S, k, v)
  {
    var Sk := MatVec(Sprev, k);
    assert MatVec(S, k) == VecAdd(Sk, VecScale(v, NormSq(k))) by {
      MatVecAdd(Sprev, Outer(v, k), k);
      MatVecOuterSelf(v, k);
    }
    DotAddL(Sk, VecScale(v, NormSq(k)), v);
    DotScaleL(v, NormSq(k), v);
  }
}
