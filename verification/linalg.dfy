/**
  Dense real vectors and matrices: the primitives every demo re-implements
  inline (dot, outer, matVecMul, matMul, matAdd/matSub/matScale, transpose,
  identity, frobNormSq).  A vector is a sequence of reals, a matrix a
  sequence of rows.  Every number is a `real`, so the identities the demos
  check up to a floating-point tolerance hold exactly here.

  The square root and the exponential are not definable here; the demos that
  need them receive them as function parameters, constrained only by the
  predicates IsSqrt and IsExp below.
*/
module LinAlg {

  type Vec = seq<real>
  type Mat = seq<Vec>

  /** `M` has `rows` rows of `cols` entries each. */
  predicate IsMat(M: Mat, rows: nat, cols: nat) {
    |M| == rows && forall i :: 0 <= i < rows ==> |M[i]| == cols
  }

  /** `M` is a non-empty rectangular matrix (the helpers that read `M[0].length` need one). */
  predicate IsRect(M: Mat) {
    |M| > 0 && IsMat(M, |M|, |M[0]|)
  }

  /** The minimal properties of `Math.sqrt` on the non-negative reals. */
  ghost predicate IsSqrt(sqrt: real -> real) {
    forall x :: 0.0 <= x ==> 0.0 <= sqrt(x) && sqrt(x) * sqrt(x) == x
  }

  /** The minimal property of `Math.exp`: it is positive everywhere. */
  ghost predicate IsExp(exp: real -> real) {
    forall x :: 0.0 < exp(x)
  }

  // ---------------------------------------------------------------------
  // Constructors
  // ---------------------------------------------------------------------

  function ZeroVec(n: nat): (r: Vec)
    ensures |r| == n && forall i :: 0 <= i < n ==> r[i] == 0.0
  {
    seq(n, i => 0.0)
  }

  function Zeros(rows: nat, cols: nat): (r: Mat)
    ensures IsMat(r, rows, cols)
    ensures forall i, j :: 0 <= i < rows && 0 <= j < cols ==> r[i][j] == 0.0
  {
    seq(rows, i => ZeroVec(cols))
  }

  /** The `j`-th standard basis vector of length `n`. */
  function UnitVec(n: nat, j: nat): (r: Vec)
    ensures |r| == n
  {
    seq(n, i => if i == j then 1.0 else 0.0)
  }

  function Identity(n: nat): (r: Mat)
    ensures IsMat(r, n, n)
  {
    seq(n, i requires 0 <= i < n => UnitVec(n, i))
  }

  // ---------------------------------------------------------------------
  // Vector operations
  // ---------------------------------------------------------------------

  /** Left fold `sum + a[i] * b[i]` from 0, as `a.reduce(...)` computes it. */
  function Dot(a: Vec, b: Vec): real
    requires |a| == |b|
    decreases |a|
  {
    if |a| == 0 then 0.0 else Dot(a[..|a| - 1], b[..|b| - 1]) + a[|a| - 1] * b[|b| - 1]
  }

  /** `‖a‖²`, never negative. */
  function NormSq(a: Vec): (r: real)
    ensures 0.0 <= r
  {
    DotSelfNonneg(a);
    Dot(a, a)
  }

  function Sum(a: Vec): real
    decreases |a|
  {
    if |a| == 0 then 0.0 else Sum(a[..|a| - 1]) + a[|a| - 1]
  }

  function VecAdd(a: Vec, b: Vec): (r: Vec)
    requires |a| == |b|
    ensures |r| == |a|
  {
    seq(|a|, i requires 0 <= i < |a| => a[i] + b[i])
  }

  function VecSub(a: Vec, b: Vec): (r: Vec)
    requires |a| == |b|
    ensures |r| == |a|
  {
    seq(|a|, i requires 0 <= i < |a| => a[i] - b[i])
  }

  function VecScale(a: Vec, s: real): (r: Vec)
    ensures |r| == |a|
  {
    seq(|a|, i requires 0 <= i < |a| => a[i] * s)
  }

  // ---------------------------------------------------------------------
  // Matrix operations
  // ---------------------------------------------------------------------

  /** `a bᵀ`: entry `[i][j]` is `a[i] * b[j]`. */
  function Outer(a: Vec, b: Vec): (r: Mat)
    ensures IsMat(r, |a|, |b|)
  {
    seq(|a|, i requires 0 <= i < |a| => seq(|b|, j requires 0 <= j < |b| => a[i] * b[j]))
  }

  function MatAdd(A: Mat, B: Mat): (r: Mat)
    requires |A| == |B| && forall i :: 0 <= i < |A| ==> |A[i]| == |B[i]|
    ensures |r| == |A| && forall i :: 0 <= i < |A| ==> |r[i]| == |A[i]|
  {
    seq(|A|, i requires 0 <= i < |A| => VecAdd(A[i], B[i]))
  }

  function MatSub(A: Mat, B: Mat): (r: Mat)
    requires |A| == |B| && forall i :: 0 <= i < |A| ==> |A[i]| == |B[i]|
    ensures |r| == |A| && forall i :: 0 <= i < |A| ==> |r[i]| == |A[i]|
  {
    seq(|A|, i requires 0 <= i < |A| => VecSub(A[i], B[i]))
  }

  function MatScale(A: Mat, s: real): (r: Mat)
    ensures |r| == |A| && forall i :: 0 <= i < |A| ==> |r[i]| == |A[i]|
  {
    seq(|A|, i requires 0 <= i < |A| => VecScale(A[i], s))
  }

  /** `M v`: entry `i` is the dot product of row `i` with `v`. */
  function MatVec(M: Mat, v: Vec): (r: Vec)
    requires forall i :: 0 <= i < |M| ==> |M[i]| == |v|
    ensures |r| == |M|
  {
    seq(|M|, i requires 0 <= i < |M| => Dot(M[i], v))
  }

  /** Column `j` of `M`, as `M.map(row => row[j])` builds it. */
  function Col(M: Mat, j: nat): (r: Vec)
    requires forall i :: 0 <= i < |M| ==> j < |M[i]|
    ensures |r| == |M|
  {
    seq(|M|, i requires 0 <= i < |M| => M[i][j])
  }

  /** `matrix[0].map((_, c) => matrix.map(row => row[c]))`. */
  function Transpose(M: Mat): (r: Mat)
    requires IsRect(M)
    ensures IsMat(r, |M[0]|, |M|)
  {
    seq(|M[0]|, j requires 0 <= j < |M[0]| => Col(M, j))
  }

  /** `wᵀ M`: entry `j` is the dot product of `w` with column `j`. */
  function VecMat(w: Vec, M: Mat): (r: Vec)
    requires IsRect(M) && |w| == |M|
    ensures |r| == |M[0]|
  {
    seq(|M[0]|, j requires 0 <= j < |M[0]| => Dot(w, Col(M, j)))
  }

  /** `A B`: row `i` is `A[i]ᵀ B`, so entry `[i][j]` is `Σ_k A[i][k] B[k][j]`. */
  function MatMul(A: Mat, B: Mat): (r: Mat)
    requires IsRect(B) && forall i :: 0 <= i < |A| ==> |A[i]| == |B|
    ensures IsMat(r, |A|, |B[0]|)
  {
    seq(|A|, i requires 0 <= i < |A| => VecMat(A[i], B))
  }

  /** Sum of the squares of all entries, row by row. */
  function FrobSq(M: Mat): real
    decreases |M|
  {
    if |M| == 0 then 0.0 else FrobSq(M[..|M| - 1]) + NormSq(M[|M| - 1])
  }

  /** The Frobenius inner product `Σ_ij A_ij B_ij`, row by row. */
  function FrobInner(A: Mat, B: Mat): real
    requires |A| == |B| && forall i :: 0 <= i < |A| ==> |A[i]| == |B[i]|
    decreases |A|
  {
    if |A| == 0 then 0.0 else FrobInner(A[..|A| - 1], B[..|B| - 1]) + Dot(A[|A| - 1], B[|B| - 1])
  }

  // ---------------------------------------------------------------------
  // Lemmas about dot products and sums
  // ---------------------------------------------------------------------

  lemma {:induction false} DotSymm(a: Vec, b: Vec)
    requires |a| == |b|
    ensures Dot(a, b) == Dot(b, a)
  {
    if |a| > 0 {
      DotSymm(a[..|a| - 1], b[..|b| - 1]);
    }
  }

  lemma {:induction false} DotAddL(a: Vec, b: Vec, c: Vec)
    requires |a| == |b| == |c|
    ensures Dot(VecAdd(a, b), c) == Dot(a, c) + Dot(b, c)
  {
    if |a| > 0 {
      var n := |a| - 1;
      assert VecAdd(a, b)[..n] == VecAdd(a[..n], b[..n]);
      DotAddL(a[..n], b[..n], c[..n]);
    }
  }

  lemma {:induction false} DotSubL(a: Vec, b: Vec, c: Vec)
    requires |a| == |b| == |c|
    ensures Dot(VecSub(a, b), c) == Dot(a, c) - Dot(b, c)
  {
    if |a| > 0 {
      var n := |a| - 1;
      assert VecSub(a, b)[..n] == VecSub(a[..n], b[..n]);
      DotSubL(a[..n], b[..n], c[..n]);
    }
  }

  lemma {:induction false} DotScaleL(a: Vec, s: real, b: Vec)
    requires |a| == |b|
    ensures Dot(VecScale(a, s), b) == s * Dot(a, b)
  {
    if |a| > 0 {
      var n := |a| - 1;
      VecScalePrefix(a, s, n);
      DotScaleL(a[..n], s, b[..n]);
    }
  }

  lemma {:induction false} VecScalePrefix(a: Vec, s: real, n: nat)
    requires n <= |a|
    ensures VecScale(a, s)[..n] == VecScale(a[..n], s)
  {
    forall i | 0 <= i < n
      ensures VecScale(a, s)[..n][i] == VecScale(a[..n], s)[i]
    {
      assert a[..n][i] == a[i];
    }
  }

  /** Scaling twice is scaling by the product; the product is passed in as `c`. */
  lemma {:induction false} VecScaleScale(v: Vec, a: real, b: real, c: real)
    requires c == b * a
    ensures VecScale(VecScale(v, a), b) == VecScale(v, c)
  {
    forall i | 0 <= i < |v|
      ensures VecScale(VecScale(v, a), b)[i] == VecScale(v, c)[i]
    {
      assert (v[i] * a) * b == v[i] * (b * a);
    }
  }

  lemma {:induction false} DotScaleR(a: Vec, b: Vec, s: real)
    requires |a| == |b|
    ensures Dot(a, VecScale(b, s)) == s * Dot(a, b)
  {
    var bs := VecScale(b, s);
    calc {
      Dot(a, bs);
      { DotSymm(a, bs); }
      Dot(bs, a);
      { DotScaleL(b, s, a); }
      s * Dot(b, a);
      { DotSymm(a, b); }
      s * Dot(a, b);
    }
  }

  lemma {:induction false} DotZeroL(n: nat, b: Vec)
    requires |b| == n
    ensures Dot(ZeroVec(n), b) == 0.0
  {
    if n > 0 {
      assert ZeroVec(n)[..n - 1] == ZeroVec(n - 1);
      DotZeroL(n - 1, b[..n - 1]);
    }
  }

  /** Dotting with the `j`-th basis vector picks entry `j`. */
  lemma {:induction false} DotUnitR(r: Vec, j: nat)
    requires j < |r|
    ensures Dot(r, UnitVec(|r|, j)) == r[j]
  {
    DotUnitPrefix(r, j, |r|);
    assert r[..|r|] == r;
    assert UnitVec(|r|, j)[..|r|] == UnitVec(|r|, j);
  }

  lemma {:induction false} DotUnitPrefix(r: Vec, j: nat, m: nat)
    requires j < |r| && m <= |r|
    ensures Dot(r[..m], UnitVec(|r|, j)[..m]) == if j < m then r[j] else 0.0
  {
    if m > 0 {
      assert r[..m][..m - 1] == r[..m - 1];
      assert UnitVec(|r|, j)[..m][..m - 1] == UnitVec(|r|, j)[..m - 1];
      DotUnitPrefix(r, j, m - 1);
    }
  }

  lemma {:induction false} DotSelfNonneg(a: Vec)
    ensures 0.0 <= Dot(a, a)
  {
    if |a| > 0 {
      DotSelfNonneg(a[..|a| - 1]);
    }
  }

  lemma {:induction false} NormSqScale(a: Vec, s: real)
    ensures NormSq(VecScale(a, s)) == s * s * NormSq(a)
  {
    DotScaleL(a, s, VecScale(a, s));
    DotScaleR(a, a, s);
  }

  lemma {:induction false} SumScale(a: Vec, s: real)
    ensures Sum(VecScale(a, s)) == s * Sum(a)
  {
    if |a| > 0 {
      var n := |a| - 1;
      VecScalePrefix(a, s, n);
      SumScale(a[..n], s);
    }
  }

  lemma {:induction false} SumPositive(a: Vec)
    requires forall i :: 0 <= i < |a| ==> 0.0 < a[i]
    ensures |a| > 0 ==> 0.0 < Sum(a)
    ensures 0.0 <= Sum(a)
  {
    if |a| > 0 {
      SumPositive(a[..|a| - 1]);
    }
  }

  // ---------------------------------------------------------------------
  // Lemmas about matrices
  // ---------------------------------------------------------------------

  /** Two matrices of the same shape with the same entries are equal. */
  lemma {:induction false} MatExt(A: Mat, B: Mat, rows: nat, cols: nat)
    requires IsMat(A, rows, cols) && IsMat(B, rows, cols)
    requires forall i, j :: 0 <= i < rows && 0 <= j < cols ==> A[i][j] == B[i][j]
    ensures A == B
  {
    forall i | 0 <= i < rows
      ensures A[i] == B[i]
    {
      assert forall j :: 0 <= j < cols ==> A[i][j] == B[i][j];
    }
  }

  lemma {:induction false} OuterRow(a: Vec, b: Vec, i: nat)
    requires i < |a|
    ensures Outer(a, b)[i] == VecScale(b, a[i])
  {
  }

  /** `(a bᵀ) x = (b·x) a`. */
  lemma {:induction false} MatVecOuter(a: Vec, b: Vec, x: Vec)
    requires |b| == |x|
    ensures MatVec(Outer(a, b), x) == VecScale(a, Dot(b, x))
  {
    forall i | 0 <= i < |a|
      ensures MatVec(Outer(a, b), x)[i] == VecScale(a, Dot(b, x))[i]
    {
      OuterRow(a, b, i);
      DotScaleL(b, a[i], x);
    }
  }

  lemma {:induction false} MatVecAdd(A: Mat, B: Mat, x: Vec)
    requires IsMat(A, |A|, |x|) && IsMat(B, |A|, |x|)
    ensures MatVec(MatAdd(A, B), x) == VecAdd(MatVec(A, x), MatVec(B, x))
  {
    forall i | 0 <= i < |A|
      ensures MatVec(MatAdd(A, B), x)[i] == VecAdd(MatVec(A, x), MatVec(B, x))[i]
    {
      DotAddL(A[i], B[i], x);
    }
  }

  lemma {:induction false} MatVecSub(A: Mat, B: Mat, x: Vec)
    requires IsMat(A, |A|, |x|) && IsMat(B, |A|, |x|)
    ensures MatVec(MatSub(A, B), x) == VecSub(MatVec(A, x), MatVec(B, x))
  {
    forall i | 0 <= i < |A|
      ensures MatVec(MatSub(A, B), x)[i] == VecSub(MatVec(A, x), MatVec(B, x))[i]
    {
      DotSubL(A[i], B[i], x);
    }
  }

  lemma {:induction false} MatVecScale(A: Mat, s: real, x: Vec)
    requires IsMat(A, |A|, |x|)
    ensures MatVec(MatScale(A, s), x) == VecScale(MatVec(A, x), s)
  {
    forall i | 0 <= i < |A|
      ensures MatVec(MatScale(A, s), x)[i] == VecScale(MatVec(A, x), s)[i]
    {
      DotScaleL(A[i], s, x);
    }
  }

  lemma {:induction false} MatVecZeros(rows: nat, x: Vec)
    ensures MatVec(Zeros(rows, |x|), x) == ZeroVec(rows)
  {
    forall i | 0 <= i < rows
      ensures MatVec(Zeros(rows, |x|), x)[i] == 0.0
    {
      DotZeroL(|x|, x);
    }
  }

  lemma {:induction false} ColOuter(a: Vec, b: Vec, j: nat)
    requires j < |b|
    ensures Col(Outer(a, b), j) == VecScale(a, b[j])
  {
    forall i | 0 <= i < |a|
      ensures Col(Outer(a, b), j)[i] == VecScale(a, b[j])[i]
    {
      assert Outer(a, b)[i][j] == a[i] * b[j];
    }
  }

  lemma {:induction false} ColIdentity(n: nat, j: nat)
    requires j < n
    ensures Col(Identity(n), j) == UnitVec(n, j)
  {
    forall i | 0 <= i < n
      ensures Col(Identity(n), j)[i] == UnitVec(n, j)[i]
    {
      assert Identity(n)[i] == UnitVec(n, i);
    }
  }

  lemma {:induction false} ColSub(B: Mat, C: Mat, j: nat)
    requires |B| == |C| && forall i :: 0 <= i < |B| ==> |B[i]| == |C[i]| && j < |B[i]|
    ensures Col(MatSub(B, C), j) == VecSub(Col(B, j), Col(C, j))
  {
  }

  lemma {:induction false} ColScale(B: Mat, s: real, j: nat)
    requires forall i :: 0 <= i < |B| ==> j < |B[i]|
    ensures Col(MatScale(B, s), j) == VecScale(Col(B, j), s)
  {
    forall i | 0 <= i < |B|
      ensures Col(MatScale(B, s), j)[i] == VecScale(Col(B, j), s)[i]
    {
      assert MatScale(B, s)[i] == VecScale(B[i], s);
      assert Col(B, j)[i] == B[i][j];
    }
  }

  /** `A I = A`. */
  lemma {:induction false} MatMulIdentityR(A: Mat, n: nat)
    requires n > 0 && IsMat(A, |A|, n)
    ensures MatMul(A, Identity(n)) == A
  {
    forall i, j | 0 <= i < |A| && 0 <= j < n
      ensures MatMul(A, Identity(n))[i][j] == A[i][j]
    {
      ColIdentity(n, j);
      DotUnitR(A[i], j);
    }
    MatExt(MatMul(A, Identity(n)), A, |A|, n);
  }

  /** `I M = M`. */
  lemma {:induction false} MatMulIdentityL(M: Mat)
    requires IsRect(M)
    ensures MatMul(Identity(|M|), M) == M
  {
    var n := |M|;
    forall i, j | 0 <= i < n && 0 <= j < |M[0]|
      ensures MatMul(Identity(n), M)[i][j] == M[i][j]
    {
      DotSymm(UnitVec(n, i), Col(M, j));
      DotUnitR(Col(M, j), i);
    }
    MatExt(MatMul(Identity(n), M), M, n, |M[0]|);
  }

  /** `(s A) B = s (A B)`. */
  lemma {:induction false} MatMulScaleL(A: Mat, s: real, B: Mat)
    requires IsRect(B) && IsMat(A, |A|, |B|)
    ensures MatMul(MatScale(A, s), B) == MatScale(MatMul(A, B), s)
  {
    forall i, j | 0 <= i < |A| && 0 <= j < |B[0]|
      ensures MatMul(MatScale(A, s), B)[i][j] == MatScale(MatMul(A, B), s)[i][j]
    {
      DotScaleL(A[i], s, Col(B, j));
    }
    MatExt(MatMul(MatScale(A, s), B), MatScale(MatMul(A, B), s), |A|, |B[0]|);
  }

  /** `A (s B) = s (A B)`. */
  lemma {:induction false} MatMulScaleR(A: Mat, B: Mat, s: real)
    requires IsRect(B) && IsMat(A, |A|, |B|)
    ensures MatMul(A, MatScale(B, s)) == MatScale(MatMul(A, B), s)
  {
    forall i, j | 0 <= i < |A| && 0 <= j < |B[0]|
      ensures MatMul(A, MatScale(B, s))[i][j] == MatScale(MatMul(A, B), s)[i][j]
    {
      ColScale(B, s, j);
      DotScaleR(A[i], Col(B, j), s);
    }
    MatExt(MatMul(A, MatScale(B, s)), MatScale(MatMul(A, B), s), |A|, |B[0]|);
  }

  /** `A (B - C) = A B - A C`. */
  lemma {:induction false} MatMulSubR(A: Mat, B: Mat, C: Mat)
    requires IsRect(B) && IsMat(C, |B|, |B[0]|) && IsMat(A, |A|, |B|)
    ensures MatMul(A, MatSub(B, C)) == MatSub(MatMul(A, B), MatMul(A, C))
  {
    forall i, j | 0 <= i < |A| && 0 <= j < |B[0]|
      ensures MatMul(A, MatSub(B, C))[i][j] == MatSub(MatMul(A, B), MatMul(A, C))[i][j]
    {
      ColSub(B, C, j);
      DotSymm(A[i], VecSub(Col(B, j), Col(C, j)));
      DotSubL(Col(B, j), Col(C, j), A[i]);
      DotSymm(A[i], Col(B, j));
      DotSymm(A[i], Col(C, j));
    }
    MatExt(MatMul(A, MatSub(B, C)), MatSub(MatMul(A, B), MatMul(A, C)), |A|, |B[0]|);
  }

  /** `A (a bᵀ) = (A a) bᵀ`. */
  lemma {:induction false} MatMulOuterR(A: Mat, a: Vec, b: Vec)
    requires |a| > 0 && |b| > 0 && IsMat(A, |A|, |a|)
    ensures MatMul(A, Outer(a, b)) == Outer(MatVec(A, a), b)
  {
    forall i, j | 0 <= i < |A| && 0 <= j < |b|
      ensures MatMul(A, Outer(a, b))[i][j] == Outer(MatVec(A, a), b)[i][j]
    {
      ColOuter(a, b, j);
      DotScaleR(A[i], a, b[j]);
    }
    MatExt(MatMul(A, Outer(a, b)), Outer(MatVec(A, a), b), |A|, |b|);
  }

  /** `A (I - c k kᵀ) = A - c (A k) kᵀ`: the erase step shared by the delta rules. */
  lemma {:induction false} MatMulEraseR(A: Mat, k: Vec, c: real)
    requires |k| > 0 && IsMat(A, |A|, |k|)
    ensures MatMul(A, MatSub(Identity(|k|), MatScale(Outer(k, k), c)))
         == MatSub(A, MatScale(Outer(MatVec(A, k), k), c))
  {
    var n := |k|;
    MatMulSubR(A, Identity(n), MatScale(Outer(k, k), c));
    MatMulIdentityR(A, n);
    MatMulScaleR(A, Outer(k, k), c);
    MatMulOuterR(A, k, k);
  }

  /** `‖a bᵀ‖²_F = ‖a‖² ‖b‖²`. */
  lemma {:induction false} FrobOuter(a: Vec, b: Vec)
    ensures FrobSq(Outer(a, b)) == NormSq(a) * NormSq(b)
  {
    if |a| > 0 {
      var n := |a| - 1;
      assert Outer(a, b)[..n] == Outer(a[..n], b);
      FrobOuter(a[..n], b);
      OuterRow(a, b, n);
      NormSqScale(b, a[n]);
    }
  }

  lemma {:induction false} FrobScale(M: Mat, s: real)
    ensures FrobSq(MatScale(M, s)) == s * s * FrobSq(M)
  {
    FrobScaleInduct(M, s);
  }

  lemma {:induction false} FrobScaleInduct(M: Mat, s: real)
    ensures FrobSq(MatScale(M, s)) == s * s * FrobSq(M)
  {
    if |M| > 0 {
      var n := |M| - 1;
      assert MatScale(M, s)[..n] == MatScale(M[..n], s);
      FrobScaleInduct(M[..n], s);
      NormSqScale(M[n], s);
    }
  }

  lemma {:induction false} FrobNonneg(M: Mat)
    ensures 0.0 <= FrobSq(M)
  {
    if |M| > 0 {
      FrobNonneg(M[..|M| - 1]);
      DotSelfNonneg(M[|M| - 1]);
    }
  }

  lemma {:induction false} ColTranspose(M: Mat, i: nat)
    requires IsRect(M) && i < |M|
    ensures Col(Transpose(M), i) == M[i]
  {
  }

  /** Transposition swaps the dimensions and is an involution. */
  lemma {:induction false} TransposeTranspose(M: Mat)
    requires IsRect(M) && |M[0]| > 0
    ensures IsRect(Transpose(M)) && IsMat(Transpose(M), |M[0]|, |M|)
    ensures Transpose(Transpose(M)) == M
  {
    forall i | 0 <= i < |M|
      ensures Transpose(Transpose(M))[i] == M[i]
    {
      ColTranspose(M, i);
    }
  }

  // ---------------------------------------------------------------------
  // Lemmas used by the update rules and the accumulation loops
  // ---------------------------------------------------------------------

  /** One more step of the left fold that defines Dot. */
  lemma {:induction false} DotPrefixStep(a: Vec, b: Vec, k: nat)
    requires |a| == |b| && k < |a|
    ensures Dot(a[..k + 1], b[..k + 1]) == Dot(a[..k], b[..k]) + a[k] * b[k]
  {
    assert a[..k + 1][..k] == a[..k];
    assert b[..k + 1][..k] == b[..k];
  }

  lemma {:induction false} NormSqAdd(a: Vec, b: Vec)
    requires |a| == |b|
    ensures NormSq(VecAdd(a, b)) == NormSq(a) + 2.0 * Dot(a, b) + NormSq(b)
  {
    var ab := VecAdd(a, b);
    DotAddL(a, b, ab);
    DotSymm(a, ab);
    DotSymm(b, ab);
    DotAddL(a, b, a);
    DotAddL(a, b, b);
    DotSymm(a, b);
  }

  /** Swapping the operands of a subtraction flips its sign, which squaring forgets. */
  lemma {:induction false} NormSqSubSwap(a: Vec, b: Vec)
    requires |a| == |b|
    ensures VecSub(b, a) == VecScale(VecSub(a, b), -1.0)
    ensures NormSq(VecSub(b, a)) == NormSq(VecSub(a, b))
  {
    assert VecSub(b, a) == VecScale(VecSub(a, b), -1.0);
    NormSqScale(VecSub(a, b), -1.0);
  }

  lemma {:induction false} MatAddSubCancel(A: Mat, B: Mat)
    requires |A| == |B| && forall i :: 0 <= i < |A| ==> |A[i]| == |B[i]|
    ensures MatAdd(A, MatSub(B, A)) == B
  {
    forall i | 0 <= i < |A|
      ensures MatAdd(A, MatSub(B, A))[i] == B[i]
    {
    }
  }

  lemma {:induction false} MatSubSelf(A: Mat, rows: nat, cols: nat)
    requires IsMat(A, rows, cols)
    ensures MatSub(A, A) == Zeros(rows, cols)
  {
    forall i | 0 <= i < rows
      ensures MatSub(A, A)[i] == Zeros(rows, cols)[i]
    {
    }
  }

  lemma {:induction false} MatScaleOne(A: Mat)
    ensures MatScale(A, 1.0) == A
  {
    forall i | 0 <= i < |A|
      ensures MatScale(A, 1.0)[i] == A[i]
    {
    }
  }

  lemma {:induction false} MatAddZerosR(A: Mat, rows: nat, cols: nat)
    requires IsMat(A, rows, cols)
    ensures MatAdd(A, Zeros(rows, cols)) == A
  {
    forall i | 0 <= i < rows
      ensures MatAdd(A, Zeros(rows, cols))[i] == A[i]
    {
    }
  }

  lemma {:induction false} MatScaleZero(A: Mat, rows: nat, cols: nat)
    requires IsMat(A, rows, cols)
    ensures MatScale(A, 0.0) == Zeros(rows, cols)
  {
    forall i | 0 <= i < rows
      ensures MatScale(A, 0.0)[i] == Zeros(rows, cols)[i]
    {
    }
  }

  lemma {:induction false} FrobZeros(rows: nat, cols: nat)
    ensures FrobSq(Zeros(rows, cols)) == 0.0
  {
    if rows > 0 {
      assert Zeros(rows, cols)[..rows - 1] == Zeros(rows - 1, cols);
      FrobZeros(rows - 1, cols);
      DotZeroL(cols, ZeroVec(cols));
    }
  }

  /** `‖E + u kᵀ‖²_F = ‖E‖²_F + 2 ⟨E k, u⟩ + ‖u‖² ‖k‖²`. */
  lemma {:induction false} FrobSqAddOuter(E: Mat, u: Vec, k: Vec)
    requires IsMat(E, |u|, |k|)
    ensures FrobSq(MatAdd(E, Outer(u, k)))
         == FrobSq(E) + 2.0 * Dot(MatVec(E, k), u) + NormSq(u) * NormSq(k)
  {
    FrobSqAdd(MatAdd(E, Outer(u, k)), E, Outer(u, k));
    FrobInnerOuter(E, u, k);
    FrobOuter(u, k);
  }

  /** `‖E + O‖²_F = ‖E‖²_F + 2 ⟨E, O⟩_F + ‖O‖²_F`, for any M whose rows are those of E + O. */
  lemma {:induction false} FrobSqAdd(M: Mat, E: Mat, O: Mat)
    requires |M| == |E| == |O|
    requires forall i :: 0 <= i < |M| ==> |E[i]| == |O[i]| && M[i] == VecAdd(E[i], O[i])
    ensures FrobSq(M) == FrobSq(E) + 2.0 * FrobInner(E, O) + FrobSq(O)
  {
    if |M| > 0 {
      var n := |M| - 1;
      FrobSqAdd(M[..n], E[..n], O[..n]);
      NormSqAdd(E[n], O[n]);
    }
  }

  /** `⟨E, u kᵀ⟩_F = ⟨E k, u⟩`. */
  lemma {:induction false} FrobInnerOuter(E: Mat, u: Vec, k: Vec)
    requires IsMat(E, |u|, |k|)
    ensures FrobInner(E, Outer(u, k)) == Dot(MatVec(E, k), u)
  {
    if |u| > 0 {
      var n := |u| - 1;
      assert Outer(u, k)[..n] == Outer(u[..n], k);
      assert MatVec(E, k)[..n] == MatVec(E[..n], k);
      FrobInnerOuter(E[..n], u[..n], k);
      OuterRow(u, k, n);
      DotScaleR(E[n], k, u[n]);
    }
  }

  /** `A - c (A k) kᵀ + c v kᵀ = A + (c (v - A k)) kᵀ`: erase-then-write as one outer-product correction. */
  lemma {:induction false} EraseWrite(A: Mat, k: Vec, v: Vec, c: real)
    requires IsMat(A, |v|, |k|)
    ensures MatAdd(MatSub(A, MatScale(Outer(MatVec(A, k), k), c)), MatScale(Outer(v, k), c))
         == MatAdd(A, Outer(VecScale(VecSub(v, MatVec(A, k)), c), k))
  {
    var Ak := MatVec(A, k);
    var L := MatAdd(MatSub(A, MatScale(Outer(Ak, k), c)), MatScale(Outer(v, k), c));
    var R := MatAdd(A, Outer(VecScale(VecSub(v, Ak), c), k));
    forall i, j | 0 <= i < |v| && 0 <= j < |k|
      ensures L[i][j] == R[i][j]
    {
      assert MatScale(Outer(Ak, k), c)[i][j] == (Ak[i] * k[j]) * c;
      assert MatScale(Outer(v, k), c)[i][j] == (v[i] * k[j]) * c;
      assert Outer(VecScale(VecSub(v, Ak), c), k)[i][j] == ((v[i] - Ak[i]) * c) * k[j];
    }
    MatExt(L, R, |v|, |k|);
  }

  lemma {:induction false} MatSubZerosR(A: Mat, rows: nat, cols: nat)
    requires IsMat(A, rows, cols)
    ensures MatSub(A, Zeros(rows, cols)) == A
  {
    forall i | 0 <= i < rows
      ensures MatSub(A, Zeros(rows, cols))[i] == A[i]
    {
    }
  }

  /** `S - B = (S - (B + O)) + O`. */
  lemma {:induction false} MatSubAddRight(S: Mat, B: Mat, O: Mat, rows: nat, cols: nat)
    requires IsMat(S, rows, cols) && IsMat(B, rows, cols) && IsMat(O, rows, cols)
    ensures MatSub(S, B) == MatAdd(MatSub(S, MatAdd(B, O)), O)
  {
    forall i, j | 0 <= i < rows && 0 <= j < cols
      ensures MatSub(S, B)[i][j] == MatAdd(MatSub(S, MatAdd(B, O)), O)[i][j]
    {
    }
    MatExt(MatSub(S, B), MatAdd(MatSub(S, MatAdd(B, O)), O), rows, cols);
  }

  /** `(B + O) - B = O`. */
  lemma {:induction false} MatAddSubLeft(B: Mat, O: Mat, rows: nat, cols: nat)
    requires IsMat(B, rows, cols) && IsMat(O, rows, cols)
    ensures MatSub(MatAdd(B, O), B) == O
  {
    forall i, j | 0 <= i < rows && 0 <= j < cols
      ensures MatSub(MatAdd(B, O), B)[i][j] == O[i][j]
    {
    }
    MatExt(MatSub(MatAdd(B, O), B), O, rows, cols);
  }

  /** `(a + b) - v = b + (a - v)`. */
  lemma {:induction false} VecSubAddSwap(a: Vec, b: Vec, v: Vec)
    requires |a| == |b| == |v|
    ensures VecSub(VecAdd(a, b), v) == VecAdd(b, VecSub(a, v))
  {
  }

  /**
    Writing `c (v - A k)` along `k` scales the prediction error on `k` by
    `1 - c ‖k‖²`: `(A + c (v - A k) kᵀ) k - v = (1 - c ‖k‖²) (A k - v)`.
  */
  lemma {:induction false} RankOneResidual(A: Mat, k: Vec, v: Vec, c: real)
    requires IsMat(A, |v|, |k|)
    ensures VecSub(MatVec(MatAdd(A, Outer(VecScale(VecSub(v, MatVec(A, k)), c), k)), k), v)
         == VecScale(VecSub(MatVec(A, k), v), 1.0 - c * NormSq(k))
  {
    var Ak := MatVec(A, k);
    var w := VecScale(VecSub(v, Ak), c);
    var N := MatAdd(A, Outer(w, k));
    var g := 1.0 - c * NormSq(k);
    MatVecAdd(A, Outer(w, k), k);
    MatVecOuter(w, k, k);
    forall i | 0 <= i < |v|
      ensures VecSub(MatVec(N, k), v)[i] == VecScale(VecSub(Ak, v), g)[i]
    {
      assert MatVec(N, k)[i] == Ak[i] + w[i] * NormSq(k);
      ResidualArith(Ak[i], v[i], c, NormSq(k), w[i]);
    }
    assert VecSub(MatVec(N, k), v) == VecScale(VecSub(Ak, v), g);
  }

  lemma {:induction false} ResidualArith(a: real, b: real, c: real, n: real, w: real)
    requires w == (b - a) * c
    ensures (a + w * n) - b == (a - b) * (1.0 - c * n)
  {
  }

  lemma {:induction false} ColAdd(A: Mat, B: Mat, j: nat)
    requires IsRect(A) && IsMat(B, |A|, |A[0]|) && j < |A[0]|
    ensures Col(MatAdd(A, B), j) == VecAdd(Col(A, j), Col(B, j))
  {
  }

  /** `A (B + C) = A B + A C`. */
  lemma {:induction false} MatMulAddR(A: Mat, B: Mat, C: Mat)
    requires IsRect(B) && IsMat(C, |B|, |B[0]|) && IsMat(A, |A|, |B|)
    ensures MatMul(A, MatAdd(B, C)) == MatAdd(MatMul(A, B), MatMul(A, C))
  {
    forall i, j | 0 <= i < |A| && 0 <= j < |B[0]|
      ensures MatMul(A, MatAdd(B, C))[i][j] == MatAdd(MatMul(A, B), MatMul(A, C))[i][j]
    {
      ColAdd(B, C, j);
      DotSymm(A[i], VecAdd(Col(B, j), Col(C, j)));
      DotAddL(Col(B, j), Col(C, j), A[i]);
      DotSymm(A[i], Col(B, j));
      DotSymm(A[i], Col(C, j));
    }
    MatExt(MatMul(A, MatAdd(B, C)), MatAdd(MatMul(A, B), MatMul(A, C)), |A|, |B[0]|);
  }

  /** `A (I + c k kᵀ) = A + c (A k) kᵀ`. */
  lemma {:induction false} MatMulGrowR(A: Mat, k: Vec, c: real)
    requires |k| > 0 && IsMat(A, |A|, |k|)
    ensures MatMul(A, MatAdd(Identity(|k|), MatScale(Outer(k, k), c)))
         == MatAdd(A, MatScale(Outer(MatVec(A, k), k), c))
  {
    var n := |k|;
    MatMulAddR(A, Identity(n), MatScale(Outer(k, k), c));
    MatMulIdentityR(A, n);
    MatMulScaleR(A, Outer(k, k), c);
    MatMulOuterR(A, k, k);
  }

  /** MatVecOuter with the key on both sides, its factor written as a squared norm. */
  lemma {:induction false} MatVecOuterSelf(a: Vec, k: Vec)
    ensures MatVec(Outer(a, k), k) == VecScale(a, NormSq(k))
  {
    MatVecOuter(a, k, k);
  }

  /** Scaling distributes over a sum of matrices. */
  lemma {:induction false} MatScaleAdd(A: Mat, B: Mat, s: real, rows: nat, cols: nat)
    requires IsMat(A, rows, cols) && IsMat(B, rows, cols)
    ensures MatScale(MatAdd(A, B), s) == MatAdd(MatScale(A, s), MatScale(B, s))
  {
    forall i, j | 0 <= i < rows && 0 <= j < cols
      ensures MatScale(MatAdd(A, B), s)[i][j] == MatAdd(MatScale(A, s), MatScale(B, s))[i][j]
    {
      assert (A[i][j] + B[i][j]) * s == A[i][j] * s + B[i][j] * s;
    }
    MatExt(MatScale(MatAdd(A, B), s), MatAdd(MatScale(A, s), MatScale(B, s)), rows, cols);
  }

  /** `qᵀ 0 = 0`. */
  lemma {:induction false} VecMatZeros(q: Vec, cols: nat)
    requires |q| > 0 && cols > 0
    ensures VecMat(q, Zeros(|q|, cols)) == ZeroVec(cols)
  {
    forall j | 0 <= j < cols
      ensures VecMat(q, Zeros(|q|, cols))[j] == 0.0
    {
      assert Col(Zeros(|q|, cols), j) == ZeroVec(|q|);
      DotSymm(q, ZeroVec(|q|));
      DotZeroL(|q|, q);
    }
  }

  /** `qᵀ (S + k vᵀ) = qᵀ S + (q · k) v`. */
  lemma {:induction false} VecMatAddOuter(q: Vec, S: Mat, k: Vec, v: Vec)
    requires |q| == |k| > 0 && |v| > 0 && IsMat(S, |k|, |v|)
    ensures VecMat(q, MatAdd(S, Outer(k, v))) == VecAdd(VecMat(q, S), VecScale(v, Dot(q, k)))
  {
    var O := Outer(k, v);
    forall j | 0 <= j < |v|
      ensures VecMat(q, MatAdd(S, O))[j] == VecAdd(VecMat(q, S), VecScale(v, Dot(q, k)))[j]
    {
      assert VecScale(v, Dot(q, k))[j] == v[j] * Dot(q, k);
      ColAdd(S, O, j);
      DotSymm(q, VecAdd(Col(S, j), Col(O, j)));
      DotAddL(Col(S, j), Col(O, j), q);
      DotSymm(q, Col(S, j));
      DotSymm(q, Col(O, j));
      ColOuter(k, v, j);
      DotScaleR(q, k, v[j]);
    }
    assert |VecMat(q, MatAdd(S, O))| == |v|;
  }
}
