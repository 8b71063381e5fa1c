/**
  Two-dimensional test-time training: a 2×2 matrix `S` fitted online to
  samples `v ≈ S k` by one stochastic-gradient step per sample,
  `S ← S + η (v − S k) kᵀ`.  The demo cycles through a fixed training set,
  keeps the last MaxHistory per-step losses together with their
  exponential moving average, tracks a running maximum for the plot's
  scale, and reports the mean squared error on a separate probe set.
*/
module TTTRegression2D {

  const MaxHistory: nat := 120
  const EmaAlpha: real := 0.2

  datatype Vec2 = Vec2(x: real, y: real)

  /** A 2×2 matrix `[[a, b], [c, d]]`. */
  datatype Mat2 = Mat2(a: real, b: real, c: real, d: real)

  /** One training or probe sample: a key `k` and a target `v`. */
  datatype Sample = Sample(k: Vec2, v: Vec2)

  datatype Option<T> = None | Some(value: T)

  /** What one SGD step reports: the new matrix, the loss, the change and the error. */
  datatype Update = Update(nextS: Mat2, loss: real, delta: Mat2, err: Vec2)

  const ZeroMatrix := Mat2(0.0, 0.0, 0.0, 0.0)

  function MatVecMul(M: Mat2, v: Vec2): Vec2 {
    Vec2(M.a * v.x + M.b * v.y, M.c * v.x + M.d * v.y)
  }

  /** `S` maps the point's key exactly to its target. */
  predicate Fits(S: Mat2, p: Sample) {
    MatVecMul(S, p.k) == p.v
  }

  /** `a bᵀ`. */
  function Outer(a: Vec2, b: Vec2): Mat2 {
    Mat2(a.x * b.x, a.x * b.y, a.y * b.x, a.y * b.y)
  }

  function MatAdd(A: Mat2, B: Mat2): Mat2 {
    Mat2(A.a + B.a, A.b + B.b, A.c + B.c, A.d + B.d)
  }

  function MatSub(A: Mat2, B: Mat2): Mat2 {
    Mat2(A.a - B.a, A.b - B.b, A.c - B.c, A.d - B.d)
  }

  function MatScale(A: Mat2, s: real): Mat2 {
    Mat2(A.a * s, A.b * s, A.c * s, A.d * s)
  }

  function Sub(a: Vec2, b: Vec2): Vec2 {
    Vec2(a.x - b.x, a.y - b.y)
  }

  function Scale(v: Vec2, s: real): Vec2 {
    Vec2(v.x * s, v.y * s)
  }

  /** `‖v‖² = v₀² + v₁²`, never negative, zero exactly at the zero vector. */
  function NormSq(v: Vec2): (r: real)
    ensures 0.0 <= r
    ensures r == 0.0 <==> v == Vec2(0.0, 0.0)
  {
    var r := Sq(v.x) + Sq(v.y);
    assert 0.0 <= r && (r == 0.0 <==> v == Vec2(0.0, 0.0)) by {
      SquareNonneg(v.x);
      SquareNonneg(v.y);
      if v.x != 0.0 {
        SquarePositive(v.x);
      }
      if v.y != 0.0 {
        SquarePositive(v.y);
      }
    }
    r
  }

  function Sq(a: real): real {
    a * a
  }

  lemma {:induction false} SquareNonneg(a: real)
    ensures 0.0 <= Sq(a)
  {
    if a < 0.0 {
      var b := -a;
      calc {
        Sq(a);
        == b * b;
        >= 0.0 * b;
      }
    } else {
      calc {
        Sq(a);
        == a * a;
        >= 0.0 * a;
      }
    }
  }

  lemma {:induction false} SquarePositive(a: real)
    requires a != 0.0
    ensures 0.0 < Sq(a)
  {
    if a < 0.0 {
      var b := -a;
      calc {
        Sq(a);
        == b * b;
        > 0.0 * b;
      }
    } else {
      calc {
        Sq(a);
        == a * a;
        > 0.0 * a;
      }
    }
  }

  // ---------------------------------------------------------------------
  // One SGD step
  // ---------------------------------------------------------------------

  /**
    `sgdUpdate`: the error `v − S k`, its squared norm as the loss, the
    step `η err kᵀ` and the updated matrix.
  */
  function SgdUpdate(S: Mat2, sample: Sample, eta: real): (r: Update)
    ensures r.err == Sub(sample.v, MatVecMul(S, sample.k))
    ensures 0.0 <= r.loss && (r.loss == 0.0 <==> Fits(S, sample))
    ensures r.delta == MatSub(r.nextS, S)
  {
    var pred := MatVecMul(S, sample.k);
    var err := Sub(sample.v, pred);
    var loss := NormSq(err);
    var grad := Outer(err, sample.k);
    var delta := MatScale(grad, eta);
    var nextS := MatAdd(S, delta);
    assert err == Vec2(0.0, 0.0) <==> Fits(S, sample) by {
      VecEq(pred, sample.v);
      VecEq(err, Vec2(0.0, 0.0));
    }
    Update(nextS, loss, delta, err)
  }

  /**
    After the step the residual on the same sample is the old error scaled
    by `1 − η‖k‖²`.
  */
  lemma {:induction false} ResidualAfterUpdate(S: Mat2, sample: Sample, eta: real)
    ensures var u := SgdUpdate(S, sample, eta);
      Sub(sample.v, MatVecMul(u.nextS, sample.k)) == Scale(u.err, 1.0 - eta * NormSq(sample.k))
  {
    var u := SgdUpdate(S, sample, eta);
    NextSEntries(S, sample, eta);
    ResidualOf(S, sample.k, sample.v, u.err, u.nextS, eta);
  }

  /** The residual identity on plain values, away from the definition of the update. */
  lemma {:induction false} ResidualOf(S: Mat2, k: Vec2, v: Vec2, e: Vec2, N: Mat2, eta: real)
    requires e == Sub(v, MatVecMul(S, k))
    requires N == Mat2(S.a + e.x * k.x * eta, S.b + e.x * k.y * eta, S.c + e.y * k.x * eta, S.d + e.y * k.y * eta)
    ensures Sub(v, MatVecMul(N, k)) == Scale(e, 1.0 - eta * NormSq(k))
  {
    var c := 1.0 - eta * NormSq(k);
    var lhs := Sub(v, MatVecMul(N, k));
    var rhs := Scale(e, c);
    ResidualArith(v.x, S.a, S.b, k.x, k.y, e.x, eta, NormSq(k), c, N.a, N.b, lhs.x, rhs.x);
    ResidualArith(v.y, S.c, S.d, k.x, k.y, e.y, eta, NormSq(k), c, N.c, N.d, lhs.y, rhs.y);
    VecEq(lhs, rhs);
  }

  /** The updated matrix entry by entry: `S + η e kᵀ`. */
  lemma {:induction false} NextSEntries(S: Mat2, sample: Sample, eta: real)
    ensures var u := SgdUpdate(S, sample, eta);
      u.nextS == Mat2(S.a + u.err.x * sample.k.x * eta, S.b + u.err.x * sample.k.y * eta,
                      S.c + u.err.y * sample.k.x * eta, S.d + u.err.y * sample.k.y * eta)
  {
    var u := SgdUpdate(S, sample, eta);
    assert u.nextS == MatAdd(S, MatScale(Outer(u.err, sample.k), eta));
  }

  /** One row of the residual: `v − n₀ k₀ − n₁ k₁ = e (1 − η n)` where `nᵢ = sᵢ + η e kᵢ`. */
  lemma {:induction false} ResidualArith(v: real, s0: real, s1: real, k0: real, k1: real, e: real, eta: real,
                                         n: real, c: real, n0: real, n1: real, lhs: real, rhs: real)
    requires e == v - (s0 * k0 + s1 * k1) && n == Sq(k0) + Sq(k1) && c == 1.0 - eta * n
    requires n0 == s0 + e * k0 * eta && n1 == s1 + e * k1 * eta
    requires lhs == v - (n0 * k0 + n1 * k1) && rhs == e * c
    ensures lhs == rhs
  {
  }

  /** The loss on the same sample after the step: `(1 − η‖k‖²)²` times the loss before it. */
  lemma {:induction false} LossAfterUpdate(S: Mat2, sample: Sample, eta: real)
    ensures var u := SgdUpdate(S, sample, eta);
      SgdUpdate(u.nextS, sample, eta).loss == Sq(1.0 - eta * NormSq(sample.k)) * u.loss
  {
    var u := SgdUpdate(S, sample, eta);
    ResidualAfterUpdate(S, sample, eta);
    ScaledLoss(u.err, 1.0 - eta * NormSq(sample.k), u.loss, SgdUpdate(u.nextS, sample, eta).loss);
  }

  /** Scaling the error by `c` scales its squared norm by `c²`. */
  lemma {:induction false} ScaledLoss(e: Vec2, c: real, before: real, after: real)
    requires before == NormSq(e) && after == NormSq(Scale(e, c))
    ensures after == Sq(c) * before
    ensures c == 0.0 ==> after == 0.0
  {
    if c == 0.0 {
      assert Scale(e, c) == Vec2(0.0, 0.0);
    }
    ScaledNormArith(e.x, e.y, c, before, after, Sq(c) * before);
  }

  lemma {:induction false} ScaledNormArith(x: real, y: real, c: real, l: real, lhs: real, rhs: real)
    requires l == Sq(x) + Sq(y) && lhs == Sq(x * c) + Sq(y * c) && rhs == Sq(c) * l
    ensures lhs == rhs
  {
  }

  /**
    With a step size `0 ≤ η‖k‖² ≤ 2` the loss on the sample just trained
    on does not increase.
  */
  lemma {:induction false} LossNonincreasing(S: Mat2, sample: Sample, eta: real)
    requires 0.0 <= eta * NormSq(sample.k) <= 2.0
    ensures SgdUpdate(SgdUpdate(S, sample, eta).nextS, sample, eta).loss <= SgdUpdate(S, sample, eta).loss
  {
    LossAfterUpdate(S, sample, eta);
    FactorAtMostOne(1.0 - eta * NormSq(sample.k));
    ScaleDown(Sq(1.0 - eta * NormSq(sample.k)), SgdUpdate(S, sample, eta).loss,
              SgdUpdate(SgdUpdate(S, sample, eta).nextS, sample, eta).loss);
  }

  lemma {:induction false} FactorAtMostOne(c: real)
    requires -1.0 <= c <= 1.0
    ensures Sq(c) <= 1.0
  {
    if c < 0.0 {
      var b := -c;
      calc {
        Sq(c);
        == b * b;
        <= 1.0 * b;
        <= 1.0;
      }
    } else {
      calc {
        Sq(c);
        == c * c;
        <= 1.0 * c;
        <= 1.0;
      }
    }
  }

  lemma {:induction false} ScaleDown(f: real, l: real, p: real)
    requires f <= 1.0 && 0.0 <= l && p == f * l
    ensures p <= l
  {
    calc {
      p;
      == f * l;
      <= 1.0 * l;
    }
  }

  /** With `η‖k‖² = 1` one step fits the sample exactly. */
  lemma {:induction false} ExactStepFits(S: Mat2, sample: Sample, eta: real)
    requires eta * NormSq(sample.k) == 1.0
    ensures Fits(SgdUpdate(S, sample, eta).nextS, sample)
  {
    ExactStepZeroLoss(S, sample, eta);
    ZeroLossFits(SgdUpdate(S, sample, eta).nextS, sample, eta);
  }

  /** With `η‖k‖² = 1` the loss on the sample after the step is zero. */
  lemma {:induction false} ExactStepZeroLoss(S: Mat2, sample: Sample, eta: real)
    requires eta * NormSq(sample.k) == 1.0
    ensures SgdUpdate(SgdUpdate(S, sample, eta).nextS, sample, eta).loss == 0.0
  {
    var u := SgdUpdate(S, sample, eta);
    ResidualAfterUpdate(S, sample, eta);
    ScaledLoss(u.err, 1.0 - eta * NormSq(sample.k), u.loss, SgdUpdate(u.nextS, sample, eta).loss);
  }

  lemma {:induction false} ZeroLossFits(S: Mat2, sample: Sample, eta: real)
    requires SgdUpdate(S, sample, eta).loss == 0.0
    ensures Fits(S, sample)
  {
  }

  // ---------------------------------------------------------------------
  // Training from the zero matrix
  // ---------------------------------------------------------------------

  /**
    The position of the training cursor after `step` steps over `n`
    samples: it starts at 0 and moves by one, wrapping to 0 at `n`.
  */
  function Cycle(step: nat, n: nat): (r: nat)
    requires n > 0
    ensures r < n
  {
    if step == 0 then 0
    else
      var p := Cycle(step - 1, n);
      if p + 1 == n then 0 else p + 1
  }

  /** The cursor is `step mod n`, as `(prev + 1) % trainSet.length` keeps it. */
  lemma {:induction false} CycleIsMod(step: nat, n: nat)
    requires n > 0
    ensures Cycle(step, n) == step % n
  {
    if step == 0 {
      ModUnique(0, n, 0, 0);
    } else {
      CycleIsMod(step - 1, n);
      IndexStep(step - 1, Cycle(step - 1, n), n);
    }
  }

  /**
    The matrix after `|rates|` steps from zero over `ts`, step `i` using
    sample `ts[Cycle(i, |ts|)]` and learning rate `rates[i]`.
  */
  function Trained(ts: seq<Sample>, rates: seq<real>): Mat2
    requires |ts| > 0 || |rates| == 0
    decreases |rates|
  {
    if |rates| == 0 then ZeroMatrix
    else
      var n := |rates| - 1;
      SgdUpdate(Trained(ts, rates[..n]), ts[Cycle(n, |ts|)], rates[n]).nextS
  }

  /** The loss reported by step `i`. */
  function LossAt(ts: seq<Sample>, rates: seq<real>, i: nat): real
    requires |ts| > 0 && i < |rates|
  {
    SgdUpdate(Trained(ts, rates[..i]), ts[Cycle(i, |ts|)], rates[i]).loss
  }

  /** All losses reported since the last reset, in order. */
  function Losses(ts: seq<Sample>, rates: seq<real>): (r: seq<real>)
    requires |ts| > 0 || |rates| == 0
    ensures |r| == |rates|
    ensures forall i :: 0 <= i < |r| ==> 0.0 <= r[i]
  {
    if |rates| == 0 then [] else seq(|rates|, i requires 0 <= i < |rates| => LossAt(ts, rates, i))
  }

  // ---------------------------------------------------------------------
  // Loss history, EMA and running maximum
  // ---------------------------------------------------------------------

  /** `[...prev, x]`, dropping the oldest entry when it would exceed MaxHistory. */
  function Push(h: seq<real>, x: real): (r: seq<real>)
    requires |h| <= MaxHistory
    ensures 0 < |r| <= MaxHistory && r[|r| - 1] == x
    ensures |h| < MaxHistory ==> r == h + [x]
    ensures |h| == MaxHistory ==> r == h[1..] + [x]
  {
    var next := h + [x];
    if |next| > MaxHistory then next[1..] else next
  }

  /** The last MaxHistory entries of `s`, all of it when it is shorter. */
  function Window(s: seq<real>): (r: seq<real>)
    ensures |r| <= MaxHistory
  {
    if |s| <= MaxHistory then s else s[|s| - MaxHistory..]
  }

  /** Pushing onto the window of `s` gives the window of `s + [x]`. */
  lemma {:induction false} PushWindow(s: seq<real>, x: real)
    ensures Push(Window(s), x) == Window(s + [x])
  {
    if |s| >= MaxHistory {
      assert Window(s)[1..] + [x] == (s + [x])[|s| + 1 - MaxHistory..];
    }
  }

  /** The window keeps the last element. */
  lemma {:induction false} WindowLast(s: seq<real>)
    ensures |Window(s)| == 0 <==> |s| == 0
    ensures |s| > 0 ==> Window(s)[|Window(s)| - 1] == s[|s| - 1]
  {
  }

  /** `last + EMA_ALPHA (loss − last)`. */
  function Ema(last: real, loss: real): real {
    last + EmaAlpha * (loss - last)
  }

  /** The EMA lies between the previous EMA and the new loss; starting from the loss itself it is the loss. */
  lemma {:induction false} EmaBetween(last: real, loss: real)
    ensures last <= loss ==> last <= Ema(last, loss) <= loss
    ensures loss <= last ==> loss <= Ema(last, loss) <= last
    ensures Ema(loss, loss) == loss
  {
  }

  /** The EMA series of `l`: seeded with the first loss, then `ema = last + 0.2 (loss − last)`. */
  function Emas(l: seq<real>): (r: seq<real>)
    ensures |r| == |l|
    decreases |l|
  {
    if |l| == 0 then []
    else
      var p := Emas(l[..|l| - 1]);
      var last := if |p| > 0 then p[|p| - 1] else l[|l| - 1];
      p + [Ema(last, l[|l| - 1])]
  }

  /** The first EMA value is the first loss; every later one lies between its predecessor and the loss. */
  lemma {:induction false} EmasShape(l: seq<real>, i: nat)
    requires i < |l|
    ensures i == 0 ==> Emas(l)[0] == l[0]
    ensures i > 0 ==> Emas(l)[i] == Ema(Emas(l)[i - 1], l[i])
    decreases |l|
  {
    if i < |l| - 1 {
      EmasShape(l[..|l| - 1], i);
      assert l[..|l| - 1][i] == l[i];
      if i > 0 {
        assert Emas(l[..|l| - 1])[i - 1] == Emas(l)[i - 1];
      }
    } else if i == 0 {
      assert Emas(l[..0]) == [];
    }
  }

  /** Non-negative losses give non-negative EMA values. */
  lemma {:induction false} EmasNonneg(l: seq<real>)
    requires forall i :: 0 <= i < |l| ==> 0.0 <= l[i]
    ensures forall i :: 0 <= i < |Emas(l)| ==> 0.0 <= Emas(l)[i]
    decreases |l|
  {
    if |l| > 0 {
      var init := l[..|l| - 1];
      EmasNonneg(init);
      var p := Emas(init);
      var last := if |p| > 0 then p[|p| - 1] else l[|l| - 1];
      EmaBetween(last, l[|l| - 1]);
    }
  }

  function Max(a: real, b: real): (r: real)
    ensures a <= r && b <= r && (r == a || r == b)
  {
    if a < b then b else a
  }

  /** `Math.max(1, …)` over every loss and EMA value recorded: the running maximum since the last reset. */
  function RunningMax(l: seq<real>, e: seq<real>): (r: real)
    requires |l| == |e|
    ensures 1.0 <= r
    decreases |l|
  {
    if |l| == 0 then 1.0
    else Max(Max(RunningMax(l[..|l| - 1], e[..|e| - 1]), l[|l| - 1]), e[|e| - 1])
  }

  /** The running maximum bounds every recorded loss and EMA value. */
  lemma {:induction false} RunningMaxBounds(l: seq<real>, e: seq<real>, i: nat)
    requires |l| == |e| && i < |l|
    ensures l[i] <= RunningMax(l, e) && e[i] <= RunningMax(l, e)
    decreases |l|
  {
    if i < |l| - 1 {
      RunningMaxBounds(l[..|l| - 1], e[..|e| - 1], i);
      assert l[..|l| - 1][i] == l[i] && e[..|e| - 1][i] == e[i];
    }
  }

  /** It never decreases as values are recorded. */
  lemma {:induction false} RunningMaxMonotone(l: seq<real>, e: seq<real>, x: real, y: real)
    requires |l| == |e|
    ensures RunningMax(l, e) <= RunningMax(l + [x], e + [y])
  {
    assert (l + [x])[..|l|] == l && (e + [y])[..|e|] == e;
  }

  lemma {:induction false} RunningMaxAppend(l: seq<real>, e: seq<real>, x: real, y: real)
    requires |l| == |e|
    ensures RunningMax(l + [x], e + [y]) == Max(Max(RunningMax(l, e), x), y)
  {
    assert (l + [x])[..|l|] == l && (e + [y])[..|e|] == e;
  }

  // ---------------------------------------------------------------------
  // Probe loss
  // ---------------------------------------------------------------------

  /** The squared residual of one probe point. */
  function SqErr(S: Mat2, p: Sample): (r: real)
    ensures 0.0 <= r && (r == 0.0 <==> Fits(S, p))
  {
    var m := MatVecMul(S, p.k);
    var e := Sub(p.v, m);
    assert e == Vec2(0.0, 0.0) <==> m == p.v by {
      VecEq(m, p.v);
    }
    NormSq(e)
  }

  lemma {:induction false} VecEq(a: Vec2, b: Vec2)
    ensures a == b <==> a.x == b.x && a.y == b.y
  {
  }

  function SumSqErr(probe: seq<Sample>, S: Mat2): (r: real)
    ensures 0.0 <= r
    decreases |probe|
  {
    if |probe| == 0 then 0.0 else SumSqErr(probe[..|probe| - 1], S) + SqErr(S, probe[|probe| - 1])
  }

  /** `probeLoss`: the mean squared probe residual, 0 for an empty probe set. */
  function MeanProbeLoss(probe: seq<Sample>, S: Mat2): real {
    if |probe| == 0 then 0.0 else SumSqErr(probe, S) / |probe| as real
  }

  /** The memo's loop: accumulate `err0² + err1²` over the probe set, then divide by its size. */
  method ProbeLoss(probe: seq<Sample>, S: Mat2) returns (r: real)
    ensures r == MeanProbeLoss(probe, S)
  {
    if |probe| == 0 {
      return 0.0;
    }
    var sum := 0.0;
    for i := 0 to |probe|
      invariant sum == SumSqErr(probe[..i], S)
    {
      var point := probe[i];
      var pred := MatVecMul(S, point.k);
      var err0 := point.v.x - pred.x;
      var err1 := point.v.y - pred.y;
      assert probe[..i + 1][..i] == probe[..i];
      sum := sum + err0 * err0 + err1 * err1;
    }
    assert probe[..|probe|] == probe;
    r := sum / |probe| as real;
  }

  /** The probe loss is never negative. */
  lemma {:induction false} ProbeLossNonneg(probe: seq<Sample>, S: Mat2)
    ensures 0.0 <= MeanProbeLoss(probe, S)
  {
    if |probe| > 0 {
      DivNonneg(SumSqErr(probe, S), |probe| as real);
    }
  }

  lemma {:induction false} DivNonneg(s: real, n: real)
    requires 0.0 <= s && 0.0 < n
    ensures 0.0 <= s / n
  {
  }

  lemma {:induction false} DivZero(s: real, n: real)
    requires 0.0 < n
    ensures s / n == 0.0 <==> s == 0.0
  {
    if s / n == 0.0 {
      assert s == (s / n) * n;
    }
  }

  /** Every point of `ps` fits (`AllFitIff` gives the quantified form), checked from the end as the sum is built. */
  predicate AllFit(S: Mat2, ps: seq<Sample>)
    decreases |ps|
  {
    |ps| == 0 || (AllFit(S, ps[..|ps| - 1]) && Fits(S, ps[|ps| - 1]))
  }

  lemma {:induction false} AllFitIff(ps: seq<Sample>, S: Mat2)
    ensures AllFit(S, ps) <==> forall i :: 0 <= i < |ps| ==> Fits(S, ps[i])
    decreases |ps|
  {
    if |ps| > 0 {
      var init := ps[..|ps| - 1];
      AllFitIff(init, S);
      assert forall i :: 0 <= i < |init| ==> init[i] == ps[i];
    }
  }

  /** The summed squared error is zero exactly when every point fits. */
  lemma {:induction false} SumSqErrZero(ps: seq<Sample>, S: Mat2)
    ensures SumSqErr(ps, S) == 0.0 <==> AllFit(S, ps)
    decreases |ps|
  {
    if |ps| > 0 {
      SumSqErrZero(ps[..|ps| - 1], S);
      ZeroSum(SumSqErr(ps[..|ps| - 1], S), SqErr(S, ps[|ps| - 1]));
    }
  }

  lemma {:induction false} ZeroSum(a: real, b: real)
    requires 0.0 <= a && 0.0 <= b
    ensures a + b == 0.0 <==> a == 0.0 && b == 0.0
  {
  }

  /** A probe loss of zero means `S` maps every probe key to its target, and conversely. */
  lemma {:induction false} ProbeLossZeroIff(probe: seq<Sample>, S: Mat2)
    requires |probe| > 0
    ensures MeanProbeLoss(probe, S) == 0.0 <==> AllFit(S, probe)
  {
    DivZero(SumSqErr(probe, S), |probe| as real);
    SumSqErrZero(probe, S);
  }

  /** The probe residual is the loss `sgdUpdate` would report on that point. */
  lemma {:induction false} SqErrIsLoss(S: Mat2, p: Sample, eta: real)
    ensures SqErr(S, p) == SgdUpdate(S, p, eta).loss
  {
  }

  // ---------------------------------------------------------------------
  // The demo's state
  // ---------------------------------------------------------------------

  /**
    The model half of the demo's state: everything `stepOnce` and
    `resetModel` set.  React applies the setters of one handler together
    at the next render, so the record is replaced as a whole.
  */
  datatype Model = Model(matrix: Mat2, step: nat, trainIndex: nat, lastSample: Option<Sample>,
                         lastDelta: Mat2, lastErr: Vec2, lossHistory: seq<real>, emaHistory: seq<real>,
                         lossMax: real)

  /** The record `resetModel` installs: the zero matrix, no history, `lossMax = 1`. */
  const InitialModel := Model(ZeroMatrix, 0, 0, None, ZeroMatrix, Vec2(0.0, 0.0), [], [], 1.0)

  /** Every learning rate used, every matrix passed through and every loss reported since the last reset. */
  datatype Run = Run(rates: seq<real>, mats: seq<Mat2>, losses: seq<real>)

  const EmptyRun := Run([], [ZeroMatrix], [])

  /** The demo's state; the ghost field records the run that produced `model`. */
  class Trainer {
    var trueMatrix: Mat2
    var trainSet: seq<Sample>
    var probeSet: seq<Sample>
    var model: Model
    var isPlaying: bool
    var learningRate: real
    var noise: real
    ghost var run: Run

    /** The model is what the recorded run computed on the training set. */
    ghost predicate Valid()
      reads this
    {
      Consistent(trainSet, model, run)
    }

    /** The mount state. */
    constructor (m: Mat2, train: seq<Sample>, probe: seq<Sample>)
      ensures Valid() && trueMatrix == m && trainSet == train && probeSet == probe
      ensures model == InitialModel && !isPlaying
      ensures learningRate == 0.35 && noise == 0.05
    {
      trueMatrix := m;
      trainSet := train;
      probeSet := probe;
      model := InitialModel;
      isPlaying := false;
      learningRate := 0.35;
      noise := 0.05;
      run := EmptyRun;
    }

    /** `resetModel`: back to the zero matrix and empty histories, paused. */
    method ResetModel()
      modifies this
      ensures Valid() && model == InitialModel && !isPlaying
      ensures trainSet == old(trainSet) && probeSet == old(probeSet) && trueMatrix == old(trueMatrix)
      ensures learningRate == old(learningRate) && noise == old(noise)
    {
      model := InitialModel;
      isPlaying := false;
      run := EmptyRun;
    }

    /** `regenerate`, with the generated dataset passed in. */
    method Regenerate(nextMatrix: Mat2, train: seq<Sample>, probe: seq<Sample>)
      modifies this
      ensures Valid() && trueMatrix == nextMatrix && trainSet == train && probeSet == probe
      ensures model == InitialModel && !isPlaying
      ensures learningRate == old(learningRate) && noise == old(noise)
    {
      trueMatrix := nextMatrix;
      trainSet := train;
      probeSet := probe;
      ResetModel();
    }

    /** `handleNoiseChange`: the new noise level and a dataset regenerated with it. */
    method HandleNoiseChange(nextNoise: real, train: seq<Sample>, probe: seq<Sample>)
      modifies this
      ensures Valid() && noise == nextNoise && trainSet == train && probeSet == probe
      ensures trueMatrix == old(trueMatrix) && learningRate == old(learningRate)
      ensures model == InitialModel && !isPlaying
    {
      noise := nextNoise;
      Regenerate(trueMatrix, train, probe);
    }

    /**
      `stepOnce`: train on the sample under the cursor, advance both
      counters, push the loss and its EMA onto their bounded histories and
      raise `lossMax`.  Nothing happens with an empty training set.  The
      cursor stays below `|trainSet|`, so `trainIndex % |trainSet|` is the
      cursor itself and `(prev + 1) % |trainSet|` is the wrap to 0 at the
      end (NextIndexIsMod).
    */
    method StepOnce()
      requires Valid()
      modifies this`model, this`run
      ensures Valid()
      ensures |trainSet| == 0 ==> model == old(model)
      ensures |trainSet| > 0 ==> model == NextModel(old(model), trainSet, learningRate)
    {
      if |trainSet| > 0 {
        var m := model;
        StepKeepsConsistent(trainSet, m, run, learningRate);
        SetState(NextModel(m, trainSet, learningRate), NextRun(run, m, trainSet, learningRate));
      }
    }

    /** The state setters `setModel` and the run's bookkeeping, given a consistent new pair. */
    method SetState(m: Model, ghost r: Run)
      requires Valid() && Consistent(trainSet, m, r)
      modifies this`model, this`run
      ensures Valid() && model == m && run == r
    {
      model, run := m, r;
    }

    /** `handleStep`: pause, then one step. */
    method HandleStep()
      requires Valid()
      modifies this`isPlaying, this`model, this`run
      ensures Valid() && !isPlaying
      ensures |trainSet| == 0 ==> model == old(model)
      ensures |trainSet| > 0 ==> model == NextModel(old(model), trainSet, learningRate)
      ensures unchanged(this`trueMatrix, this`trainSet, this`probeSet, this`learningRate, this`noise)
    {
      isPlaying := false;
      StepOnce();
    }

    /** `handleTogglePlay`. */
    method TogglePlay()
      requires Valid()
      modifies this`isPlaying
      ensures Valid() && isPlaying == !old(isPlaying)
      ensures unchanged(this`model, this`trueMatrix, this`trainSet, this`probeSet, this`learningRate, this`noise)
    {
      isPlaying := !isPlaying;
    }

    /** The learning-rate slider: later steps use the new rate. */
    method SetLearningRate(eta: real)
      requires Valid()
      modifies this`learningRate
      ensures Valid() && learningRate == eta
      ensures unchanged(this`model, this`isPlaying, this`trueMatrix, this`trainSet, this`probeSet, this`noise)
    {
      learningRate := eta;
    }

    /** The autoplay effect with its timeout firing: one step while playing. */
    method Tick()
      requires Valid()
      modifies this`model, this`run
      ensures Valid()
      ensures !old(isPlaying) || |trainSet| == 0 ==> model == old(model)
      ensures old(isPlaying) && |trainSet| > 0 ==> model == NextModel(old(model), trainSet, learningRate)
      ensures unchanged(this`isPlaying, this`trueMatrix, this`trainSet, this`probeSet, this`learningRate, this`noise)
    {
      if !isPlaying {
        return;
      }
      StepOnce();
    }

    /**
      `currentIndex`: 0 before any step, afterwards
      `(trainIndex − 1 + |trainSet|) % |trainSet|`, the sample the last
      step trained on.
    */
    function CurrentIndex(): (r: nat)
      reads this
      requires Valid()
      ensures |trainSet| > 0 ==> r < |trainSet|
      ensures model.step == 0 ==> r == 0
      ensures |trainSet| > 0 && model.step > 0 ==> r == Cycle(model.step - 1, |trainSet|)
    {
      if |trainSet| > 0 then
        if model.step == 0 then 0
        else
          var n := |trainSet|;
          var i := model.trainIndex;
          assert (i - 1 + n) % n == Cycle(model.step - 1, n) by {
            ModUnwrap(Cycle(model.step - 1, n), n);
          }
          (i - 1 + n) % n
      else 0
    }
  }

  /** Moving the cursor back undoes moving it forward. */
  lemma {:induction false} ModUnwrap(p: nat, n: nat)
    requires p < n
    ensures ((if p + 1 == n then 0 else p + 1) - 1 + n) % n == p
  {
    if p + 1 == n {
      ModUnique(n - 1, n, 0, p);
    } else {
      ModUnique(p + n, n, 1, p);
    }
  }

  /** Within range the source's `%` is the identity, and `(i + 1) % n` wraps at `n`. */
  lemma {:induction false} ModWrap(i: nat, n: nat)
    requires i < n
    ensures i % n == i
    ensures (i + 1) % n == if i + 1 == n then 0 else i + 1
  {
    ModUnique(i, n, 0, i);
    if i + 1 == n {
      ModUnique(i + 1, n, 1, 0);
    } else {
      ModUnique(i + 1, n, 0, i + 1);
    }
  }

  /** `trainIndex = step mod n` advances to `(step + 1) mod n`, wrapping at `n`. */
  lemma {:induction false} IndexStep(step: nat, index: nat, n: nat)
    requires n > 0 && index == step % n
    ensures index < n && index % n == index
    ensures (index + 1) % n == (step + 1) % n
    ensures (index + 1) % n == if index + 1 == n then 0 else index + 1
  {
    var q := step / n;
    assert step == q * n + index;
    ModUnique(index, n, 0, index);
    if index + 1 == n {
      assert step + 1 == (q + 1) * n + 0;
      ModUnique(step + 1, n, q + 1, 0);
      ModUnique(index + 1, n, 1, 0);
    } else {
      assert step + 1 == q * n + (index + 1);
      ModUnique(step + 1, n, q, index + 1);
      ModUnique(index + 1, n, 0, index + 1);
    }
  }

  lemma {:induction false} MulAtLeast(a: int, n: int)
    requires a >= 1 && n > 0
    ensures a * n >= n
  {
    var b := a - 1;
    assert b * n >= 0;
    assert a * n == b * n + n;
  }

  /** Division with remainder is unique: `a = q n + t` with `0 ≤ t < n` gives `a mod n = t`. */
  lemma {:induction false} ModUnique(a: int, n: int, q: int, t: int)
    requires n > 0 && 0 <= t < n && a == q * n + t
    ensures a % n == t
  {
    var q' := a / n;
    var t' := a % n;
    assert a == q' * n + t';
    if q > q' {
      MulAtLeast(q - q', n);
      assert false;
    } else if q < q' {
      MulAtLeast(q' - q, n);
      assert false;
    }
  }

  /**
    Recording one more loss: both windows grow by `Push`, the new EMA is
    computed from the last visible EMA (or the loss itself when there is
    none), and the running maximum takes in the loss and the EMA.
  */
  lemma {:induction false} HistoryStep(l: seq<real>, x: real)
    ensures var e := Window(Emas(l));
      var last := if |e| > 0 then e[|e| - 1] else x;
      Window(l + [x]) == Push(Window(l), x) &&
      Emas(l + [x]) == Emas(l) + [Ema(last, x)] &&
      Window(Emas(l + [x])) == Push(e, Ema(last, x)) &&
      RunningMax(l + [x], Emas(l + [x])) == Max(Max(RunningMax(l, Emas(l)), x), Ema(last, x))
  {
    var e := Window(Emas(l));
    var last := if |e| > 0 then e[|e| - 1] else x;
    PushWindow(l, x);
    WindowLast(Emas(l));
    assert (l + [x])[..|l|] == l;
    assert Emas(l + [x]) == Emas(l) + [Ema(last, x)];
    PushWindow(Emas(l), Ema(last, x));
    RunningMaxAppend(l, Emas(l), x, Ema(last, x));
  }

  /**
    Step `t` of a run: SGD on sample `Cycle(t, |ts|)` with rate `rates[t]`
    takes `mats[t]` to `mats[t + 1]` and reports loss `losses[t]`.
  */
  ghost predicate Stepped(ts: seq<Sample>, r: Run, t: nat)
    requires |ts| > 0 && t < |r.rates| && t + 1 < |r.mats| && t < |r.losses|
  {
    var u := SgdUpdate(r.mats[t], ts[Cycle(t, |ts|)], r.rates[t]);
    r.mats[t + 1] == u.nextS && r.losses[t] == u.loss
  }

  /**
    The demo's invariant: `step` counts the SGD steps since the last reset,
    one learning rate each; `trainIndex` is the next sample; the run goes
    from the zero matrix through every step to the current matrix; the
    histories are the windows of all losses and their EMA; `lossMax` is the
    running maximum.
  */
  ghost predicate Consistent(ts: seq<Sample>, m: Model, r: Run)
  {
    CursorOk(ts, m) && RunOk(ts, m, r) && HistoryOk(m, r)
  }

  /** `step` steps taken, and the cursor where they leave it. */
  ghost predicate CursorOk(ts: seq<Sample>, m: Model)
  {
    (|ts| == 0 ==> m.step == 0 && m.trainIndex == 0) &&
    (|ts| > 0 ==> m.trainIndex == Cycle(m.step, |ts|))
  }

  /** The run has one rate and one loss per step and leads from zero to the current matrix. */
  ghost predicate RunOk(ts: seq<Sample>, m: Model, r: Run)
  {
    |r.rates| == m.step && |r.mats| == m.step + 1 && |r.losses| == m.step &&
    (|ts| > 0 || m.step == 0) &&
    r.mats[0] == ZeroMatrix && m.matrix == r.mats[m.step] &&
    (forall t :: 0 <= t < m.step ==> Stepped(ts, r, t))
  }

  /** The visible histories are the windows of all losses and their EMA; `lossMax` is their running maximum. */
  ghost predicate HistoryOk(m: Model, r: Run)
  {
    |r.losses| == m.step &&
    m.lossHistory == Window(r.losses) &&
    m.emaHistory == Window(Emas(r.losses)) &&
    m.lossMax == RunningMax(r.losses, Emas(r.losses))
  }

  /**
    The model after one `stepOnce` on a non-empty training set: SGD on the
    sample under the cursor, the cursor and step counter advanced, the loss
    and its EMA (seeded with the loss itself) pushed, `lossMax` raised.
  */
  function NextModel(m: Model, ts: seq<Sample>, eta: real): Model
    requires m.trainIndex < |ts| && |m.lossHistory| <= MaxHistory && |m.emaHistory| <= MaxHistory
  {
    var sample := ts[m.trainIndex];
    var u := SgdUpdate(m.matrix, sample, eta);
    var last := if |m.emaHistory| > 0 then m.emaHistory[|m.emaHistory| - 1] else u.loss;
    var nextEma := Ema(last, u.loss);
    Model(u.nextS, m.step + 1, if m.trainIndex + 1 == |ts| then 0 else m.trainIndex + 1, Some(sample),
          u.delta, u.err, Push(m.lossHistory, u.loss), Push(m.emaHistory, nextEma),
          Max(Max(m.lossMax, u.loss), nextEma))
  }

  /**
    One step advances the counter, moves the cursor to `(trainIndex + 1) %
    n` (still below `n`), records the sample, keeps both histories
    non-empty and within MaxHistory, and raises `lossMax` to cover the
    newest loss and EMA without ever lowering it.
  */
  lemma {:induction false} NextModelShape(m: Model, ts: seq<Sample>, eta: real)
    requires m.trainIndex < |ts| && |m.lossHistory| <= MaxHistory && |m.emaHistory| <= MaxHistory
    ensures var r := NextModel(m, ts, eta);
      r.step == m.step + 1 && r.trainIndex < |ts| && r.trainIndex == (m.trainIndex + 1) % |ts| &&
      r.lastSample == Some(ts[m.trainIndex]) &&
      0 < |r.lossHistory| <= MaxHistory && 0 < |r.emaHistory| <= MaxHistory &&
      m.lossMax <= r.lossMax &&
      r.lossHistory[|r.lossHistory| - 1] <= r.lossMax && r.emaHistory[|r.emaHistory| - 1] <= r.lossMax
  {
    ModWrap(m.trainIndex, |ts|);
  }

  /** The source's `(prev + 1) % trainSet.length` and `trainSet[trainIndex % trainSet.length]`. */
  lemma {:induction false} NextIndexIsMod(m: Model, ts: seq<Sample>, eta: real)
    requires m.trainIndex < |ts| && |m.lossHistory| <= MaxHistory && |m.emaHistory| <= MaxHistory
    ensures ts[m.trainIndex % |ts|] == ts[m.trainIndex]
    ensures NextModel(m, ts, eta).trainIndex == (m.trainIndex + 1) % |ts|
  {
    ModWrap(m.trainIndex, |ts|);
  }

  /** The run after one step with rate `eta` from model `m`: one more rate, matrix and loss. */
  function NextRun(r: Run, m: Model, ts: seq<Sample>, eta: real): Run
    requires m.trainIndex < |ts|
  {
    var u := SgdUpdate(m.matrix, ts[m.trainIndex], eta);
    Run(r.rates + [eta], r.mats + [u.nextS], r.losses + [u.loss])
  }

  /**
    One `stepOnce` keeps the invariant: training on the sample under the
    cursor with rate `eta` and recording the loss gives the state for
    `step + 1` steps.
  */
  lemma {:induction false} StepKeepsConsistent(ts: seq<Sample>, m: Model, r: Run, eta: real)
    requires Consistent(ts, m, r) && |ts| > 0 && m.trainIndex < |ts|
    ensures Consistent(ts, NextModel(m, ts, eta), NextRun(r, m, ts, eta))
  {
    var u := SgdUpdate(m.matrix, ts[m.trainIndex], eta);
    CursorStep(ts, m, eta);
    RunStep(ts, m, r, eta, u, NextModel(m, ts, eta), NextRun(r, m, ts, eta));
    HistoryAdvance(ts, m, r, eta);
  }

  /** The cursor moves on with the step counter. */
  lemma {:induction false} CursorStep(ts: seq<Sample>, m: Model, eta: real)
    requires CursorOk(ts, m) && |ts| > 0 && m.trainIndex < |ts|
    requires |m.lossHistory| <= MaxHistory && |m.emaHistory| <= MaxHistory
    ensures CursorOk(ts, NextModel(m, ts, eta))
  {
    var m' := NextModel(m, ts, eta);
    assert m'.step == m.step + 1;
    assert m'.trainIndex == if m.trainIndex + 1 == |ts| then 0 else m.trainIndex + 1;
  }

  /** The visible histories follow the loss recorded by the step. */
  lemma {:induction false} HistoryAdvance(ts: seq<Sample>, m: Model, r: Run, eta: real)
    requires HistoryOk(m, r) && m.trainIndex < |ts|
    ensures HistoryOk(NextModel(m, ts, eta), NextRun(r, m, ts, eta))
  {
    var u := SgdUpdate(m.matrix, ts[m.trainIndex], eta);
    HistoryStep(r.losses, u.loss);
    assert NextRun(r, m, ts, eta).losses == r.losses + [u.loss];
  }

  lemma {:induction false} RunStep(ts: seq<Sample>, m: Model, r: Run, eta: real, u: Update, m': Model, r': Run)
    requires RunOk(ts, m, r) && CursorOk(ts, m) && |ts| > 0
    requires m.trainIndex < |ts| && u == SgdUpdate(m.matrix, ts[m.trainIndex], eta)
    requires m'.step == m.step + 1 && m'.matrix == u.nextS
    requires r' == Run(r.rates + [eta], r.mats + [u.nextS], r.losses + [u.loss])
    ensures RunOk(ts, m', r')
  {
    forall t | 0 <= t < m.step + 1
      ensures Stepped(ts, r', t)
    {
      if t < m.step {
        assert Stepped(ts, r, t);
        assert r'.mats[t] == r.mats[t] && r'.mats[t + 1] == r.mats[t + 1];
        assert r'.rates[t] == r.rates[t] && r'.losses[t] == r.losses[t];
      } else {
        assert r'.mats[t] == m.matrix && r'.mats[t + 1] == u.nextS;
        assert r'.rates[t] == eta && r'.losses[t] == u.loss;
      }
    }
  }

  /** `lossMax` never decreases and bounds the newest loss. */
  lemma {:induction false} NextModelLossMax(m: Model, ts: seq<Sample>, eta: real)
    requires m.trainIndex < |ts| && |m.lossHistory| <= MaxHistory && |m.emaHistory| <= MaxHistory
    ensures var n := NextModel(m, ts, eta);
      m.lossMax <= n.lossMax && n.lossHistory[|n.lossHistory| - 1] <= n.lossMax
  {
  }

  /**
    The recorded run is training from zero: the current matrix is
    `Trained(ts, rates)` and the recorded losses are `Losses(ts, rates)`.
  */
  lemma {:induction false} ConsistentIsTrained(ts: seq<Sample>, m: Model, r: Run)
    requires Consistent(ts, m, r)
    ensures m.matrix == Trained(ts, r.rates)
    ensures r.losses == Losses(ts, r.rates)
  {
    forall t | 0 <= t <= m.step
      ensures r.mats[t] == Trained(ts, r.rates[..t])
    {
      RunIsTrained(ts, r, t);
    }
    assert r.rates[..m.step] == r.rates;
    if m.step > 0 {
      forall i | 0 <= i < m.step
        ensures r.losses[i] == LossAt(ts, r.rates, i)
      {
        assert Stepped(ts, r, i);
      }
    }
  }

  lemma {:induction false} RunIsTrained(ts: seq<Sample>, r: Run, t: nat)
    requires |r.mats| == |r.rates| + 1 && |r.losses| == |r.rates| && r.mats[0] == ZeroMatrix
    requires |ts| > 0 || |r.rates| == 0
    requires forall i :: 0 <= i < |r.rates| ==> Stepped(ts, r, i)
    requires t <= |r.rates|
    ensures r.mats[t] == Trained(ts, r.rates[..t])
  {
    if t > 0 {
      RunIsTrained(ts, r, t - 1);
      assert Stepped(ts, r, t - 1);
      assert r.rates[..t][..t - 1] == r.rates[..t - 1];
    }
  }
}
