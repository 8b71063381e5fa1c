/**
  Test-time training as linear attention.  Each raw input `u` is projected
  to a training key `x = θ_K u`, a target `z = θ_V u` and a test query
  `θ_Q u`.  The inner model `W` takes one gradient step on the
  reconstruction loss, with the gradient taken at the zero initial weights
  `W₀`; that step is exactly the linear-attention write `W + η z xᵀ`.  A
  playback state machine walks through the sequence in four sub-steps per
  token and records every written `W`.
*/
module TTT {
  import opened LinAlg

  const D: nat := 4
  const SeqLen: nat := 6

  /** `matAdd(A, B, scalar)`: `A + scalar · B`, entry by entry. */
  function MatAddScaled(A: Mat, B: Mat, scalar: real): (r: Mat)
    requires |A| > 0 && IsMat(A, |A|, |A[0]|) && IsMat(B, |A|, |A[0]|)
    ensures IsMat(r, |A|, |A[0]|)
    ensures forall i, j :: 0 <= i < |A| && 0 <= j < |A[0]| ==> r[i][j] == A[i][j] + scalar * B[i][j]
  {
    seq(|A|, i requires 0 <= i < |A| => seq(|A[i]|, j requires 0 <= j < |A[i]| => A[i][j] + scalar * B[i][j]))
  }

  /** The source's fused `matAdd(A, B, scalar)` is the sum of `A` and the scaled `B`. */
  lemma {:induction false} MatAddScaledIsAddScale(A: Mat, B: Mat, scalar: real)
    requires |A| > 0 && IsMat(A, |A|, |A[0]|) && IsMat(B, |A|, |A[0]|)
    ensures MatAddScaled(A, B, scalar) == MatAdd(A, MatScale(B, scalar))
  {
    var r := MatAdd(A, MatScale(B, scalar));
    forall i, j | 0 <= i < |A| && 0 <= j < |A[0]|
      ensures MatAddScaled(A, B, scalar)[i][j] == r[i][j]
    {
      assert MatScale(B, scalar)[i][j] == B[i][j] * scalar;
    }
    MatExt(MatAddScaled(A, B, scalar), r, |A|, |A[0]|);
  }

  /** `reconstruction = W₀ x`: zero when the initial weights are. */
  function Reconstruction(W0: Mat, x: Vec): (r: Vec)
    requires IsMat(W0, D, D) && |x| == D
    ensures |r| == D
    ensures W0 == Zeros(D, D) ==> r == ZeroVec(D)
  {
    MatVecZeros(D, x);
    MatVec(W0, x)
  }

  /** `errorVec = reconstruction - z`: what the reconstruction overshoots the target by. */
  function ErrorVec(W0: Mat, x: Vec, z: Vec): (r: Vec)
    requires IsMat(W0, D, D) && |x| == D && |z| == D
    ensures |r| == D
    ensures VecAdd(r, z) == Reconstruction(W0, x)
  {
    var rec := Reconstruction(W0, x);
    var r := VecSub(rec, z);
    assert VecAdd(r, z) == rec by {
      forall i | 0 <= i < D
        ensures VecAdd(r, z)[i] == rec[i]
      {
      }
    }
    r
  }

  /** `gradient = errorVec xᵀ`: applied to the key it gives the error scaled by `‖x‖²`. */
  function Gradient(W0: Mat, x: Vec, z: Vec): (r: Mat)
    requires IsMat(W0, D, D) && |x| == D && |z| == D
    ensures IsMat(r, D, D)
    ensures MatVec(r, x) == VecScale(ErrorVec(W0, x, z), NormSq(x))
  {
    MatVecOuterSelf(ErrorVec(W0, x, z), x);
    Outer(ErrorVec(W0, x, z), x)
  }

  /** `nextW = matAdd(W, gradient, -η)`: at `W₀ = 0` this is the linear-attention write `W + η z xᵀ`. */
  function NextWeights(W: Mat, W0: Mat, x: Vec, z: Vec, eta: real): (r: Mat)
    requires IsMat(W, D, D) && IsMat(W0, D, D) && |x| == D && |z| == D
    ensures IsMat(r, D, D)
    ensures W0 == Zeros(D, D) ==> r == MatAdd(W, MatScale(Outer(z, x), eta))
  {
    NextWIsLinearAttentionWrite(W, x, z, eta);
    MatAddScaled(W, Gradient(W0, x, z), -eta)
  }

  /** At the zero initial weights the reconstruction is zero, so the error is `-z`. */
  lemma {:induction false} ErrorIsNegatedTarget(x: Vec, z: Vec)
    requires |x| == D && |z| == D
    ensures ErrorVec(Zeros(D, D), x, z) == VecScale(z, -1.0)
  {
    var e := ErrorVec(Zeros(D, D), x, z);
    forall i | 0 <= i < D
      ensures e[i] == VecScale(z, -1.0)[i]
    {
      assert VecAdd(e, z)[i] == ZeroVec(D)[i];
    }
  }

  /**
    The gradient step taken at `W₀ = 0` is the linear-attention write:
    `W − η (−z) xᵀ = W + η z xᵀ`.
  */
  lemma {:induction false} NextWIsLinearAttentionWrite(W: Mat, x: Vec, z: Vec, eta: real)
    requires IsMat(W, D, D) && |x| == D && |z| == D
    ensures MatAddScaled(W, Gradient(Zeros(D, D), x, z), -eta) == MatAdd(W, MatScale(Outer(z, x), eta))
  {
    ErrorIsNegatedTarget(x, z);
    var e := ErrorVec(Zeros(D, D), x, z);
    var r := MatAddScaled(W, Gradient(Zeros(D, D), x, z), -eta);
    var t := MatAdd(W, MatScale(Outer(z, x), eta));
    forall i, j | 0 <= i < D && 0 <= j < D
      ensures r[i][j] == t[i][j]
    {
      assert e[i] == z[i] * -1.0;
      assert Gradient(Zeros(D, D), x, z)[i][j] == e[i] * x[j];
      assert MatScale(Outer(z, x), eta)[i][j] == (z[i] * x[j]) * eta;
      WriteArith(W[i][j], z[i], x[j], eta);
    }
    MatExt(r, t, D, D);
  }

  lemma {:induction false} WriteArith(w: real, z: real, x: real, eta: real)
    ensures w + -eta * ((z * -1.0) * x) == w + (z * x) * eta
  {
  }

  /**
    `finalOutput = nextW x_test`: with `W₀ = 0` it is the old readout plus
    `η (x·q) z`, the linear-attention read after the write.
  */
  function FinalOutput(W: Mat, W0: Mat, x: Vec, z: Vec, q: Vec, eta: real): (r: Vec)
    requires IsMat(W, D, D) && IsMat(W0, D, D) && |x| == D && |z| == D && |q| == D
    ensures |r| == D
    ensures W0 == Zeros(D, D) ==> r == VecAdd(MatVec(W, q), VecScale(z, eta * Dot(x, q)))
  {
    MatVecAdd(W, MatScale(Outer(z, x), eta), q);
    WriteReadout(z, x, q, eta, eta * Dot(x, q));
    MatVec(NextWeights(W, W0, x, z, eta), q)
  }

  /** `(η z xᵀ) q = η (x·q) z`. */
  lemma {:induction false} WriteReadout(z: Vec, x: Vec, q: Vec, eta: real, c: real)
    requires |x| == |q| && c == eta * Dot(x, q)
    ensures MatVec(MatScale(Outer(z, x), eta), q) == VecScale(z, c)
  {
    MatVecScale(Outer(z, x), eta, q);
    MatVecOuter(z, x, q);
    VecScaleScale(z, Dot(x, q), eta, c);
  }

  // ---------------------------------------------------------------------
  // The written states
  // ---------------------------------------------------------------------

  /** The key and target of raw input `u`. */
  function Key(thetaK: Mat, u: Vec): (r: Vec)
    requires IsMat(thetaK, D, D) && |u| == D
    ensures |r| == D
  {
    MatVec(thetaK, u)
  }

  function Target(thetaV: Mat, u: Vec): (r: Vec)
    requires IsMat(thetaV, D, D) && |u| == D
    ensures |r| == D
  {
    MatVec(thetaV, u)
  }

  predicate Inputs(us: seq<Vec>) {
    forall t :: 0 <= t < |us| ==> |us[t]| == D
  }

  /** The state after writing the first `|rates|` tokens, token `t` with rate `rates[t]`. */
  function Written(us: seq<Vec>, thetaK: Mat, thetaV: Mat, rates: seq<real>): (r: Mat)
    requires Inputs(us) && |rates| <= |us| && IsMat(thetaK, D, D) && IsMat(thetaV, D, D)
    ensures IsMat(r, D, D)
    decreases |rates|
  {
    if |rates| == 0 then Zeros(D, D)
    else
      var t := |rates| - 1;
      MatAdd(Written(us, thetaK, thetaV, rates[..t]),
             MatScale(Outer(Target(thetaV, us[t]), Key(thetaK, us[t])), rates[t]))
  }

  /** `Σ_{i<n} z_i x_iᵀ`. */
  function OuterSum(us: seq<Vec>, thetaK: Mat, thetaV: Mat, n: nat): (r: Mat)
    requires Inputs(us) && n <= |us| && IsMat(thetaK, D, D) && IsMat(thetaV, D, D)
    ensures IsMat(r, D, D)
    decreases n
  {
    if n == 0 then Zeros(D, D)
    else MatAdd(OuterSum(us, thetaK, thetaV, n - 1), Outer(Target(thetaV, us[n - 1]), Key(thetaK, us[n - 1])))
  }

  /** With one learning rate throughout, the state after `t` tokens is `η Σ_{i<t} z_i x_iᵀ`. */
  lemma {:induction false} WrittenClosedForm(us: seq<Vec>, thetaK: Mat, thetaV: Mat, rates: seq<real>, eta: real)
    requires Inputs(us) && |rates| <= |us| && IsMat(thetaK, D, D) && IsMat(thetaV, D, D)
    requires forall t :: 0 <= t < |rates| ==> rates[t] == eta
    ensures Written(us, thetaK, thetaV, rates) == MatScale(OuterSum(us, thetaK, thetaV, |rates|), eta)
    decreases |rates|
  {
    var n := |rates|;
    if n == 0 {
      MatScaleZero(Zeros(D, D), D, D);
      assert MatScale(Zeros(D, D), eta) == Zeros(D, D) by {
        forall i | 0 <= i < D
          ensures MatScale(Zeros(D, D), eta)[i] == Zeros(D, D)[i]
        {
        }
      }
    } else {
      WrittenClosedForm(us, thetaK, thetaV, rates[..n - 1], eta);
      MatScaleAdd(OuterSum(us, thetaK, thetaV, n - 1), Outer(Target(thetaV, us[n - 1]), Key(thetaK, us[n - 1])), eta, D, D);
    }
  }

  /**
    The demo's state: playback position, the projection matrices, the
    raw sequence and the list of written weights.  The ghost `rates`
    records the learning rate each write used (the slider may move between
    writes).
  */
  class Demo {
    var isPlaying: bool
    var step: nat
    var subStep: nat
    var learningRate: real
    var sequence: seq<Vec>
    var weights: seq<Mat>
    var initialW: Mat
    var thetaK: Mat
    var thetaV: Mat
    var thetaQ: Mat
    ghost var rates: seq<real>

    /** The inputs are well-shaped, `W₀ = 0`, and the playback invariant holds. */
    ghost predicate Valid()
      reads this
    {
      Consistent(sequence, thetaK, thetaV, thetaQ, initialW, step, subStep, weights, rates)
    }

    /** The mount effect: a generated sequence and projections, `W₀ = 0`, `weights = [W₀]`. */
    constructor (generated: seq<Vec>, tk: Mat, tv: Mat, tq: Mat)
      requires |generated| == SeqLen && Inputs(generated)
      requires IsMat(tk, D, D) && IsMat(tv, D, D) && IsMat(tq, D, D)
      ensures Valid() && step == 0 && subStep == 0 && !isPlaying && learningRate == 0.5
      ensures sequence == generated && weights == [Zeros(D, D)] && initialW == Zeros(D, D)
      ensures thetaK == tk && thetaV == tv && thetaQ == tq
    {
      isPlaying := false;
      step := 0;
      subStep := 0;
      learningRate := 0.5;
      sequence := generated;
      thetaK, thetaV, thetaQ := tk, tv, tq;
      initialW := Zeros(D, D);
      weights := [Zeros(D, D)];
      rates := [];
    }

    /** `weights[step] || initialW`; the fallback is never needed. */
    function CurrentW(): (r: Mat)
      reads this
      requires Valid()
      ensures r == Written(sequence, thetaK, thetaV, rates[..step])
    {
      weights[step]
    }

    function XTrain(): (r: Vec)
      reads this
      requires Valid()
      ensures |r| == D
    {
      Key(thetaK, sequence[step])
    }

    function ZTrain(): (r: Vec)
      reads this
      requires Valid()
      ensures |r| == D
    {
      Target(thetaV, sequence[step])
    }

    function XTest(): (r: Vec)
      reads this
      requires Valid()
      ensures |r| == D
    {
      MatVec(thetaQ, sequence[step])
    }

    /** The weights the current token would write: the current state plus `η z xᵀ`. */
    function NextW(): (r: Mat)
      reads this
      requires Valid()
      ensures r == MatAdd(CurrentW(), MatScale(Outer(ZTrain(), XTrain()), learningRate))
    {
      NextWeights(CurrentW(), initialW, XTrain(), ZTrain(), learningRate)
    }

    /** `handleNext`: advance the sub-step, or write `nextW` and move to the next token. */
    method HandleNext()
      requires Valid()
      modifies this`weights, this`rates, this`step, this`subStep, this`isPlaying
      ensures Valid()
      ensures unchanged(this`sequence, this`learningRate, this`initialW, this`thetaK, this`thetaV, this`thetaQ)
      ensures old(subStep) < 3 ==>
        subStep == old(subStep) + 1 && step == old(step) && weights == old(weights) && isPlaying == old(isPlaying)
      ensures old(subStep) >= 3 ==> weights == old(weights[..step + 1]) + [old(NextW())]
      ensures old(subStep) >= 3 && old(step) < SeqLen - 1 ==>
        step == old(step) + 1 && subStep == 0 && isPlaying == old(isPlaying)
      ensures old(subStep) >= 3 && old(step) == SeqLen - 1 ==>
        step == old(step) && subStep == 4 && !isPlaying
    {
      if step >= SeqLen {
        // The guard that stops playback past the end: Valid keeps `step < SeqLen`.
        assert false;
      }
      if subStep < 3 {
        subStep := subStep + 1;
      } else {
        var nextW := NextW();
        CommitStep(nextW);
      }
    }

    /** The last sub-step of `handleNext`: store `nextW` at `step + 1`, then advance or finish. */
    method CommitStep(nextW: Mat)
      requires Valid() && subStep >= 3
      requires IsMat(weights[step], D, D)
      requires nextW == MatAdd(weights[step], MatScale(Outer(Target(thetaV, sequence[step]), Key(thetaK, sequence[step])), learningRate))
      modifies this`weights, this`rates, this`step, this`subStep, this`isPlaying
      ensures Valid()
      ensures weights == old(weights[..step + 1]) + [nextW]
      ensures old(step) < SeqLen - 1 ==> step == old(step) + 1 && subStep == 0 && isPlaying == old(isPlaying)
      ensures old(step) == SeqLen - 1 ==> step == old(step) && subStep == 4 && !isPlaying
    {
      var newWeights := StoreAt(weights, step + 1, nextW);
      var last := step == SeqLen - 1;
      CommitState(sequence, thetaK, thetaV, thetaQ, initialW, step, subStep, weights, rates, learningRate, nextW);
      weights, rates := newWeights, rates[..step] + [learningRate];
      step, subStep, isPlaying := if last then step else step + 1, if last then 4 else 0, isPlaying && !last;
    }

    /** `handleReset`. */
    method HandleReset()
      requires Valid()
      modifies this`isPlaying, this`step, this`subStep, this`weights, this`rates
      ensures Valid() && !isPlaying && step == 0 && subStep == 0 && weights == [initialW]
      ensures unchanged(this`sequence, this`learningRate, this`initialW, this`thetaK, this`thetaV, this`thetaQ)
    {
      isPlaying := false;
      step := 0;
      subStep := 0;
      weights := [initialW];
      rates := [];
    }

    /** The learning-rate slider: later writes use the new rate; earlier ones are kept. */
    method SetLearningRate(eta: real)
      requires Valid()
      modifies this`learningRate
      ensures Valid() && learningRate == eta
      ensures unchanged(this`sequence, this`initialW, this`thetaK, this`thetaV, this`thetaQ)
      ensures unchanged(this`isPlaying, this`step, this`subStep, this`weights, this`rates)
    {
      learningRate := eta;
    }

    /** The play/pause button. */
    method TogglePlay()
      requires Valid()
      modifies this`isPlaying
      ensures Valid() && isPlaying == !old(isPlaying)
    {
      isPlaying := !isPlaying;
    }

    /** One tick of the playback interval: `handleNext` while playing, nothing when paused. */
    method Tick()
      requires Valid()
      modifies this`weights, this`rates, this`step, this`subStep, this`isPlaying
      ensures Valid()
      ensures unchanged(this`sequence, this`learningRate, this`initialW, this`thetaK, this`thetaV, this`thetaQ)
      ensures !old(isPlaying) ==> unchanged(this)
      ensures old(isPlaying) && old(subStep) < 3 ==>
        subStep == old(subStep) + 1 && step == old(step) && weights == old(weights) && isPlaying
      ensures old(isPlaying) && old(subStep) >= 3 ==> weights == old(weights[..step + 1]) + [old(NextW())]
      ensures old(isPlaying) && old(subStep) >= 3 && old(step) < SeqLen - 1 ==>
        step == old(step) + 1 && subStep == 0 && isPlaying
      ensures old(isPlaying) && old(subStep) >= 3 && old(step) == SeqLen - 1 ==>
        step == old(step) && subStep == 4 && !isPlaying
    {
      if isPlaying {
        HandleNext();
      }
    }
  }

  /**
    The playback invariant: `step` stays below SeqLen; one weight per
    completed token plus the current one, and one more only in the final
    sub-step 4; every entry is the sum of the writes before it.
  */
  /** The demo's invariant over its field values: well-shaped inputs, `W₀ = 0` and the playback invariant. */
  ghost predicate Consistent(us: seq<Vec>, thetaK: Mat, thetaV: Mat, thetaQ: Mat, initialW: Mat,
                             step: nat, subStep: nat, ws: seq<Mat>, rates: seq<real>)
  {
    |us| == SeqLen && Inputs(us) &&
    IsMat(thetaK, D, D) && IsMat(thetaV, D, D) && IsMat(thetaQ, D, D) &&
    initialW == Zeros(D, D) &&
    Progress(us, thetaK, thetaV, step, subStep, ws, rates)
  }

  ghost predicate Progress(us: seq<Vec>, thetaK: Mat, thetaV: Mat, step: nat, subStep: nat, ws: seq<Mat>, rates: seq<real>)
    requires Inputs(us) && |us| == SeqLen && IsMat(thetaK, D, D) && IsMat(thetaV, D, D)
  {
    step < SeqLen && subStep <= 4 &&
    (subStep < 4 ==> |ws| == step + 1) &&
    (subStep == 4 ==> step == SeqLen - 1 && |ws| == step + 2) &&
    AllWritten(us, thetaK, thetaV, ws, rates)
  }

  /** Every stored weight is the sum of the writes before it. */
  ghost predicate AllWritten(us: seq<Vec>, thetaK: Mat, thetaV: Mat, ws: seq<Mat>, rates: seq<real>)
    requires Inputs(us) && IsMat(thetaK, D, D) && IsMat(thetaV, D, D)
  {
    |rates| == |ws| - 1 && |ws| <= |us| + 1 &&
    forall t :: 0 <= t < |ws| ==> ws[t] == Written(us, thetaK, thetaV, rates[..t])
  }

  /**
    `newWeights[i] = w` on a copy of the array: overwrite entry `i`, or
    append when `i` is one past the end.
  */
  function StoreAt(ws: seq<Mat>, i: nat, w: Mat): (r: seq<Mat>)
    requires i <= |ws|
    ensures |r| == if i < |ws| then |ws| else |ws| + 1
    ensures r[..i] == ws[..i] && r[i] == w && (i < |ws| ==> r[i + 1..] == ws[i + 1..])
  {
    if i < |ws| then ws[i := w] else ws + [w]
  }

  /** Writing token `step` with rate `eta` keeps every stored weight equal to the sum of the writes before it. */
  lemma {:induction false} AppendWrite(us: seq<Vec>, thetaK: Mat, thetaV: Mat, ws: seq<Mat>, rates: seq<real>,
                                       step: nat, eta: real)
    requires Inputs(us) && IsMat(thetaK, D, D) && IsMat(thetaV, D, D)
    requires step < |us| && step < |ws| && |rates| == |ws| - 1 && |ws| <= |us| + 1
    requires AllWritten(us, thetaK, thetaV, ws, rates)
    requires IsMat(ws[step], D, D)
    ensures var nr := rates[..step] + [eta];
      var nw := ws[..step + 1] + [MatAdd(ws[step], MatScale(Outer(Target(thetaV, us[step]), Key(thetaK, us[step])), eta))];
      AllWritten(us, thetaK, thetaV, nw, nr)
  {
    var nr := rates[..step] + [eta];
    assert ws[step] == Written(us, thetaK, thetaV, rates[..step]);
    var nw := ws[..step + 1] + [MatAdd(ws[step], MatScale(Outer(Target(thetaV, us[step]), Key(thetaK, us[step])), eta))];
    forall t | 0 <= t < |nw|
      ensures nw[t] == Written(us, thetaK, thetaV, nr[..t])
    {
      if t <= step {
        assert nr[..t] == rates[..t];
      } else {
        assert nr[..t][..step] == rates[..step];
      }
    }
  }

  /** The last sub-step keeps the playback invariant: `nextW` is stored at `step + 1` and the position advances or finishes. */
  lemma {:induction false} CommitProgress(us: seq<Vec>, thetaK: Mat, thetaV: Mat, step: nat, subStep: nat,
                                          ws: seq<Mat>, rates: seq<real>, eta: real)
    requires Inputs(us) && |us| == SeqLen && IsMat(thetaK, D, D) && IsMat(thetaV, D, D)
    requires Progress(us, thetaK, thetaV, step, subStep, ws, rates) && subStep >= 3
    ensures IsMat(ws[step], D, D)
    ensures var nw := StoreAt(ws, step + 1, MatAdd(ws[step], MatScale(Outer(Target(thetaV, us[step]), Key(thetaK, us[step])), eta)));
      var nr := rates[..step] + [eta];
      nw == ws[..step + 1] + [nw[step + 1]] &&
      Progress(us, thetaK, thetaV, if step < SeqLen - 1 then step + 1 else step, if step < SeqLen - 1 then 0 else 4, nw, nr)
  {
    assert ws[step] == Written(us, thetaK, thetaV, rates[..step]);
    var w := MatAdd(ws[step], MatScale(Outer(Target(thetaV, us[step]), Key(thetaK, us[step])), eta));
    var nw := StoreAt(ws, step + 1, w);
    assert nw == ws[..step + 1] + [w];
    AppendWrite(us, thetaK, thetaV, ws, rates, step, eta);
  }

  /** CommitProgress over the demo's whole state. */
  lemma {:induction false} CommitState(us: seq<Vec>, thetaK: Mat, thetaV: Mat, thetaQ: Mat, initialW: Mat,
                                       step: nat, subStep: nat, ws: seq<Mat>, rates: seq<real>, eta: real, nextW: Mat)
    requires Consistent(us, thetaK, thetaV, thetaQ, initialW, step, subStep, ws, rates) && subStep >= 3
    requires nextW == MatAdd(ws[step], MatScale(Outer(Target(thetaV, us[step]), Key(thetaK, us[step])), eta))
    ensures step + 1 <= |ws|
    ensures StoreAt(ws, step + 1, nextW) == ws[..step + 1] + [nextW]
    ensures var last := step == SeqLen - 1;
      Consistent(us, thetaK, thetaV, thetaQ, initialW, if last then step else step + 1, if last then 4 else 0,
                 StoreAt(ws, step + 1, nextW), rates[..step] + [eta])
  {
    CommitProgress(us, thetaK, thetaV, step, subStep, ws, rates, eta);
  }

  /** Hence at most SeqLen + 1 weights are ever stored and `step ≤ SeqLen - 1`. */
  lemma {:induction false} DemoBounds(d: Demo)
    requires d.Valid()
    ensures d.step <= SeqLen - 1 && |d.weights| <= SeqLen + 1
  {
  }

  /** With a learning rate that never moved, each stored weight is `η Σ_{i<t} z_i x_iᵀ`. */
  lemma {:induction false} DemoWeightsClosedForm(d: Demo, eta: real, t: nat)
    requires d.Valid() && t < |d.weights|
    requires forall i :: 0 <= i < |d.rates| ==> d.rates[i] == eta
    ensures d.weights[t] == MatScale(OuterSum(d.sequence, d.thetaK, d.thetaV, t), eta)
  {
    WrittenClosedForm(d.sequence, d.thetaK, d.thetaV, d.rates[..t], eta);
  }
}
