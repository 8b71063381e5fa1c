/**
  A fast weight memory read as a state space model.  Each token brings a
  key, a value and a query; the state `S` is first read with the query
  (`y_t = S_{t-1} q_t`), then decayed and written:
  `S_t = λ S_{t-1} + v_t k_tᵀ`.  That is the recurrence
  `h_t = A h_{t-1} + B u_t` with `A = λ I`, `B = I` and input `u_t = v_t k_tᵀ`,
  whose closed form is `S_t = Σ_{i<t} λ^{t-1-i} v_i k_iᵀ`.  The demo
  precomputes one history entry per step and plays them back.
*/
module SSM {
  import opened LinAlg

  const SeqLen: nat := 5
  const Dim: nat := 2

  datatype Option<T> = None | Some(value: T)

  /** One token: key, value and query. */
  datatype Input = Input(k: Vec, v: Vec, q: Vec)

  /** One history entry (its explanation text aside). */
  datatype Entry = Entry(step: nat, input: Option<Input>, updateMatrix: Mat, sPrev: Mat, sCurr: Mat, output: Vec)

  /** Every token's vectors have `DIM` entries. */
  predicate WellFormed(inputs: seq<Input>) {
    forall t :: 0 <= t < |inputs| ==> |inputs[t].k| == Dim && |inputs[t].v| == Dim && |inputs[t].q| == Dim
  }

  /** `S.map((row, i) => row.map((val, j) => val * decay + U[i][j]))`. */
  function DecayAdd(S: Mat, decay: real, U: Mat): (r: Mat)
    requires IsMat(S, Dim, Dim) && IsMat(U, Dim, Dim)
    ensures IsMat(r, Dim, Dim)
    ensures forall i, j :: 0 <= i < Dim && 0 <= j < Dim ==> r[i][j] == S[i][j] * decay + U[i][j]
  {
    seq(Dim, i requires 0 <= i < Dim => seq(Dim, j requires 0 <= j < Dim => S[i][j] * decay + U[i][j]))
  }

  /** The decay-and-add step is the affine map `λ S + U`, written with the matrix operations. */
  lemma {:induction false} DecayAddIsAffine(S: Mat, decay: real, U: Mat)
    requires IsMat(S, Dim, Dim) && IsMat(U, Dim, Dim)
    ensures DecayAdd(S, decay, U) == MatAdd(MatScale(S, decay), U)
  {
    var r := MatAdd(MatScale(S, decay), U);
    forall i, j | 0 <= i < Dim && 0 <= j < Dim
      ensures DecayAdd(S, decay, U)[i][j] == r[i][j]
    {
    }
    MatExt(DecayAdd(S, decay, U), r, Dim, Dim);
  }

  /** The state after the first `t` tokens. */
  function StateAt(inputs: seq<Input>, decay: real, t: nat): (r: Mat)
    requires WellFormed(inputs) && t <= |inputs|
    ensures IsMat(r, Dim, Dim)
    decreases t
  {
    if t == 0 then Zeros(Dim, Dim)
    else DecayAdd(StateAt(inputs, decay, t - 1), decay, Outer(inputs[t - 1].v, inputs[t - 1].k))
  }

  /** History entry `t`: the zero entry first, then for each token the read, the write and both states. */
  function EntryAt(inputs: seq<Input>, decay: real, t: nat): (e: Entry)
    requires WellFormed(inputs) && t <= |inputs|
  {
    if t == 0 then Entry(0, None, Zeros(Dim, Dim), Zeros(Dim, Dim), Zeros(Dim, Dim), ZeroVec(Dim))
    else
      var x := inputs[t - 1];
      var S := StateAt(inputs, decay, t - 1);
      Entry(t, Some(x), Outer(x.v, x.k), S, StateAt(inputs, decay, t), MatVec(S, x.q))
  }

  /** The whole history for the given inputs and decay. */
  function History(inputs: seq<Input>, decay: real): (h: seq<Entry>)
    requires WellFormed(inputs)
    ensures |h| == |inputs| + 1
    ensures forall t :: 0 <= t <= |inputs| ==> h[t] == EntryAt(inputs, decay, t)
  {
    seq(|inputs| + 1, t requires 0 <= t <= |inputs| => EntryAt(inputs, decay, t))
  }

  /**
    The history effect: nothing happens while there are no inputs;
    otherwise it pushes the zero entry, then reads, writes and pushes one
    entry per token.
  */
  method ComputeHistory(inputs: seq<Input>, decay: real) returns (r: Option<seq<Entry>>)
    requires WellFormed(inputs)
    ensures |inputs| == 0 ==> r == None
    ensures |inputs| > 0 ==> r == Some(History(inputs, decay))
  {
    if |inputs| == 0 {
      return None;
    }
    var S := Zeros(Dim, Dim);
    var hist := [Entry(0, None, Zeros(Dim, Dim), S, S, ZeroVec(Dim))];
    for t := 0 to |inputs|
      invariant |hist| == t + 1 && S == StateAt(inputs, decay, t)
      invariant forall i :: 0 <= i <= t ==> hist[i] == EntryAt(inputs, decay, i)
    {
      var x := inputs[t];
      var output := MatVec(S, x.q);
      var updateMatrix := Outer(x.v, x.k);
      var sPrev := S;
      S := DecayAdd(S, decay, updateMatrix);
      hist := hist + [Entry(t + 1, Some(x), updateMatrix, sPrev, S, output)];
    }
    assert hist == History(inputs, decay);
    return Some(hist);
  }

  // ---------------------------------------------------------------------
  // Properties of the history
  // ---------------------------------------------------------------------

  /**
    Entry `t` is numbered `t`; entry 0 is all zeros; each later entry reads
    the state before its own write, writes `v kᵀ` with the decay, and starts
    from the state the previous entry ended in.
  */
  lemma {:induction false} HistoryShape(inputs: seq<Input>, decay: real, t: nat)
    requires WellFormed(inputs) && t < |inputs|
    ensures var h := History(inputs, decay);
      h[t].step == t && h[t + 1].step == t + 1 && h[t + 1].input == Some(inputs[t]) &&
      h[t + 1].output == MatVec(h[t + 1].sPrev, inputs[t].q) &&
      h[t + 1].sPrev == h[t].sCurr &&
      h[t + 1].updateMatrix == Outer(inputs[t].v, inputs[t].k) &&
      h[t + 1].sCurr == DecayAdd(h[t + 1].sPrev, decay, h[t + 1].updateMatrix)
    ensures var h := History(inputs, decay);
      h[0].sPrev == h[0].sCurr == h[0].updateMatrix == Zeros(Dim, Dim) && h[0].output == ZeroVec(Dim)
  {
  }

  /** With no decay the state forgets everything but the latest write. */
  lemma {:induction false} DecayZeroKeepsLatest(inputs: seq<Input>, t: nat)
    requires WellFormed(inputs) && t < |inputs|
    ensures StateAt(inputs, 0.0, t + 1) == Outer(inputs[t].v, inputs[t].k)
  {
    var S := StateAt(inputs, 0.0, t + 1);
    var U := Outer(inputs[t].v, inputs[t].k);
    forall i, j | 0 <= i < Dim && 0 <= j < Dim
      ensures S[i][j] == U[i][j]
    {
    }
    MatExt(S, U, Dim, Dim);
  }

  /** The decayed write is `h_t = A h_{t-1} + B u_t` with `A = λ I` and `B = I`. */
  lemma {:induction false} IsStateSpaceStep(inputs: seq<Input>, decay: real, t: nat)
    requires WellFormed(inputs) && t < |inputs|
    ensures StateAt(inputs, decay, t + 1)
         == MatAdd(MatMul(MatScale(Identity(Dim), decay), StateAt(inputs, decay, t)),
                   MatMul(Identity(Dim), Outer(inputs[t].v, inputs[t].k)))
  {
    var S := StateAt(inputs, decay, t);
    var U := Outer(inputs[t].v, inputs[t].k);
    MatMulScaleL(Identity(Dim), decay, S);
    MatMulIdentityL(S);
    MatMulIdentityL(U);
    var R := MatAdd(MatScale(S, decay), U);
    forall i, j | 0 <= i < Dim && 0 <= j < Dim
      ensures StateAt(inputs, decay, t + 1)[i][j] == R[i][j]
    {
    }
    MatExt(StateAt(inputs, decay, t + 1), R, Dim, Dim);
  }

  // ---------------------------------------------------------------------
  // Closed form
  // ---------------------------------------------------------------------

  function Pow(b: real, n: nat): real
    decreases n
  {
    if n == 0 then 1.0 else b * Pow(b, n - 1)
  }

  /** Entry `[i][j]` of each token's write `v kᵀ`, in order. */
  function Terms(inputs: seq<Input>, i: nat, j: nat): (r: seq<real>)
    requires WellFormed(inputs) && i < Dim && j < Dim
    ensures |r| == |inputs| && forall m :: 0 <= m < |inputs| ==> r[m] == inputs[m].v[i] * inputs[m].k[j]
  {
    seq(|inputs|, m requires 0 <= m < |inputs| => inputs[m].v[i] * inputs[m].k[j])
  }

  /** `Σ_{s<m} λ^{t-1-s} xs[s]`: the first `m` terms of the closed form after `t` tokens. */
  function Closed(xs: seq<real>, decay: real, t: nat, m: nat): real
    requires m <= t <= |xs|
    decreases m
  {
    if m == 0 then 0.0
    else Closed(xs, decay, t, m - 1) + Pow(decay, t - m) * xs[m - 1]
  }

  /** Entry `[i][j]` of `Σ_{s<m} λ^{t-1-s} v_s k_sᵀ`. */
  function ClosedEntry(inputs: seq<Input>, decay: real, t: nat, m: nat, i: nat, j: nat): real
    requires WellFormed(inputs) && m <= t <= |inputs| && i < Dim && j < Dim
  {
    Closed(Terms(inputs, i, j), decay, t, m)
  }

  /** `S_t[i][j] = Σ_{s<t} λ^{t-1-s} v_s[i] k_s[j]`. */
  lemma {:induction false} ClosedForm(inputs: seq<Input>, decay: real, t: nat, i: nat, j: nat)
    requires WellFormed(inputs) && t <= |inputs| && i < Dim && j < Dim
    ensures StateAt(inputs, decay, t)[i][j] == ClosedEntry(inputs, decay, t, t, i, j)
    decreases t
  {
    if t > 0 {
      ClosedForm(inputs, decay, t - 1, i, j);
      ClosedStep(inputs, decay, t, i, j);
    }
  }

  /** If the closed form holds after `t - 1` tokens it holds after `t`. */
  lemma {:induction false} ClosedStep(inputs: seq<Input>, decay: real, t: nat, i: nat, j: nat)
    requires WellFormed(inputs) && 0 < t <= |inputs| && i < Dim && j < Dim
    requires StateAt(inputs, decay, t - 1)[i][j] == ClosedEntry(inputs, decay, t - 1, t - 1, i, j)
    ensures StateAt(inputs, decay, t)[i][j] == ClosedEntry(inputs, decay, t, t, i, j)
  {
    var xs := Terms(inputs, i, j);
    StateEntryStep(inputs, decay, t, i, j);
    ClosedLast(xs, decay, t);
  }

  /** Entry `[i][j]` of the recurrence: decay the old entry and add this token's write. */
  lemma {:induction false} StateEntryStep(inputs: seq<Input>, decay: real, t: nat, i: nat, j: nat)
    requires WellFormed(inputs) && 0 < t <= |inputs| && i < Dim && j < Dim
    ensures StateAt(inputs, decay, t)[i][j] == DecayStep(StateAt(inputs, decay, t - 1)[i][j], decay, Terms(inputs, i, j)[t - 1])
  {
    assert Outer(inputs[t - 1].v, inputs[t - 1].k)[i][j] == Terms(inputs, i, j)[t - 1];
  }

  /** The closed form after `t` tokens is the one after `t - 1`, decayed, plus the newest term. */
  lemma {:induction false} ClosedLast(xs: seq<real>, decay: real, t: nat)
    requires 0 < t <= |xs|
    ensures Closed(xs, decay, t, t) == DecayStep(Closed(xs, decay, t - 1, t - 1), decay, xs[t - 1])
  {
    DecayShifts(xs, decay, t - 1, t - 1);
    assert Pow(decay, 0) == 1.0;
    assert Closed(xs, decay, t, t) == Closed(xs, decay, t, t - 1) + 1.0 * xs[t - 1];
  }

  /** One step of the scalar recurrence `h' = λ h + u`. */
  function DecayStep(h: real, decay: real, u: real): real {
    h * decay + u
  }

  /** Decaying the first `m` terms of the closed form for `t` tokens gives those for `t + 1`. */
  lemma {:induction false} DecayShifts(xs: seq<real>, decay: real, t: nat, m: nat)
    requires m <= t < |xs|
    ensures Closed(xs, decay, t, m) * decay == Closed(xs, decay, t + 1, m)
    decreases m
  {
    if m > 0 {
      DecayShifts(xs, decay, t, m - 1);
      ShiftStep(xs, decay, t, m);
    }
  }

  /** If decaying the first `m - 1` terms shifts them, so does decaying the first `m`. */
  lemma {:induction false} ShiftStep(xs: seq<real>, decay: real, t: nat, m: nat)
    requires 0 < m <= t < |xs|
    requires Closed(xs, decay, t, m - 1) * decay == Closed(xs, decay, t + 1, m - 1)
    ensures Closed(xs, decay, t, m) * decay == Closed(xs, decay, t + 1, m)
  {
    var p, p' := Pow(decay, t - m), Pow(decay, t + 1 - m);
    assert p' == decay * p;
    DistributeDecay(decay, Closed(xs, decay, t, m - 1), Closed(xs, decay, t + 1, m - 1), p, p', xs[m - 1],
                    Closed(xs, decay, t, m), Closed(xs, decay, t + 1, m));
  }

  /** `(c + p x) d = c d + (d p) x`, with every product named. */
  lemma {:induction false} DistributeDecay(d: real, c: real, c': real, p: real, p': real, x: real, a: real, b: real)
    requires c' == c * d && p' == d * p
    requires a == c + p * x && b == c' + p' * x
    ensures a * d == b
  {
  }

  // ---------------------------------------------------------------------
  // The demo's state
  // ---------------------------------------------------------------------

  /** Which vector of a token an edit touches. */
  datatype Field = KField | VField | QField

  /** `newInputs[t][type][idx] = val`, as a value update. */
  function EditInput(x: Input, field: Field, idx: nat, val: real): (r: Input)
    requires idx < |x.k| && idx < |x.v| && idx < |x.q|
    ensures |r.k| == |x.k| && |r.v| == |x.v| && |r.q| == |x.q|
    ensures (field == KField ==> r.k[idx] == val) && (field == VField ==> r.v[idx] == val) &&
            (field == QField ==> r.q[idx] == val)
    ensures forall j :: 0 <= j < |x.k| && (field != KField || j != idx) ==> r.k[j] == x.k[j]
    ensures forall j :: 0 <= j < |x.v| && (field != VField || j != idx) ==> r.v[j] == x.v[j]
    ensures forall j :: 0 <= j < |x.q| && (field != QField || j != idx) ==> r.q[j] == x.q[j]
  {
    match field
    case KField => x.(k := x.k[idx := val])
    case VField => x.(v := x.v[idx := val])
    case QField => x.(q := x.q[idx := val])
  }

  class Demo {
    var isPlaying: bool
    var step: nat
    var decay: real
    var inputs: seq<Input>
    var history: seq<Entry>

    /** `SEQ_LEN` well-formed tokens, the history recomputed for them, and `step` within it. */
    ghost predicate Valid()
      reads this
    {
      |inputs| == SeqLen && WellFormed(inputs) && history == History(inputs, decay) && step <= SeqLen
    }

    /** Mounting: decay 0.8, inputs generated (here: given), then the history effect. */
    constructor (generated: seq<Input>)
      requires |generated| == SeqLen && WellFormed(generated)
      ensures Valid() && inputs == generated && decay == 0.8 && step == 0 && !isPlaying
    {
      isPlaying := false;
      step := 0;
      decay := 0.8;
      inputs := generated;
      var h := ComputeHistory(generated, 0.8);
      history := h.value;
    }

    /** `currentData`: `history[step]`; the fallback to `history[0]` is never needed. */
    function CurrentData(): (e: Entry)
      reads this
      requires Valid()
      ensures e == EntryAt(inputs, decay, step) && e.step == step
    {
      history[step]
    }

    /** `generateInputs`, followed by the history effect. */
    method GenerateInputs(generated: seq<Input>)
      requires |generated| == SeqLen && WellFormed(generated)
      modifies this
      ensures Valid() && inputs == generated && step == 0 && !isPlaying && decay == old(decay)
    {
      inputs := generated;
      step := 0;
      isPlaying := false;
      var h := ComputeHistory(generated, decay);
      history := h.value;
    }

    /** The decay slider (0 to 1), followed by the history effect. */
    method SetDecay(d: real)
      requires Valid() && 0.0 <= d <= 1.0
      modifies this
      ensures Valid() && decay == d
      ensures inputs == old(inputs) && step == old(step) && isPlaying == old(isPlaying)
    {
      decay := d;
      var h := ComputeHistory(inputs, d);
      history := h.value;
    }

    /** `updateInput`: one entry of one token's vector changes, then the history effect runs. */
    method UpdateInput(t: nat, field: Field, idx: nat, val: real)
      requires Valid() && t < SeqLen && idx < Dim
      modifies this
      ensures Valid() && inputs == old(inputs)[t := EditInput(old(inputs)[t], field, idx, val)]
      ensures decay == old(decay) && step == old(step) && isPlaying == old(isPlaying)
    {
      var edited := inputs[t := EditInput(inputs[t], field, idx, val)];
      inputs := edited;
      var h := ComputeHistory(edited, decay);
      history := h.value;
    }

    /** The skip-back button. */
    method SkipBack()
      requires Valid()
      modifies this
      ensures Valid() && step == 0
      ensures inputs == old(inputs) && decay == old(decay) && history == old(history) && isPlaying == old(isPlaying)
    {
      step := 0;
    }

    /** The skip-forward button: `Math.min(step + 1, SEQ_LEN)`. */
    method StepForward()
      requires Valid()
      modifies this
      ensures Valid() && step == if old(step) < SeqLen then old(step) + 1 else SeqLen
      ensures inputs == old(inputs) && decay == old(decay) && history == old(history) && isPlaying == old(isPlaying)
    {
      step := if step + 1 < SeqLen then step + 1 else SeqLen;
    }

    method TogglePlay()
      requires Valid()
      modifies this
      ensures Valid() && isPlaying == !old(isPlaying)
      ensures inputs == old(inputs) && decay == old(decay) && history == old(history) && step == old(step)
    {
      isPlaying := !isPlaying;
    }

    /** One run of the playback effect with its interval firing once. */
    method Tick()
      requires Valid()
      modifies this
      ensures Valid()
      ensures old(isPlaying) && old(step) < SeqLen ==> step == old(step) + 1 && isPlaying
      ensures old(step) >= SeqLen ==> step == old(step) && !isPlaying
      ensures !old(isPlaying) && old(step) < SeqLen ==> step == old(step) && !isPlaying
      ensures inputs == old(inputs) && decay == old(decay) && history == old(history)
    {
      if isPlaying && step < SeqLen {
        step := step + 1;
      } else if step >= SeqLen {
        isPlaying := false;
      }
    }
  }
}
