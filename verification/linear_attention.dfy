/**
  Linear attention, recurrent against parallel.  A sequence of SeqLen
  tokens carries a query, a key and a value each.  The recurrent view
  accumulates the state `S_t = S_{t-1} + φ(k_t) v_tᵀ` and reads it out
  with the current query; the parallel view forms the attention matrix
  `φ(Q) φ(K)ᵀ` over the first `step` tokens and multiplies it by `V`.
  The feature map φ is the identity, and the two views agree on the
  current token's output.
*/
module LinearAttention {
  import opened LinAlg

  const SeqLen: nat := 4
  const DKey: nat := 2
  const DVal: nat := 2

  /** The feature map `phi(x) = x`. */
  function Phi(v: Vec): (r: Vec)
    ensures |r| == |v| && forall i :: 0 <= i < |v| ==> r[i] == v[i]
  {
    v
  }

  /**
    With the identity feature map the kernel `φ(q)·φ(k)` is the plain dot
    product and the write `φ(k) vᵀ` is `k vᵀ`, so both views may use the
    raw queries and keys.
  */
  lemma {:induction false} IdentityKernel(q: Vec, k: Vec, v: Vec)
    requires |q| == |k|
    ensures Dot(Phi(q), Phi(k)) == Dot(q, k)
    ensures Outer(Phi(k), v) == Outer(k, v)
  {
  }

  /** `rows.map(row => phi(row))`. */
  function PhiRows(M: Mat): (r: Mat)
    ensures r == M
  {
    seq(|M|, i requires 0 <= i < |M| => Phi(M[i]))
  }

  /**
    `matMul` as the source writes it: a triple loop accumulating into
    `result[i][j]`, whose inner bound is the width of `A`'s first row.
  */
  method MatMulLoop(A: Mat, B: Mat) returns (result: Mat)
    requires IsRect(A) && IsRect(B) && |A[0]| == |B|
    ensures IsMat(result, |A|, |B[0]|)
    ensures result == MatMul(A, B)
  {
    var rows, cols := |A|, |B[0]|;
    result := Zeros(rows, cols);
    for i := 0 to rows
      invariant IsMat(result, rows, cols)
      invariant forall r :: 0 <= r < i ==> result[r] == MatMul(A, B)[r]
      invariant forall r :: i <= r < rows ==> result[r] == ZeroVec(cols)
    {
      ghost var before := result;
      for j := 0 to cols
        invariant |result| == rows && |result[i]| == cols
        invariant forall r :: 0 <= r < rows && r != i ==> result[r] == before[r]
        invariant forall c :: 0 <= c < j ==> result[i][c] == Dot(A[i], Col(B, c))
        invariant forall c :: j <= c < cols ==> result[i][c] == 0.0
      {
        ghost var rowBefore := result[i];
        for t := 0 to |A[0]|
          invariant |result| == rows && |result[i]| == cols
          invariant forall r :: 0 <= r < rows && r != i ==> result[r] == before[r]
          invariant forall c :: 0 <= c < cols && c != j ==> result[i][c] == rowBefore[c]
          invariant result[i][j] == Dot(A[i][..t], Col(B, j)[..t])
        {
          DotPrefixStep(A[i], Col(B, j), t);
          result := result[i := result[i][j := result[i][j] + A[i][t] * B[t][j]]];
        }
        assert A[i][..|B|] == A[i] && Col(B, j)[..|B|] == Col(B, j);
      }
      assert result[i] == MatMul(A, B)[i];
    }
  }

  /** Keys and values of at least `t` tokens, with the dimensions the demo uses. */
  predicate Tokens(K: Mat, V: Mat, t: nat) {
    t <= |K| && IsMat(K, |K|, DKey) && IsMat(V, |K|, DVal)
  }

  /** The recurrent state after `t` tokens: `Σ_{i<t} φ(k_i) v_iᵀ`, from the zero matrix. */
  function StateAt(K: Mat, V: Mat, t: nat): (r: Mat)
    requires Tokens(K, V, t)
    ensures IsMat(r, DKey, DVal)
    decreases t
  {
    if t == 0 then Zeros(DKey, DVal)
    else MatAdd(StateAt(K, V, t - 1), Outer(Phi(K[t - 1]), V[t - 1]))
  }

  /**
    The `states` loop in `reset`: start from the zero matrix, then add one
    outer product per token and push every intermediate state.
  */
  method ComputeStates(K: Mat, V: Mat) returns (states: seq<Mat>)
    requires Tokens(K, V, SeqLen)
    ensures |states| == SeqLen + 1 && states[0] == Zeros(DKey, DVal)
    ensures forall t :: 0 <= t <= SeqLen ==> states[t] == StateAt(K, V, t)
  {
    states := [Zeros(DKey, DVal)];
    var currentS := Zeros(DKey, DVal);
    for t := 0 to SeqLen
      invariant |states| == t + 1 && currentS == StateAt(K, V, t)
      invariant forall i :: 0 <= i <= t ==> states[i] == StateAt(K, V, i)
    {
      var phiK := Phi(K[t]);
      var update := Outer(phiK, V[t]);
      currentS := MatAdd(currentS, update);
      states := states + [currentS];
    }
  }

  /**
    The readout both views compute for query `q` after `t` tokens:
    `Σ_{i<t} (q · k_i) v_i`.
  */
  function Readout(q: Vec, K: Mat, V: Mat, t: nat): (r: Vec)
    requires Tokens(K, V, t) && |q| == DKey
    ensures |r| == DVal
    decreases t
  {
    if t == 0 then ZeroVec(DVal)
    else VecAdd(Readout(q, K, V, t - 1), VecScale(V[t - 1], Dot(q, K[t - 1])))
  }

  /** The scores of query `q` against the first `t` keys: one row of `φ(Q) φ(K)ᵀ`. */
  function Scores(q: Vec, K: Mat, t: nat): (r: Vec)
    requires t <= |K| && IsMat(K, |K|, DKey) && |q| == DKey
    ensures |r| == t && forall i :: 0 <= i < t ==> r[i] == Dot(q, K[i])
  {
    seq(t, i requires 0 <= i < t => Dot(q, K[i]))
  }

  /**
    The scores of the current query are `K q` over the first `t` keys, and
    they are the last row of the parallel attention matrix `φ(Q) φ(K)ᵀ`.
  */
  lemma {:induction false} ScoresAreAttnRow(Q: Mat, K: Mat, t: nat)
    requires 0 < t && t <= |Q| && t <= |K| && IsMat(Q, |Q|, DKey) && IsMat(K, |K|, DKey)
    ensures Scores(Q[t - 1], K, t) == MatVec(K[..t], Q[t - 1])
    ensures Scores(Q[t - 1], K, t) == AttnMatrix(Q, K, t)[t - 1]
  {
    var q := Q[t - 1];
    forall i | 0 <= i < t
      ensures Scores(q, K, t)[i] == MatVec(K[..t], q)[i]
    {
      DotSymm(q, K[i]);
    }
  }

  /** The parallel attention matrix over the first `t > 0` tokens. */
  function AttnMatrix(Q: Mat, K: Mat, t: nat): (r: Mat)
    requires 0 < t && t <= |Q| && t <= |K| && IsMat(Q, |Q|, DKey) && IsMat(K, |K|, DKey)
    ensures IsMat(r, t, t)
    ensures forall i, j :: 0 <= i < t && 0 <= j < t ==> r[i][j] == Dot(Q[i], K[j])
  {
    var phiK := PhiRows(K[..t]);
    assert IsRect(phiK);
    var A := MatMul(PhiRows(Q[..t]), Transpose(phiK));
    forall i, j | 0 <= i < t && 0 <= j < t
      ensures A[i][j] == Dot(Q[i], K[j])
    {
      ColTranspose(phiK, j);
    }
    A
  }

  /** `matMul(parallelAttnMatrix, activeV)` for `step > 0`, empty otherwise. */
  function ParallelOutput(Q: Mat, K: Mat, V: Mat, t: nat): (r: Mat)
    requires t <= |Q| && IsMat(Q, |Q|, DKey) && Tokens(K, V, t)
    ensures t > 0 ==> IsMat(r, t, DVal)
    ensures t == 0 ==> r == []
  {
    if t == 0 then [] else MatMul(AttnMatrix(Q, K, t), V[..t])
  }

  /** The recurrent readout `matMul([q], S)[0]` for `step > 0`, zeros otherwise. */
  function RecurrentOutput(Q: Mat, K: Mat, V: Mat, t: nat): (r: Vec)
    requires t <= |Q| && IsMat(Q, |Q|, DKey) && Tokens(K, V, t)
    ensures |r| == DVal
    ensures t == 0 ==> r == ZeroVec(DVal)
  {
    if t == 0 then ZeroVec(DVal) else MatMul([Q[t - 1]], StateAt(K, V, t))[0]
  }

  /** The last row of the parallel output, or zeros when there is none. */
  function LastRow(P: Mat): (r: Vec)
    requires |P| > 0 ==> |P[|P| - 1]| == DVal
    ensures |r| == DVal
    ensures |P| == 0 ==> r == ZeroVec(DVal)
  {
    if |P| > 0 then P[|P| - 1] else ZeroVec(DVal)
  }

  // ---------------------------------------------------------------------
  // Recurrent = parallel
  // ---------------------------------------------------------------------

  /** Reading the recurrent state with `q` gives the readout. */
  lemma {:induction false} RecurrentIsReadout(q: Vec, K: Mat, V: Mat, t: nat)
    requires Tokens(K, V, t) && |q| == DKey
    ensures VecMat(q, StateAt(K, V, t)) == Readout(q, K, V, t)
    decreases t
  {
    if t == 0 {
      VecMatZeros(q, DVal);
    } else {
      RecurrentIsReadout(q, K, V, t - 1);
      VecMatAddOuter(q, StateAt(K, V, t - 1), Phi(K[t - 1]), V[t - 1]);
    }
  }

  /** Weighting the first `t` values by the scores gives the readout, column by column. */
  lemma {:induction false} ScoresTimesValues(q: Vec, K: Mat, V: Mat, t: nat, j: nat)
    requires Tokens(K, V, t) && |q| == DKey && j < DVal
    ensures Dot(Scores(q, K, t), Col(V[..t], j)) == Readout(q, K, V, t)[j]
    decreases t
  {
    if t > 0 {
      ScoresTimesValues(q, K, V, t - 1, j);
      assert Scores(q, K, t)[..t - 1] == Scores(q, K, t - 1);
      assert Col(V[..t], j)[..t - 1] == Col(V[..t - 1], j);
    }
  }

  /**
    For `0 < t`, the recurrent output for token `t` equals the last row of
    `(φ(Q) φ(K)ᵀ) V` over the first `t` tokens, and both are the readout.
    The recurrent side multiplies the raw query, which is `φ(q)` because φ
    is the identity.
  */
  lemma {:induction false} RecurrentEqualsParallel(Q: Mat, K: Mat, V: Mat, t: nat)
    requires t <= |Q| && IsMat(Q, |Q|, DKey) && Tokens(K, V, t)
    ensures RecurrentOutput(Q, K, V, t) == LastRow(ParallelOutput(Q, K, V, t))
    ensures t > 0 ==> RecurrentOutput(Q, K, V, t) == Readout(Q[t - 1], K, V, t)
  {
    if t > 0 {
      RecurrentIsReadout(Q[t - 1], K, V, t);
      ParallelLastRow(Q, K, V, t);
    }
  }

  /** The last row of the parallel output is the readout of the last query. */
  lemma {:induction false} ParallelLastRow(Q: Mat, K: Mat, V: Mat, t: nat)
    requires 0 < t <= |Q| && IsMat(Q, |Q|, DKey) && Tokens(K, V, t)
    ensures ParallelOutput(Q, K, V, t)[t - 1] == Readout(Q[t - 1], K, V, t)
  {
    var q := Q[t - 1];
    var A := AttnMatrix(Q, K, t);
    assert A[t - 1] == Scores(q, K, t);
    var P := MatMul(A, V[..t]);
    forall j | 0 <= j < DVal
      ensures P[t - 1][j] == Readout(q, K, V, t)[j]
    {
      ScoresTimesValues(q, K, V, t, j);
    }
  }

  /** `transpose` swaps the dimensions and undoes itself. */
  lemma {:induction false} TransposeInvolution(M: Mat)
    requires IsRect(M) && |M[0]| > 0
    ensures IsMat(Transpose(M), |M[0]|, |M|)
    ensures Transpose(Transpose(M)) == M
  {
    TransposeTranspose(M);
  }

  // ---------------------------------------------------------------------
  // The demo's playback state
  // ---------------------------------------------------------------------

  class Demo {
    var Q: Mat
    var K: Mat
    var V: Mat
    var step: nat
    var isPlaying: bool
    var history: seq<Mat>

    /** The inputs have the demo's shape, `history` is the state evolution, `step` is a valid position. */
    ghost predicate Valid()
      reads this
    {
      IsMat(Q, SeqLen, DKey) && Tokens(K, V, SeqLen) && |K| == SeqLen &&
      |history| == SeqLen + 1 && (forall t :: 0 <= t <= SeqLen ==> history[t] == StateAt(K, V, t)) &&
      step <= SeqLen
    }

    /** The initialisation effect: `reset` with the first generated inputs. */
    constructor (newQ: Mat, newK: Mat, newV: Mat)
      requires IsMat(newQ, SeqLen, DKey) && IsMat(newK, SeqLen, DKey) && IsMat(newV, SeqLen, DVal)
      ensures Valid() && Q == newQ && K == newK && V == newV && step == 0 && !isPlaying
    {
      Q, K, V := newQ, newK, newV;
      var states := ComputeStates(newK, newV);
      history := states;
      step := 0;
      isPlaying := false;
    }

    /** `reset`, with freshly generated inputs as parameters: recompute the states, rewind, pause. */
    method Reset(newQ: Mat, newK: Mat, newV: Mat)
      requires IsMat(newQ, SeqLen, DKey) && IsMat(newK, SeqLen, DKey) && IsMat(newV, SeqLen, DVal)
      modifies this
      ensures Valid() && Q == newQ && K == newK && V == newV && step == 0 && !isPlaying
    {
      Q, K, V := newQ, newK, newV;
      var states := ComputeStates(newK, newV);
      history := states;
      step := 0;
      isPlaying := false;
    }

    /** The step button: `setStep(Math.min(step + 1, SEQ_LEN))`. */
    method StepForward()
      requires Valid()
      modifies this
      ensures Valid() && step == if old(step) < SeqLen then old(step) + 1 else SeqLen
      ensures Q == old(Q) && K == old(K) && V == old(V) && history == old(history) && isPlaying == old(isPlaying)
    {
      step := if step + 1 < SeqLen then step + 1 else SeqLen;
    }

    /** The play button, disabled once `step` reaches the end. */
    method TogglePlay()
      requires Valid() && step < SeqLen
      modifies this
      ensures Valid() && isPlaying == !old(isPlaying)
      ensures Q == old(Q) && K == old(K) && V == old(V) && history == old(history) && step == old(step)
    {
      isPlaying := !isPlaying;
    }

    /** One run of the playback effect with its interval firing once. */
    method Tick()
      requires Valid()
      modifies this
      ensures Valid()
      ensures old(isPlaying) && old(step) < SeqLen ==> step == old(step) + 1 && isPlaying
      ensures old(step) >= SeqLen ==> step == old(step) && !isPlaying
      ensures !old(isPlaying) && old(step) < SeqLen ==> step == old(step) && !isPlaying
      ensures Q == old(Q) && K == old(K) && V == old(V) && history == old(history)
    {
      if isPlaying && step < SeqLen {
        step := step + 1;
      } else if step >= SeqLen {
        isPlaying := false;
      }
    }

    /** `S_history[step]`; the zero fallback is never needed. */
    function CurrentS(): (r: Mat)
      reads this
      requires Valid()
      ensures r == StateAt(K, V, step)
    {
      history[step]
    }

    /** `S_{step-1}`, or zeros at step 0. */
    function PrevS(): (r: Mat)
      reads this
      requires Valid()
      ensures step > 0 ==> r == StateAt(K, V, step - 1)
      ensures step == 0 ==> r == Zeros(DKey, DVal)
    {
      if step > 0 then history[step - 1] else Zeros(DKey, DVal)
    }

    /** The update term `φ(k) vᵀ` of the current token: the difference between the current and the previous state. */
    function UpdateMatrix(): (r: Mat)
      reads this
      requires Valid()
      ensures IsMat(r, DKey, DVal)
      ensures step > 0 ==> CurrentS() == MatAdd(PrevS(), r)
      ensures step == 0 ==> r == Zeros(DKey, DVal)
    {
      if step > 0 then Outer(Phi(K[step - 1]), V[step - 1]) else Zeros(DKey, DVal)
    }

    /** The recurrent output shown for the current step. */
    function RecurrentOutputVector(): (r: Vec)
      reads this
      requires Valid()
      ensures r == RecurrentOutput(Q, K, V, step)
      ensures step == 0 ==> r == ZeroVec(DVal)
    {
      if step > 0 then MatMul([Q[step - 1]], history[step])[0] else ZeroVec(DVal)
    }

    /** The last row of the parallel output, the figure shown beside the recurrent one. */
    function CurrentParallelOutputVector(): (r: Vec)
      reads this
      requires Valid()
      ensures r == RecurrentOutputVector()
    {
      RecurrentEqualsParallel(Q, K, V, step);
      LastRow(ParallelOutput(Q, K, V, step))
    }
  }
}
