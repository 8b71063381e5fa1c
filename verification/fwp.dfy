/**
  Linear transformers as fast weight programmers.  The global (transformer)
  view sums `v_i φ(k_i)ᵀ` and `φ(k_i)` over the whole sequence and reads
  the result with `φ(q)`, dividing by the normaliser `z · φ(q)`.  The fast
  weight view builds the same sums one token at a time, up to the current
  `step`; at `step = SEQ_LEN` its state and its output are the global ones.
  The feature map φ is the ReLU.
*/
module FastWeights {
  import opened LinAlg

  const Dim: nat := 2
  const SeqLen: nat := 3

  /** `Math.max(0, x)`. */
  function Relu(x: real): (r: real)
    ensures 0.0 <= r && (r == x || r == 0.0) && x <= r
  {
    if 0.0 < x then x else 0.0
  }

  /** The feature map, applied entrywise: every entry is non-negative, and non-negative entries are kept. */
  function Phi(v: Vec): (r: Vec)
    ensures |r| == |v|
    ensures forall i :: 0 <= i < |v| ==> 0.0 <= r[i] && (0.0 <= v[i] ==> r[i] == v[i])
  {
    seq(|v|, i requires 0 <= i < |v| => Relu(v[i]))
  }

  /**
    `keys.map(k => phi(k))`: every feature-mapped key has the key's length
    and only non-negative entries, and keys that are already non-negative
    pass through unchanged.
  */
  function PhiKeys(keys: Mat): (r: Mat)
    ensures |r| == |keys| && forall i :: 0 <= i < |keys| ==> r[i] == Phi(keys[i])
    ensures forall i :: 0 <= i < |keys| ==> |r[i]| == |keys[i]|
    ensures forall i, j :: 0 <= i < |keys| && 0 <= j < |keys[i]| ==>
      0.0 <= r[i][j] && (0.0 <= keys[i][j] ==> r[i][j] == keys[i][j])
  {
    seq(|keys|, i requires 0 <= i < |keys| => Phi(keys[i]))
  }

  /** Mapping the keys twice is mapping them once. */
  lemma {:induction false} PhiKeysIdempotent(keys: Mat)
    ensures PhiKeys(PhiKeys(keys)) == PhiKeys(keys)
  {
    forall i | 0 <= i < |keys|
      ensures PhiKeys(PhiKeys(keys))[i] == PhiKeys(keys)[i]
    {
      PhiIdempotent(keys[i]);
    }
  }

  /** The feature map is idempotent: its outputs are already non-negative. */
  lemma {:induction false} PhiIdempotent(v: Vec)
    ensures Phi(Phi(v)) == Phi(v)
  {
    var p := Phi(v);
    forall i | 0 <= i < |v|
      ensures Phi(p)[i] == p[i]
    {
      assert 0.0 <= p[i];
    }
  }

  /** A sequence of `n` tokens, each key and value of length `Dim`. */
  predicate Tokens(keys: Mat, values: Mat, n: nat) {
    n <= |keys| && IsMat(keys, |keys|, Dim) && IsMat(values, |keys|, Dim)
  }

  /** `Σ_{i<t} v_i φ(k_i)ᵀ`, accumulated from the zero matrix. */
  function WeightsAt(values: Mat, phiKeys: Mat, t: nat): (r: Mat)
    requires Tokens(phiKeys, values, t)
    ensures IsMat(r, Dim, Dim)
    decreases t
  {
    if t == 0 then Zeros(Dim, Dim)
    else MatAdd(WeightsAt(values, phiKeys, t - 1), Outer(values[t - 1], phiKeys[t - 1]))
  }

  /** `Σ_{i<t} φ(k_i)`, accumulated from the zero vector. */
  function NormaliserAt(phiKeys: Mat, t: nat): (r: Vec)
    requires t <= |phiKeys| && IsMat(phiKeys, |phiKeys|, Dim)
    ensures |r| == Dim
    decreases t
  {
    if t == 0 then ZeroVec(Dim) else VecAdd(NormaliserAt(phiKeys, t - 1), phiKeys[t - 1])
  }

  /**
    The readout `num / (den || 1)`: a zero denominator falls back to 1, so
    the output is then the numerator itself; otherwise the output times the
    denominator gives back the numerator.
  */
  function Output(num: Vec, den: real): (r: Vec)
    ensures |r| == |num|
    ensures den == 0.0 ==> r == num
    ensures den != 0.0 ==> forall i :: 0 <= i < |num| ==> r[i] * den == num[i]
  {
    var s := 1.0 / (if den == 0.0 then 1.0 else den);
    var r := VecScale(num, s);
    forall i | 0 <= i < |num| && den != 0.0
      ensures r[i] * den == num[i]
    {
      DivCancel(num[i], den, s, r[i]);
    }
    r
  }

  lemma {:induction false} DivCancel(x: real, d: real, s: real, y: real)
    requires d != 0.0 && s == 1.0 / d && y == x * s
    ensures y * d == x
  {
    assert s * d == 1.0;
    assert y * d == x * (s * d);
  }

  /** The readout of state `(W, z)` with query `φ(q)`. */
  function ReadState(W: Mat, z: Vec, phiQuery: Vec): (r: Vec)
    requires IsMat(W, Dim, Dim) && |z| == Dim && |phiQuery| == Dim
    ensures |r| == Dim
  {
    Output(MatVec(W, phiQuery), Dot(z, phiQuery))
  }

  // ---------------------------------------------------------------------
  // The three accumulation loops
  // ---------------------------------------------------------------------

  /** The `globalMatrix` memo: add `v_i φ(k_i)ᵀ` for every token. */
  method GlobalMatrix(values: Mat, phiKeys: Mat) returns (M: Mat)
    requires Tokens(phiKeys, values, SeqLen)
    ensures M == WeightsAt(values, phiKeys, SeqLen)
  {
    M := Zeros(Dim, Dim);
    for i := 0 to SeqLen
      invariant M == WeightsAt(values, phiKeys, i)
    {
      var outer := Outer(values[i], phiKeys[i]);
      M := MatAdd(M, outer);
    }
  }

  /** The `globalZ` memo: add `φ(k_i)` for every token. */
  method GlobalZ(phiKeys: Mat) returns (z: Vec)
    requires SeqLen <= |phiKeys| && IsMat(phiKeys, |phiKeys|, Dim)
    ensures z == NormaliserAt(phiKeys, SeqLen)
  {
    z := ZeroVec(Dim);
    for i := 0 to SeqLen
      invariant z == NormaliserAt(phiKeys, i)
    {
      z := VecAdd(z, phiKeys[i]);
    }
  }

  /** The `fwpState` memo: the Hebbian write and the normaliser update for the first `step` tokens. */
  method FwpState(values: Mat, phiKeys: Mat, step: nat) returns (W: Mat, z: Vec)
    requires Tokens(phiKeys, values, step)
    ensures W == WeightsAt(values, phiKeys, step) && z == NormaliserAt(phiKeys, step)
  {
    W := Zeros(Dim, Dim);
    z := ZeroVec(Dim);
    for i := 0 to step
      invariant W == WeightsAt(values, phiKeys, i) && z == NormaliserAt(phiKeys, i)
    {
      var update := Outer(values[i], phiKeys[i]);
      W := MatAdd(W, update);
      z := VecAdd(z, phiKeys[i]);
    }
  }

  // ---------------------------------------------------------------------
  // Properties of the normaliser and the readout
  // ---------------------------------------------------------------------

  /** Sums of feature-mapped keys are non-negative entrywise. */
  lemma {:induction false} NormaliserNonneg(keys: Mat, t: nat)
    requires t <= |keys| && IsMat(keys, |keys|, Dim)
    ensures forall i :: 0 <= i < Dim ==> 0.0 <= NormaliserAt(PhiKeys(keys), t)[i]
    decreases t
  {
    if t > 0 {
      NormaliserNonneg(keys, t - 1);
      assert PhiKeys(keys)[t - 1] == Phi(keys[t - 1]);
    }
  }

  lemma {:induction false} DotNonneg(a: Vec, b: Vec)
    requires |a| == |b|
    requires forall i :: 0 <= i < |a| ==> 0.0 <= a[i] && 0.0 <= b[i]
    ensures 0.0 <= Dot(a, b)
    decreases |a|
  {
    if |a| > 0 {
      DotNonneg(a[..|a| - 1], b[..|b| - 1]);
      assert 0.0 <= a[|a| - 1] * b[|b| - 1];
    }
  }

  /** The denominator `z · φ(q)` is never negative. */
  lemma {:induction false} DenominatorNonneg(keys: Mat, query: Vec, t: nat)
    requires t <= |keys| && IsMat(keys, |keys|, Dim) && |query| == Dim
    ensures 0.0 <= Dot(NormaliserAt(PhiKeys(keys), t), Phi(query))
  {
    NormaliserNonneg(keys, t);
    DotNonneg(NormaliserAt(PhiKeys(keys), t), Phi(query));
  }

  /** Before any token is written, the state is zero and so is the readout. */
  lemma {:induction false} OutputAtStepZero(values: Mat, phiKeys: Mat, phiQuery: Vec)
    requires Tokens(phiKeys, values, 0) && |phiQuery| == Dim
    ensures ReadState(WeightsAt(values, phiKeys, 0), NormaliserAt(phiKeys, 0), phiQuery) == ZeroVec(Dim)
  {
    MatVecZeros(Dim, phiQuery);
    DotZeroL(Dim, phiQuery);
  }

  // ---------------------------------------------------------------------
  // The demo's state
  // ---------------------------------------------------------------------

  const InitialKeys: Mat := [[0.8, 0.2], [0.3, 0.9], [0.6, 0.6]]
  const InitialValues: Mat := [[1.0, 0.0], [0.0, 1.0], [0.5, 0.5]]
  const InitialQuery: Vec := [0.8, 0.2]

  class Demo {
    var keys: Mat
    var values: Mat
    var query: Vec
    var step: nat
    var isPlaying: bool

    /** `SEQ_LEN` keys and values and a query of dimension `DIM`; `step` within the slider's range. */
    ghost predicate Valid()
      reads this
    {
      |keys| == SeqLen && Tokens(keys, values, SeqLen) && |query| == Dim && step <= SeqLen
    }

    /** The mount state: the fixed initial keys, values and query, at step 0, paused. */
    constructor ()
      ensures Valid() && keys == InitialKeys && values == InitialValues && query == InitialQuery
      ensures step == 0 && !isPlaying
    {
      keys, values, query := InitialKeys, InitialValues, InitialQuery;
      step := 0;
      isPlaying := false;
    }

    /** The global matrix `M` for the current keys and values. */
    function GlobalM(): (r: Mat)
      reads this
      requires Valid()
      ensures IsMat(r, Dim, Dim)
    {
      WeightsAt(values, PhiKeys(keys), SeqLen)
    }

    /** The global output, `M φ(q) / (Z · φ(q) || 1)`. */
    function GlobalOutput(): (r: Vec)
      reads this
      requires Valid()
      ensures |r| == Dim
    {
      ReadState(GlobalM(), NormaliserAt(PhiKeys(keys), SeqLen), Phi(query))
    }

    /**
      The fast weight output at the current step.  Once all tokens are
      written the recurrent state is the global one, and the outputs match.
    */
    function FwpOutput(): (r: Vec)
      reads this
      requires Valid()
      ensures step == SeqLen ==> r == GlobalOutput()
      ensures step == 0 ==> r == ZeroVec(Dim)
    {
      var pk := PhiKeys(keys);
      OutputAtStepZero(values, pk, Phi(query));
      ReadState(WeightsAt(values, pk, step), NormaliserAt(pk, step), Phi(query))
    }

    /** `handleReset`, with the regenerated keys and values as parameters; playback is left as it is. */
    method HandleReset(k1: Mat, v1: Mat)
      requires |k1| == SeqLen && Tokens(k1, v1, SeqLen)
      requires Valid()
      modifies this
      ensures Valid() && keys == k1 && values == v1 && step == 0
      ensures query == old(query) && isPlaying == old(isPlaying)
    {
      keys, values := k1, v1;
      step := 0;
    }

    /** Editing key `idx`: the edited vector replaces that key alone. */
    method UpdateKey(idx: nat, newVec: Vec)
      requires Valid() && idx < SeqLen && |newVec| == Dim
      modifies this
      ensures Valid() && keys == old(keys)[idx := newVec]
      ensures values == old(values) && query == old(query) && step == old(step) && isPlaying == old(isPlaying)
    {
      keys := keys[idx := newVec];
    }

    /** Editing value `idx`. */
    method UpdateValue(idx: nat, newVec: Vec)
      requires Valid() && idx < SeqLen && |newVec| == Dim
      modifies this
      ensures Valid() && values == old(values)[idx := newVec]
      ensures keys == old(keys) && query == old(query) && step == old(step) && isPlaying == old(isPlaying)
    {
      values := values[idx := newVec];
    }

    /** Editing the query. */
    method SetQuery(q: Vec)
      requires Valid() && |q| == Dim
      modifies this
      ensures Valid() && query == q
      ensures keys == old(keys) && values == old(values) && step == old(step) && isPlaying == old(isPlaying)
    {
      query := q;
    }

    /** The step slider (range 0..SEQ_LEN) and the skip-back button (`n = 0`). */
    method SetStep(n: nat)
      requires Valid() && n <= SeqLen
      modifies this
      ensures Valid() && step == n
      ensures keys == old(keys) && values == old(values) && query == old(query) && isPlaying == old(isPlaying)
    {
      step := n;
    }

    method TogglePlay()
      requires Valid()
      modifies this
      ensures Valid() && isPlaying == !old(isPlaying)
      ensures keys == old(keys) && values == old(values) && query == old(query) && step == old(step)
    {
      isPlaying := !isPlaying;
    }

    /** One firing of the animation interval: stop at the end, otherwise advance. */
    method Tick()
      requires Valid()
      modifies this
      ensures Valid()
      ensures !old(isPlaying) ==> step == old(step) && !isPlaying
      ensures old(isPlaying) && old(step) >= SeqLen ==> step == old(step) && !isPlaying
      ensures old(isPlaying) && old(step) < SeqLen ==> step == old(step) + 1 && isPlaying
      ensures keys == old(keys) && values == old(values) && query == old(query)
    {
      if !isPlaying {
        return;
      }
      if step >= SeqLen {
        isPlaying := false;
      } else {
        step := step + 1;
      }
    }
  }
}
