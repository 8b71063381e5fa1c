/**
  One-dimensional test-time training: a sequence of samples `(k, v)` and a
  scalar weight `w` updated by `w += eta k v` for each sample in turn, the
  batch gradient step at `w0 = 0` that coincides with the linear-attention
  accumulation `eta Σ k v`.  The demo keeps the whole weight history, the
  per-sample deltas, and a playback position `step` that selects the
  current weight.
*/
module TTTLinearRegression {

  /** One generated sample: an id, a key `k` and a value `v`. */
  datatype Point = Point(id: nat, k: real, v: real)

  /** The update contributed by one sample: `learningRate * point.k * point.v`. */
  function Delta(eta: real, p: Point): real {
    eta * p.k * p.v
  }

  /** The weight after training on the samples `s` in order, starting from 0. */
  function WeightAfter(s: seq<Point>, eta: real): real
    decreases |s|
  {
    if |s| == 0 then 0.0 else WeightAfter(s[..|s| - 1], eta) + Delta(eta, s[|s| - 1])
  }

  /** The whole history: entry `i` is the weight after the first `i` samples. */
  function History(s: seq<Point>, eta: real): (h: seq<real>)
    ensures |h| == |s| + 1 && h[0] == 0.0
    ensures forall i :: 0 <= i < |s| ==> h[i + 1] == h[i] + Delta(eta, s[i])
  {
    var h := seq(|s| + 1, i requires 0 <= i <= |s| => WeightAfter(s[..i], eta));
    assert h[0] == 0.0;
    forall i | 0 <= i < |s|
      ensures h[i + 1] == h[i] + Delta(eta, s[i])
    {
      assert s[..i + 1][..i] == s[..i];
    }
    h
  }

  /** `deltas`: one update per sample. */
  function Deltas(s: seq<Point>, eta: real): (d: seq<real>)
    ensures |d| == |s|
    ensures forall i :: 0 <= i < |s| ==> History(s, eta)[i + 1] == History(s, eta)[i] + d[i]
  {
    seq(|s|, i requires 0 <= i < |s| => Delta(eta, s[i]))
  }

  /** The `weights` memo: a loop that adds each sample's update to `w` and records it. */
  method ComputeWeights(s: seq<Point>, eta: real) returns (history: seq<real>)
    ensures history == History(s, eta)
  {
    var w := 0.0;
    history := [w];
    for i := 0 to |s|
      invariant |history| == i + 1
      invariant w == WeightAfter(s[..i], eta)
      invariant forall j :: 0 <= j <= i ==> history[j] == WeightAfter(s[..j], eta)
    {
      assert s[..i + 1][..i] == s[..i];
      w := w + eta * s[i].k * s[i].v;
      history := history + [w];
    }
    assert s[..|s|] == s;
  }

  /** `Σ k v` over the samples, the linear-attention accumulator for a scalar state. */
  function SumKV(s: seq<Point>): real
    decreases |s|
  {
    if |s| == 0 then 0.0 else SumKV(s[..|s| - 1]) + s[|s| - 1].k * s[|s| - 1].v
  }

  /** Training from `w0 = 0` ends at `eta Σ k v`: the final weight is the linear-attention state. */
  lemma {:induction false} FinalWeightIsLinearAttention(s: seq<Point>, eta: real)
    ensures History(s, eta)[|s|] == eta * SumKV(s)
  {
    WeightIsScaledSum(s, eta);
    assert s[..|s|] == s;
  }

  lemma {:induction false} WeightIsScaledSum(s: seq<Point>, eta: real)
    ensures WeightAfter(s, eta) == eta * SumKV(s)
    decreases |s|
  {
    if |s| > 0 {
      var init := s[..|s| - 1];
      WeightIsScaledSum(init, eta);
      DistributeArith(eta, SumKV(init), s[|s| - 1].k, s[|s| - 1].v);
    }
  }

  lemma {:induction false} DistributeArith(eta: real, a: real, k: real, v: real)
    ensures eta * a + eta * k * v == eta * (a + k * v)
  {
  }

  /**
    The generated data has `k ≥ 0.15` and `v ≥ 0`, and the learning-rate
    slider never goes below 0.05; with non-negative keys, values and rate every
    update is non-negative, so the weight history never decreases.
  */
  lemma {:induction false} HistoryNondecreasing(s: seq<Point>, eta: real, i: nat, j: nat)
    requires 0.0 <= eta && forall n :: 0 <= n < |s| ==> 0.0 <= s[n].k && 0.0 <= s[n].v
    requires i <= j <= |s|
    ensures History(s, eta)[i] <= History(s, eta)[j]
    decreases j - i
  {
    if i < j {
      HistoryNondecreasing(s, eta, i, j - 1);
      DeltaNonneg(eta, s[j - 1]);
    }
  }

  lemma {:induction false} DeltaNonneg(eta: real, p: Point)
    requires 0.0 <= eta && 0.0 <= p.k && 0.0 <= p.v
    ensures 0.0 <= Delta(eta, p)
  {
    assert 0.0 <= eta * p.k;
  }

  /**
    The demo's playback state.  `sequence` and `learningRate` determine the
    weights; `step` is how many samples have been consumed.
  */
  class Player {
    var sequence: seq<Point>
    var learningRate: real
    var noise: real
    var step: nat
    var isPlaying: bool

    /** `step` never runs past the end of the sequence. */
    ghost predicate Valid()
      reads this
    {
      step <= |sequence|
    }

    /** The mount state: the initial generated sequence, rate 0.4 and noise 0.05. */
    constructor (s: seq<Point>)
      ensures Valid() && sequence == s && learningRate == 0.4 && noise == 0.05
      ensures step == 0 && !isPlaying
    {
      sequence := s;
      learningRate := 0.4;
      noise := 0.05;
      step := 0;
      isPlaying := false;
    }

    /** `weights[step] ?? 0`; the fallback is never taken, since `step` is at most the sequence length. */
    function CurrentSlope(): (r: real)
      reads this
      requires Valid()
      ensures r == WeightAfter(sequence[..step], learningRate)
    {
      History(sequence, learningRate)[step]
    }

    /** `step > 0 ? deltas[step - 1] : 0`: the update that produced the current weight. */
    function CurrentDelta(): (r: real)
      reads this
      requires Valid()
      ensures step == 0 ==> r == 0.0
      ensures step > 0 ==> CurrentSlope() == History(sequence, learningRate)[step - 1] + r
    {
      if step > 0 then Deltas(sequence, learningRate)[step - 1] else 0.0
    }

    /** `handleReset`. */
    method HandleReset()
      modifies this
      ensures Valid() && step == 0 && !isPlaying
      ensures sequence == old(sequence) && learningRate == old(learningRate) && noise == old(noise)
    {
      isPlaying := false;
      step := 0;
    }

    /** `handleStep`: pause and advance by one sample, clamped at the end. */
    method HandleStep()
      requires Valid()
      modifies this
      ensures Valid() && !isPlaying
      ensures step == if old(step) < |sequence| then old(step) + 1 else old(step)
      ensures sequence == old(sequence) && learningRate == old(learningRate) && noise == old(noise)
    {
      isPlaying := false;
      step := Min(step + 1, |sequence|);
    }

    /** `handleRegenerate`, with the freshly generated sequence as a parameter. */
    method HandleRegenerate(generated: seq<Point>)
      modifies this
      ensures Valid() && sequence == generated && step == 0 && !isPlaying
      ensures learningRate == old(learningRate) && noise == old(noise)
    {
      sequence := generated;
      isPlaying := false;
      step := 0;
    }

    /** `handleNoiseChange`: a new noise level and a sequence regenerated with it. */
    method HandleNoiseChange(nextNoise: real, generated: seq<Point>)
      modifies this
      ensures Valid() && noise == nextNoise && sequence == generated && step == 0 && !isPlaying
      ensures learningRate == old(learningRate)
    {
      noise := nextNoise;
      sequence := generated;
      isPlaying := false;
      step := 0;
    }

    /** The learning-rate slider: the weights change, the position does not. */
    method SetLearningRate(eta: real)
      requires Valid()
      modifies this
      ensures Valid() && learningRate == eta
      ensures step == old(step) && sequence == old(sequence) && isPlaying == old(isPlaying) && noise == old(noise)
    {
      learningRate := eta;
    }

    /** `togglePlay`: rewind first when playback has reached the end. */
    method TogglePlay()
      requires Valid()
      modifies this
      ensures Valid() && isPlaying == !old(isPlaying)
      ensures step == if old(step) >= |sequence| then 0 else old(step)
      ensures sequence == old(sequence) && learningRate == old(learningRate) && noise == old(noise)
    {
      if step >= |sequence| {
        step := 0;
      }
      isPlaying := !isPlaying;
    }

    /**
      One run of the autoplay effect, with its timeout firing: stop at the
      end, otherwise advance by one clamped step.
    */
    method Tick()
      requires Valid()
      modifies this
      ensures Valid()
      ensures !old(isPlaying) ==> step == old(step) && isPlaying == old(isPlaying)
      ensures old(isPlaying) && old(step) >= |sequence| ==> step == old(step) && !isPlaying
      ensures old(isPlaying) && old(step) < |sequence| ==> step == old(step) + 1 && isPlaying
      ensures sequence == old(sequence) && learningRate == old(learningRate) && noise == old(noise)
    {
      if !isPlaying {
        return;
      }
      if step >= |sequence| {
        isPlaying := false;
        return;
      }
      step := Min(step + 1, |sequence|);
    }
  }

  function Min(a: int, b: int): (r: int)
    ensures r <= a && r <= b && (r == a || r == b)
  {
    if a < b then a else b
  }

  /** With non-negative data a step never lowers the current slope. */
  lemma {:induction false} StepRaisesSlope(s: seq<Point>, eta: real, step: nat)
    requires 0.0 <= eta && forall n :: 0 <= n < |s| ==> 0.0 <= s[n].k && 0.0 <= s[n].v
    requires step < |s|
    ensures WeightAfter(s[..step], eta) <= WeightAfter(s[..step + 1], eta)
  {
    HistoryNondecreasing(s, eta, step, step + 1);
  }
}
