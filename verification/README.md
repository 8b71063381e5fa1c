# Memory demos: linear attention, fast weights, test-time training

This project models the nine interactive demos of the `memory` site. Each
demo explains one view of sequence models as associative memories:

- **linear attention**: a state `S` accumulated from key/value outer products, read by a query. It equals the parallel (masked, softmax-free) attention.
- **update rules**: LA, Mamba2, Longhorn, DeltaNet and Gated DeltaNet. Each is one step `Sprev → nextS` that minimises a per-rule objective.
- **fast weight programmers**: a Hebbian write `W += v φ(k)ᵀ` with a normaliser `z += φ(k)`. After every token it matches global linear attention.
- **state-space model**: `S_t = λ S_{t-1} + v kᵀ`, with its output `S_t q`.
- **modern Hopfield retrieval**: `ξ_new = X softmax(β Xᵀ ξ)`. It is the same computation as one attention row with `Q = ξᵀ` and `K = V = Xᵀ`.
- **DeltaNet as a projection**: `s_new = s − k_eff (k_effᵀ s)` in the plane. It is orthogonal to a normalised key.
- **test-time training (TTT)**: one gradient step on a reconstruction loss, taken at zero initial weights. That step is the linear-attention write.
- **TTT as regression**: a 1-D online slope fit and a 2-D SGD fit of a 2×2 matrix. The 2-D fit has bounded loss histories, an EMA, a running maximum and a probe loss.

Numbers are exact reals. `Math.exp` and `Math.sqrt` are function
parameters, constrained by the predicates `IsExp` (positive) and `IsSqrt`
(non-negative square root). The random generators become parameters of
the methods that use them. Computations are functions, each with the
property it promises proved about it. The demos' `useMemo` loops are
methods proved equal to those functions. React state becomes a class whose
methods are the demo's handlers and timers. A ghost `Valid()` predicate
ties the stored state to the specification functions.

One file per demo, plus `linalg.dfy` for the vector and matrix helpers the
demos share:

| file | module | demo |
|---|---|---|
| linalg.dfy | LinAlg | shared `dot`, `outer`, `matAdd`, `matMul`, `transpose`, … |
| linear_attention.dfy | LinearAttention | src/demos/linear-attention.tsx |
| linear_attention_updates.dfy | LinearAttentionUpdates | src/demos/linear-attention-updates.tsx |
| fwp.dfy | FastWeights | src/demos/fwp.tsx |
| ssm.dfy | SSM | src/demos/ssm.tsx |
| modern_hopfield.dfy | ModernHopfield | src/demos/modern-hopfield.jsx |
| deltanet_is_rotation.dfy | DeltaNetRotation | src/demos/deltanet-is-rotation.tsx |
| ttt.dfy | TTT | src/demos/ttt.tsx |
| ttt_linear_regression.dfy | TTTLinearRegression | src/demos/ttt-linear-regression.tsx |
| ttt_linear_regression_2d.dfy | TTTRegression2D | src/demos/ttt-linear-regression-2d.tsx |

## Model

| member | source | states |
|---|---|---|
| LinAlg.MatMulIdentityR | src/demos/linear-attention-updates.tsx:128-149 | `matMul(A, identity(n)) = A` for every `m × n` matrix |
| LinAlg.MatMulIdentityL | src/demos/linear-attention-updates.tsx:128-149 | `matMul(identity(m), A) = A` |
| LinAlg.TransposeTranspose | src/demos/linear-attention.tsx:21 | transposing twice gives back the matrix |
| LinAlg.DotSymm | src/demos/linear-attention-updates.tsx:131 | the left-fold dot product is symmetric |
| LinAlg.FrobNonneg | src/demos/linear-attention-updates.tsx:155-156 | the squared Frobenius norm is never negative |
| LinAlg.EraseWrite | src/demos/linear-attention-updates.tsx:285-286 | `S(I − c k kᵀ) + c v kᵀ = S + c (v − S k) kᵀ`: the delta rule as a rank-one correction |
| LinAlg.RankOneResidual | src/demos/linear-attention-updates.tsx:311-312 | after the delta write, the residual on `k` is the old residual times `1 − c‖k‖²` |
| LinearAttention.IdentityKernel | src/demos/linear-attention.tsx:17-19 | with the identity feature map, `φ(q)·φ(k) = q·k` and the write `φ(k) vᵀ = k vᵀ` |
| LinearAttention.MatMulLoop | src/demos/linear-attention.tsx:23-33 | the triple loop computes `MatMul(A, B)` with shape `|A| × |B[0]|` |
| LinearAttention.ComputeStates | src/demos/linear-attention.tsx:143-155 | the reset loop yields `SEQ_LEN + 1` states, starting at zero, entry `t` being `Σ_{i<t} φ(k_i) v_iᵀ` |
| LinearAttention.ScoresAreAttnRow | src/demos/linear-attention.tsx:208-213 | the current query's scores are `K q` over the first `step` keys, and they are the last row of `φ(Q) φ(K)ᵀ` |
| LinearAttention.AttnMatrix | src/demos/linear-attention.tsx:210-213 | entry `(i, j)` of `φ(Q) φ(K)ᵀ` is `Q_i · K_j` |
| LinearAttention.RecurrentIsReadout | src/demos/linear-attention.tsx:195 | `q S_t` equals the readout `Σ_{i<t} (q·k_i) v_i` |
| LinearAttention.ScoresTimesValues | src/demos/linear-attention.tsx:216 | scores times a value column is that column of the readout |
| LinearAttention.RecurrentEqualsParallel | src/demos/linear-attention.tsx:195-219 | the recurrent output equals the last row of the parallel output (both zero at step 0) |
| LinearAttention.ParallelLastRow | src/demos/linear-attention.tsx:205-219 | the last row of the parallel output is the readout with the last query |
| LinearAttention.TransposeInvolution | src/demos/linear-attention.tsx:21 | `transpose` gives the right shape and is an involution |
| LinearAttention.Demo.Reset | src/demos/linear-attention.tsx:132-158 | new Q/K/V, the state history recomputed, step 0, paused |
| LinearAttention.Demo.StepForward | src/demos/linear-attention.tsx:250 | step advanced and clamped at `SEQ_LEN`, nothing else changed |
| LinearAttention.Demo.TogglePlay | src/demos/linear-attention.tsx:241-243 | play flag flipped, nothing else changed; callable only before the end, where the button is disabled |
| LinearAttention.Demo.Tick | src/demos/linear-attention.tsx:161-172 | while playing below the end: one step; at the end: stop |
| LinearAttention.Demo.CurrentS | src/demos/linear-attention.tsx:180 | the stored state at `step` is `StateAt(K, V, step)` |
| LinearAttention.Demo.PrevS | src/demos/linear-attention.tsx:181 | the state one step back, zero at step 0 |
| LinearAttention.Demo.UpdateMatrix | src/demos/linear-attention.tsx:189 | the shown update is exactly `currentS − prevS` |
| LinearAttention.Demo.RecurrentOutputVector | src/demos/linear-attention.tsx:184-195 | `q_{step−1} S_step`, zero at step 0 |
| LinearAttention.Demo.CurrentParallelOutputVector | src/demos/linear-attention.tsx:199-219 | the parallel view's last row equals the recurrent output shown next to it |
| LinearAttentionUpdates.Eps | src/demos/linear-attention-updates.tsx:272-273 | `ε = β / (1 + β‖k‖²)` lies in `[0, β]` and solves `ε (1 + β‖k‖²) = β` |
| LinearAttentionUpdates.Compute | src/demos/linear-attention-updates.tsx:269-328 | `Sprev + delta = nextS`; kNorm, ε and both reconstruction losses are non-negative |
| LinearAttentionUpdates.MatMulLoop | src/demos/linear-attention-updates.tsx:139-149 | the loop computes `MatMul(A, B)` |
| LinearAttentionUpdates.LAWrite | src/demos/linear-attention-updates.tsx:278-291 | LA writes `S + v kᵀ`, and delta is `v kᵀ` |
| LinearAttentionUpdates.AlphaOneCollapses | src/demos/linear-attention-updates.tsx:278-289 | at α = 1, Mamba2 is LA and Gated DeltaNet is DeltaNet |
| LinearAttentionUpdates.DeltaNetBetaZero | src/demos/linear-attention-updates.tsx:285-291 | DeltaNet with β = 0 keeps the state (delta = 0) |
| LinearAttentionUpdates.DisabledGatesIgnored | src/demos/linear-attention-updates.tsx:17-121 | a rule's `nextS` does not depend on a slider its `usesAlpha`/`usesBeta` flag disables |
| LinearAttentionUpdates.NextSRankOne | src/demos/linear-attention-updates.tsx:278-289 | each rule's `nextS` is a base matrix plus a rank-one write `u kᵀ` |
| LinearAttentionUpdates.HebbianMinimiser | src/demos/linear-attention-updates.tsx:293-309 | `J(S) = J(S*) + ‖S − S*‖²` for `J(S) = ‖S − B‖² − 2⟨S k, u⟩` and `S* = B + u kᵀ` |
| LinearAttentionUpdates.LonghornMinimiser | src/demos/linear-attention-updates.tsx:283-302 | Longhorn's objective at any `S` is its value at `nextS` plus `‖S − nextS‖² + β‖(S − nextS) k‖²` |
| LinearAttentionUpdates.NextSMinimisesObjective | src/demos/linear-attention-updates.tsx:278-309 | for every rule, `J(nextS) + ‖S − nextS‖² ≤ J(S)`: `nextS` is the unique minimiser |
| LinearAttentionUpdates.HebbianRuleMinimiser | src/demos/linear-attention-updates.tsx:293-309 | for the four non-Longhorn rules the objective is exactly HebbianMinimiser's `J` |
| LinearAttentionUpdates.ObjectiveDecreases | src/demos/linear-attention-updates.tsx:293-322 | for every rule, `objectiveNext ≤ objectivePrev` |
| LinearAttentionUpdates.LonghornObjectiveValues | src/demos/linear-attention-updates.tsx:272-312 | Longhorn: `objectivePrev = β·reconPrev` and `objectiveNext = β·reconPrev / (1 + β‖k‖²)` |
| LinearAttentionUpdates.LonghornWriteNorm | src/demos/linear-attention-updates.tsx:283-302 | Longhorn's write has `‖nextS − Sprev‖² = ε² ‖Sprev k − v‖² ‖k‖²` |
| LinearAttentionUpdates.LonghornResidualNorm | src/demos/linear-attention-updates.tsx:283-312 | Longhorn's new residual is the old one scaled by `1 − ε‖k‖²` |
| LinearAttentionUpdates.LonghornNormalEquation | src/demos/linear-attention-updates.tsx:69-76 | Longhorn's `nextS` solves `S (I + β k kᵀ) = Sprev + β v kᵀ` |
| LinearAttentionUpdates.DeltaNetResidual | src/demos/linear-attention-updates.tsx:285-312 | DeltaNet's `reconNext = (1 − β‖k‖²)² reconPrev`, which is zero when `β‖k‖² = 1` |
| LinearAttentionUpdates.LAAlignmentGrows | src/demos/linear-attention-updates.tsx:279-314 | LA raises the alignment `⟨S k, v⟩` by exactly `‖k‖² ‖v‖²` |
| FastWeights.Relu | src/demos/fwp.tsx:17 | `max(0, x)`: non-negative, at least `x`, and either `x` or 0 |
| FastWeights.Phi | src/demos/fwp.tsx:17 | φ is entrywise non-negative and fixes non-negative entries |
| FastWeights.PhiKeys | src/demos/fwp.tsx:149 | every feature-mapped key keeps its length and has only non-negative entries; non-negative keys pass through unchanged |
| FastWeights.PhiKeysIdempotent | src/demos/fwp.tsx:149 | mapping the keys twice is mapping them once |
| FastWeights.PhiIdempotent | src/demos/fwp.tsx:17 | `φ(φ(v)) = φ(v)` |
| FastWeights.Output | src/demos/fwp.tsx:174 | `num · 1/(den ∥ 1)`: `num` itself when `den = 0`, otherwise `r·den = num` entrywise |
| FastWeights.GlobalMatrix | src/demos/fwp.tsx:153-160 | the loop computes `Σ_{i<SEQ_LEN} v_i φ(k_i)ᵀ` |
| FastWeights.GlobalZ | src/demos/fwp.tsx:163-169 | the loop computes `Σ_{i<SEQ_LEN} φ(k_i)` |
| FastWeights.FwpState | src/demos/fwp.tsx:179-190 | the step loop computes the first `step` writes of both sums |
| FastWeights.NormaliserNonneg | src/demos/fwp.tsx:163-169 | every entry of the normaliser `z` is non-negative |
| FastWeights.DotNonneg | src/demos/fwp.tsx:42-44 | dot product of non-negative vectors is non-negative |
| FastWeights.DenominatorNonneg | src/demos/fwp.tsx:173 | the denominator `z · φ(q)` is never negative |
| FastWeights.OutputAtStepZero | src/demos/fwp.tsx:192-194 | before any token the FWP output is the zero vector |
| FastWeights.Demo.constructor | src/demos/fwp.tsx:12-14 | the initial keys, values and query; step 0; paused |
| FastWeights.Demo.GlobalOutput | src/demos/fwp.tsx:172-174 | the transformer view's normalised output |
| FastWeights.Demo.FwpOutput | src/demos/fwp.tsx:192-194 | the FWP output equals the global output once `step = SEQ_LEN`, and is zero at step 0 |
| FastWeights.Demo.HandleReset | src/demos/fwp.tsx:215-219 | new keys and values, step 0; query and play flag kept |
| FastWeights.Demo.UpdateKey | src/demos/fwp.tsx:221-227 | only key `idx` replaced |
| FastWeights.Demo.UpdateValue | src/demos/fwp.tsx:221-227 | only value `idx` replaced |
| FastWeights.Demo.SetQuery | src/demos/fwp.tsx:293 | only the query replaced |
| FastWeights.Demo.SetStep | src/demos/fwp.tsx:367-372 | only the step set |
| FastWeights.Demo.TogglePlay | src/demos/fwp.tsx:354 | play flag flipped, nothing else changed |
| FastWeights.Demo.Tick | src/demos/fwp.tsx:198-212 | while playing: at `SEQ_LEN` stop, otherwise one step |
| SSM.DecayAddIsAffine | src/demos/ssm.tsx:152-154 | the decay-and-add step equals the matrix expression `λ S + U` |
| SSM.History | src/demos/ssm.tsx:117-166 | `SEQ_LEN + 1` entries, entry `t` being the state after `t` inputs with its output |
| SSM.ComputeHistory | src/demos/ssm.tsx:117-166 | the effect's loop: nothing for empty inputs, otherwise `History(inputs, decay)` |
| SSM.DecayZeroKeepsLatest | src/demos/ssm.tsx:146-154 | with λ = 0 the state is the latest `v kᵀ` alone |
| SSM.IsStateSpaceStep | src/demos/ssm.tsx:152-154 | `S_{t+1} = A S_t + B (v kᵀ)` with `A = λI` and `B = I` |
| SSM.ClosedForm | src/demos/ssm.tsx:135-165 | `S_t[i][j] = Σ_{m<t} λ^{t−1−m} v_m[i] k_m[j]` |
| SSM.DecayShifts | src/demos/ssm.tsx:152-154 | one more decay step multiplies each closed-form term by λ |
| SSM.EditInput | src/demos/ssm.tsx:191-195 | the chosen coordinate of the chosen field becomes `val`; every other coordinate of every field is unchanged, and so are the lengths |
| SSM.Demo.CurrentData | src/demos/ssm.tsx:188 | the shown entry is `EntryAt(inputs, decay, step)` |
| SSM.Demo.GenerateInputs | src/demos/ssm.tsx:101-110 | new inputs, history recomputed, step 0, paused |
| SSM.Demo.SetDecay | src/demos/ssm.tsx:230-235 | new decay in `[0, 1]`, history recomputed |
| SSM.Demo.UpdateInput | src/demos/ssm.tsx:191-195 | one coordinate of one input replaced, history recomputed |
| SSM.Demo.SkipBack | src/demos/ssm.tsx:213 | step 0, nothing else changed |
| SSM.Demo.StepForward | src/demos/ssm.tsx:220 | step advanced and clamped at `SEQ_LEN` |
| SSM.Demo.TogglePlay | src/demos/ssm.tsx:216 | play flag flipped |
| SSM.Demo.Tick | src/demos/ssm.tsx:170-186 | while playing below the end: one step; at the end: stop |
| ModernHopfield.VecMatMul | src/demos/modern-hopfield.jsx:17-27 | the loop computes `vᵀ M` |
| ModernHopfield.MatMulMat | src/demos/modern-hopfield.jsx:29-42 | the nested loop computes `A B` |
| ModernHopfield.VecMatIsTransposedMatVec | src/demos/modern-hopfield.jsx:12-27 | `vecMatMul(p, M) = matMulVec(transpose(M), p)` |
| ModernHopfield.MaxOf | src/demos/modern-hopfield.jsx:45 | an element of the vector that bounds every element |
| ModernHopfield.Softmax | src/demos/modern-hopfield.jsx:44-49 | weights are positive and sum to 1 |
| ModernHopfield.ScaledIsInverseTemperature | src/demos/modern-hopfield.jsx:137 | scaling the similarities by β is scaling the state pattern: `β (Xᵀ ξ) = Xᵀ (β ξ)` |
| ModernHopfield.Hopfield | src/demos/modern-hopfield.jsx:125-145 | none exactly when there is no state pattern; otherwise the shapes of similarities, p and `ξ_new` |
| ModernHopfield.Transformer | src/demos/modern-hopfield.jsx:150-175 | none exactly when there is no state pattern; otherwise the shapes of scores, weights and output row |
| ModernHopfield.Diff | src/demos/modern-hopfield.jsx:180 | non-negative, and zero exactly when the vectors agree |
| ModernHopfield.HopfieldIsAttention | src/demos/modern-hopfield.jsx:125-181 | similarities = scores, p = attention weights, `ξ_new` = output row; so `diff = 0` and the demo reports them equivalent |
| ModernHopfield.SimilaritiesAreScores | src/demos/modern-hopfield.jsx:134-164 | `Xᵀ ξ = matMulMat([ξ], (Xᵀ)ᵀ)[0]` |
| ModernHopfield.RetrievalIsOutputRow | src/demos/modern-hopfield.jsx:142-172 | `X p = vecMatMul(p, Xᵀ)` |
| DeltaNetRotation.AddLaws | src/demos/deltanet-is-rotation.tsx:11-12 | `add` is commutative and associative with unit `0`, and `sub(add(a, b), b) = a` |
| DeltaNetRotation.Scale | src/demos/deltanet-is-rotation.tsx:13 | scaling by 1 changes nothing; scaling by 0, or scaling the zero vector, gives 0 |
| DeltaNetRotation.DotLaws | src/demos/deltanet-is-rotation.tsx:11-14 | `dot` is symmetric, distributes over `add` and `sub`, pulls out scalars, and `v·v ≥ 0` |
| DeltaNetRotation.Sub | src/demos/deltanet-is-rotation.tsx:12 | `sub(a, b) + b = a` |
| DeltaNetRotation.Len | src/demos/deltanet-is-rotation.tsx:15 | `len(v) ≥ 0`, `len(v)² = v·v`, and zero exactly at the zero vector |
| DeltaNetRotation.Norm | src/demos/deltanet-is-rotation.tsx:16-19 | `norm(0) = 0`; any other vector becomes a unit vector that, scaled by `len(v)`, gives back `v` |
| DeltaNetRotation.NormIsUnit | src/demos/deltanet-is-rotation.tsx:16-19 | `norm` keeps 0 and makes any other vector a unit vector parallel to it |
| DeltaNetRotation.Compute | src/demos/deltanet-is-rotation.tsx:157-182 | `kEff` as chosen by the toggle; `sNew + erased = s`; orthogonal iff `|sNew·k| < 0.1` |
| DeltaNetRotation.KEff | src/demos/deltanet-is-rotation.tsx:163 | zero for the zero key; a unit vector for a non-zero key when normalised; otherwise `‖kEff‖² = ‖K‖²/10⁴` |
| DeltaNetRotation.Erase | src/demos/deltanet-is-rotation.tsx:168-177 | adding the erased component back gives `s`, and `(s − k(k·s))·k = (1 − k·k)(k·s)` for every key |
| DeltaNetRotation.ComputeErases | src/demos/deltanet-is-rotation.tsx:163-181 | `sNew` is the erase of `s` along `kEff`, and its inner product with `kEff` is as above |
| DeltaNetRotation.NormalizedIsOrthogonal | src/demos/deltanet-is-rotation.tsx:163-182 | with normalisation on and `k ≠ 0`, `sNew·k = 0`, so the demo reports orthogonal |
| DeltaNetRotation.ZeroKeyUnchanged | src/demos/deltanet-is-rotation.tsx:157-177 | a zero key leaves `s` unchanged |
| DeltaNetRotation.UnitKeyOrthogonal | src/demos/deltanet-is-rotation.tsx:168-181 | erasing along a unit `kEff` is orthogonal to any multiple of it |
| DeltaNetRotation.UnnormalizedInner | src/demos/deltanet-is-rotation.tsx:163-181 | without normalisation `kEff = K/100` and `sNew·K = (1 − ‖K‖²/10⁴)(K·S)`; the check `|sNew·K| < 0.1` then passes only when `‖K‖ = 100` pixels, `K·S = 0`, or the product happens to fall below the tolerance |
| DeltaNetRotation.ScaledKeyInner | src/demos/deltanet-is-rotation.tsx:163-181 | for `kEff = c k`, `sNew·k = (1 − c²‖k‖²)(k·s)` |
| DeltaNetRotation.EraseIdempotent | src/demos/deltanet-is-rotation.tsx:173-177 | erasing twice along a unit key is erasing once: a projection |
| DeltaNetRotation.NormalizedIdempotent | src/demos/deltanet-is-rotation.tsx:163-177 | with normalisation on, applying the step to `sNew` again changes nothing |
| TTT.MatAddScaledIsAddScale | src/demos/ttt.tsx:18 | the fused `matAdd(A, B, scalar)` equals `A + (scalar B)` built from the plain matrix operations |
| TTT.Reconstruction | src/demos/ttt.tsx:146 | `W₀ x` is zero when `W₀ = 0` |
| TTT.ErrorVec | src/demos/ttt.tsx:147 | `errorVec + z = reconstruction`: the error is how far the reconstruction overshoots the target |
| TTT.Gradient | src/demos/ttt.tsx:148 | the gradient `errorVec xᵀ` applied to `x` is the error scaled by `‖x‖²` |
| TTT.NextWeights | src/demos/ttt.tsx:150 | with `W₀ = 0`, `nextW = W + η z xᵀ`, the linear-attention write |
| TTT.ErrorIsNegatedTarget | src/demos/ttt.tsx:130-147 | at `W₀ = 0` the error is `−z` |
| TTT.NextWIsLinearAttentionWrite | src/demos/ttt.tsx:146-150 | `matAdd(W, gradient, −η)` with the gradient at `W₀ = 0` is the linear-attention write `W + η z xᵀ` |
| TTT.FinalOutput | src/demos/ttt.tsx:151 | with `W₀ = 0`, `nextW x_test = W x_test + η (x·x_test) z` |
| TTT.WrittenClosedForm | src/demos/ttt.tsx:161-180 | with a constant rate, the written weights are `η Σ z_t x_tᵀ` |
| TTT.StoreAt | src/demos/ttt.tsx:169-170 | `newWeights[i] = w` on a copy: the prefix is kept, entry `i` replaced or appended, the rest kept |
| TTT.AppendWrite | src/demos/ttt.tsx:168-171 | committing at `step` extends the written history by one linear-attention write |
| TTT.CommitProgress | src/demos/ttt.tsx:168-178 | the commit keeps the playback invariant |
| TTT.DemoBounds | src/demos/ttt.tsx:161-180 | the guard `step ≥ SEQ_LEN` is never reached and the history has at most `SEQ_LEN + 1` entries |
| TTT.DemoWeightsClosedForm | src/demos/ttt.tsx:139-171 | with a constant rate, `weights[t] = η Σ_{i<t} z_i x_iᵀ` |
| TTT.Demo.constructor | src/demos/ttt.tsx:128-137 | the mount effect: sequence, projections, `W₀ = 0`, `weights = [W₀]`, step 0 |
| TTT.Demo.CurrentW | src/demos/ttt.tsx:139 | `weights[step]` is the written history up to `step` |
| TTT.Demo.NextW | src/demos/ttt.tsx:142-150 | `currentW + η z_train x_trainᵀ` |
| TTT.Demo.HandleNext | src/demos/ttt.tsx:161-180 | sub-steps 0–2 advance the sub-step; sub-step 3 commits `nextW` at `step + 1`, then moves to the next token or stops at the last |
| TTT.Demo.CommitStep | src/demos/ttt.tsx:168-178 | the commit branch: history written, step/sub-step/play updated |
| TTT.Demo.HandleReset | src/demos/ttt.tsx:182-187 | paused, step and sub-step 0, `weights = [initialW]`; the sequence, projections, `initialW` and rate are unchanged |
| TTT.Demo.SetLearningRate | src/demos/ttt.tsx:222 | rate set; every other field unchanged |
| TTT.Demo.TogglePlay | src/demos/ttt.tsx:226 | play flag flipped |
| TTT.Demo.Tick | src/demos/ttt.tsx:153-159 | paused: nothing changes; playing: exactly the new state `handleNext` gives, and the inputs, projections and rate are unchanged |
| TTTLinearRegression.History | src/demos/ttt-linear-regression.tsx:42-50 | starts at 0, each entry the previous plus `η k v` |
| TTTLinearRegression.Deltas | src/demos/ttt-linear-regression.tsx:52-55 | `weights[i+1] = weights[i] + deltas[i]` |
| TTTLinearRegression.ComputeWeights | src/demos/ttt-linear-regression.tsx:42-50 | the memo's loop computes `History` |
| TTTLinearRegression.FinalWeightIsLinearAttention | src/demos/ttt-linear-regression.tsx:42-50 | the final weight is `η Σ k v`, the linear-attention state |
| TTTLinearRegression.WeightIsScaledSum | src/demos/ttt-linear-regression.tsx:42-50 | the weight after any prefix is `η Σ k v` over it |
| TTTLinearRegression.HistoryNondecreasing | src/demos/ttt-linear-regression.tsx:19-50 | with `k, v ≥ 0` and `η ≥ 0` the weight history never decreases |
| TTTLinearRegression.DeltaNonneg | src/demos/ttt-linear-regression.tsx:52-55 | each update is non-negative on such data |
| TTTLinearRegression.StepRaisesSlope | src/demos/ttt-linear-regression.tsx:69 | one more step never lowers the current slope |
| TTTLinearRegression.Player.constructor | src/demos/ttt-linear-regression.tsx:34-39 | the mount state: rate 0.4, noise 0.05, step 0, paused |
| TTTLinearRegression.Player.CurrentSlope | src/demos/ttt-linear-regression.tsx:69 | the weight after the first `step` samples |
| TTTLinearRegression.Player.CurrentDelta | src/demos/ttt-linear-regression.tsx:71 | 0 at step 0, otherwise the update that produced the current slope |
| TTTLinearRegression.Player.HandleReset | src/demos/ttt-linear-regression.tsx:97-100 | step 0, paused |
| TTTLinearRegression.Player.HandleStep | src/demos/ttt-linear-regression.tsx:102-105 | paused, step advanced and clamped at the end |
| TTTLinearRegression.Player.HandleRegenerate | src/demos/ttt-linear-regression.tsx:107-113 | the new sequence, step 0, paused |
| TTTLinearRegression.Player.HandleNoiseChange | src/demos/ttt-linear-regression.tsx:115-121 | new noise and sequence, step 0, paused |
| TTTLinearRegression.Player.SetLearningRate | src/demos/ttt-linear-regression.tsx:220-228 | rate set, position kept |
| TTTLinearRegression.Player.TogglePlay | src/demos/ttt-linear-regression.tsx:123-128 | flip; rewind to 0 first when at the end |
| TTTLinearRegression.Player.Tick | src/demos/ttt-linear-regression.tsx:57-67 | while playing: stop at the end, otherwise one step |
| TTTRegression2D.NormSq | src/demos/ttt-linear-regression-2d.tsx:83-91 | `‖v‖² ≥ 0`, zero exactly at the zero vector |
| TTTRegression2D.SgdUpdate | src/demos/ttt-linear-regression-2d.tsx:83-91 | `err = v − S k`; the loss is non-negative and zero iff `S` fits the sample; `delta = nextS − S` |
| TTTRegression2D.ResidualAfterUpdate | src/demos/ttt-linear-regression-2d.tsx:83-91 | the residual after the step is `err (1 − η‖k‖²)` |
| TTTRegression2D.LossAfterUpdate | src/demos/ttt-linear-regression-2d.tsx:83-91 | the loss after the step is `(1 − η‖k‖²)²` times the loss before |
| TTTRegression2D.LossNonincreasing | src/demos/ttt-linear-regression-2d.tsx:83-91 | with `0 ≤ η‖k‖² ≤ 2` the step never raises the loss on its sample |
| TTTRegression2D.ExactStepFits | src/demos/ttt-linear-regression-2d.tsx:83-91 | with `η‖k‖² = 1` one step fits the sample exactly |
| TTTRegression2D.ExactStepZeroLoss | src/demos/ttt-linear-regression-2d.tsx:83-91 | with `η‖k‖² = 1` the loss after the step is 0 |
| TTTRegression2D.ZeroLossFits | src/demos/ttt-linear-regression-2d.tsx:83-91 | a zero loss means the matrix already fits the sample |
| TTTRegression2D.Cycle | src/demos/ttt-linear-regression-2d.tsx:389 | the cursor after `step` steps stays below the set size |
| TTTRegression2D.CycleIsMod | src/demos/ttt-linear-regression-2d.tsx:382-389 | that cursor is `step mod n` |
| TTTRegression2D.Losses | src/demos/ttt-linear-regression-2d.tsx:383-394 | one non-negative loss per step |
| TTTRegression2D.Push | src/demos/ttt-linear-regression-2d.tsx:390-394 | append, dropping the oldest beyond `MAX_HISTORY`; length in `1..MAX_HISTORY` and the last entry is the new value |
| TTTRegression2D.PushWindow | src/demos/ttt-linear-regression-2d.tsx:390-394 | pushing onto the window of a series is the window of the longer series |
| TTTRegression2D.WindowLast | src/demos/ttt-linear-regression-2d.tsx:396 | the window is empty only for an empty series, and keeps its last entry |
| TTTRegression2D.EmaBetween | src/demos/ttt-linear-regression-2d.tsx:396-397 | the new EMA lies between the previous EMA and the loss |
| TTTRegression2D.EmasShape | src/demos/ttt-linear-regression-2d.tsx:395-402 | the EMA series starts at the first loss and follows `last + 0.2 (loss − last)` |
| TTTRegression2D.EmasNonneg | src/demos/ttt-linear-regression-2d.tsx:395-402 | non-negative losses give non-negative EMA values |
| TTTRegression2D.RunningMax | src/demos/ttt-linear-regression-2d.tsx:353-400 | `lossMax` starts at 1 and is at least 1 |
| TTTRegression2D.RunningMaxBounds | src/demos/ttt-linear-regression-2d.tsx:400 | `lossMax` bounds every loss and EMA recorded since the reset |
| TTTRegression2D.RunningMaxMonotone | src/demos/ttt-linear-regression-2d.tsx:400 | `lossMax` never decreases |
| TTTRegression2D.RunningMaxAppend | src/demos/ttt-linear-regression-2d.tsx:400 | the new `lossMax` is `max(prevMax, loss, nextEma)` |
| TTTRegression2D.SqErr | src/demos/ttt-linear-regression-2d.tsx:430-433 | a probe point's squared error is non-negative and zero iff it fits |
| TTTRegression2D.ProbeLoss | src/demos/ttt-linear-regression-2d.tsx:426-436 | the memo's loop computes the mean squared probe error (0 for an empty probe set) |
| TTTRegression2D.ProbeLossNonneg | src/demos/ttt-linear-regression-2d.tsx:426-436 | the probe loss is never negative |
| TTTRegression2D.AllFitIff | src/demos/ttt-linear-regression-2d.tsx:426-436 | the recursive all-fit predicate is the quantified one |
| TTTRegression2D.SumSqErrZero | src/demos/ttt-linear-regression-2d.tsx:428-434 | the summed error is zero iff every probe point fits |
| TTTRegression2D.ProbeLossZeroIff | src/demos/ttt-linear-regression-2d.tsx:426-436 | on a non-empty probe set, probe loss 0 iff `S` maps every probe key to its target |
| TTTRegression2D.SqErrIsLoss | src/demos/ttt-linear-regression-2d.tsx:83-91 | the probe residual is the loss `sgdUpdate` reports on that point |
| TTTRegression2D.Trainer.constructor | src/demos/ttt-linear-regression-2d.tsx:338-353 | the mount state: zero matrix, empty histories, `lossMax = 1`, rate 0.35, noise 0.05 |
| TTTRegression2D.Trainer.ResetModel | src/demos/ttt-linear-regression-2d.tsx:355-366 | the initial model record, paused; data and sliders kept |
| TTTRegression2D.Trainer.Regenerate | src/demos/ttt-linear-regression-2d.tsx:368-378 | the new matrix and data, then `resetModel` |
| TTTRegression2D.Trainer.HandleNoiseChange | src/demos/ttt-linear-regression-2d.tsx:480-484 | new noise and data for the same matrix, model reset |
| TTTRegression2D.Trainer.StepOnce | src/demos/ttt-linear-regression-2d.tsx:380-403 | nothing on an empty training set; otherwise the model after one SGD step; the invariant kept |
| TTTRegression2D.Trainer.HandleStep | src/demos/ttt-linear-regression-2d.tsx:467-470 | paused, then the model is `NextModel` of the old one, or unchanged for an empty training set; the data, matrix, rate and noise are unchanged |
| TTTRegression2D.Trainer.TogglePlay | src/demos/ttt-linear-regression-2d.tsx:463-465 | play flag flipped; the model, data, matrix, rate and noise unchanged |
| TTTRegression2D.Trainer.SetLearningRate | src/demos/ttt-linear-regression-2d.tsx:604-610 | rate set; the model, play flag, data, matrix and noise unchanged |
| TTTRegression2D.Trainer.Tick | src/demos/ttt-linear-regression-2d.tsx:405-411 | while playing with data, the model becomes `NextModel` of the old one; otherwise it is unchanged; nothing else changes |
| TTTRegression2D.Trainer.CurrentIndex | src/demos/ttt-linear-regression-2d.tsx:456-458 | 0 before any step; afterwards the sample the last step trained on, `Cycle(step − 1, n)`, below `n` |
| TTTRegression2D.ModUnwrap | src/demos/ttt-linear-regression-2d.tsx:457 | `(trainIndex − 1 + n) % n` undoes the wrap-around advance |
| TTTRegression2D.IndexStep | src/demos/ttt-linear-regression-2d.tsx:382-389 | `trainIndex = step mod n` advances to `(step + 1) mod n`, wrapping at `n` |
| TTTRegression2D.HistoryStep | src/demos/ttt-linear-regression-2d.tsx:390-402 | recording one loss: both windows push, the EMA is seeded from the last visible EMA or the loss, and `lossMax` takes both in |
| TTTRegression2D.NextModelShape | src/demos/ttt-linear-regression-2d.tsx:380-403 | one step advances `step`, moves the cursor to `(trainIndex + 1) % n` (below `n`), records the sample, keeps both histories non-empty and within 120 entries, never lowers `lossMax`, and leaves it at or above the newest loss and EMA |
| TTTRegression2D.NextIndexIsMod | src/demos/ttt-linear-regression-2d.tsx:382-389 | the model's cursor step is the source's `(prev + 1) % n`, and its sample is `trainSet[trainIndex % n]` |
| TTTRegression2D.StepKeepsConsistent | src/demos/ttt-linear-regression-2d.tsx:380-403 | one `stepOnce` keeps the invariant linking the model to the run that produced it |
| TTTRegression2D.ConsistentIsTrained | src/demos/ttt-linear-regression-2d.tsx:380-403 | the current matrix is SGD from zero over the cycled training set, and the losses are those it reported |
| TTTRegression2D.RunIsTrained | src/demos/ttt-linear-regression-2d.tsx:380-389 | each recorded matrix is the training result after that many steps |

## Left out

- Rendering, layout, labels, explanation text, number formatting (`toFixed`) and the SVG drag handling, plus its coordinate maps (`PIXELS_PER_UNIT` is kept only as a constant). None of it affects the state.
- Timers (`setInterval`, `setTimeout`, `clearInterval`) are `Tick` methods: one firing of the timer.
- `Math.random` and the generators built on it become parameters: `generateSequence`, `generateInputs`, `generateDataset`, `randomMatrix`, `randomVec`, `randomMat`, the hopfield patterns and the reset of fwp and linear attention.
- The model uses exact reals, not floating point. The demo's tolerances (`1e-9` for Hopfield equivalence, `0.1` for orthogonality) are kept as written.
- `Math.exp` and `Math.sqrt` are abstract parameters, described only by `IsExp` (positive) and `IsSqrt` (non-negative square root).
- `Math.acos` and the rotation angle shown in the DeltaNet demo are display only.
- The 2-D demo's `computeAxisLimit`/`axisLimit`, `queryIndex`, `querySample`, `queryPred`, predictions and basis vectors are display only.
- `parseFloat`/`parseInt` of slider text and NaN are left out. Sliders pass reals.
- React fallbacks that `Valid()` makes unreachable are left out: `|| zeros(...)`, `|| initialW`, `?? 0`, ttt's `step >= SEQ_LEN` guard (DemoBounds) and the guards on `thetaK.length` before mount. The constructors establish the state after the mount effects.
- ModernHopfield has no class. The dimension, pattern-count and β sliders, and the reset effect that regenerates the patterns, are parameters of `Hopfield` and `Transformer`.
- ModernHopfield.MaxOf: returns 0 for an empty vector, where `Math.max()` gives `-Infinity`. The value is never used, because softmax of an empty vector is empty.
- ModernHopfield.Softmax: requires `IsExp(exp)`, because `Math.exp` is not modelled.
- LinearAttentionUpdates.Eps: requires `beta ≥ 0` (the slider's minimum at src/demos/linear-attention-updates.tsx:491). For negative β the source could divide by zero.
- LinearAttentionUpdates.Compute: the rule id string is an enumeration. The source's fall-through for an unknown id cannot be reached.
- SSM.Demo.UpdateInput: the source mutates the nested input arrays in place, sharing them with the previous state. The model replaces the input by value, so that aliasing is not captured.
- TTTRegression2D.Trainer.StepOnce: the source's `%` on the cursor is modelled as "wrap to 0 at `n`". NextIndexIsMod and CycleIsMod prove the two equal.
- FastWeights.Demo.HandleReset: leaves `isPlaying` unchanged, as the source does.
