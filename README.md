# MPPI controller — a verified Dafny model

This project models the MPPI controller (model predictive path integral
control, algorithm 2 of Williams et al., 2017) in `src/planning/mm_planner.py`:
class `MPPI` and its weight-rescaling helper `_ensure_non_zero`.

The controller keeps one persistent plan, the T x nu nominal control sequence
`U`. Each `command(state)` does the following:

1. It shifts `U` one step earlier and puts `u_init` in the last slot.
2. It perturbs `U` with K noise samples. The last sample is replaced by the
   null action when `sample_null_action` is set.
3. It clamps the perturbed actions to the control bounds and recomputes the
   noise that was actually applied.
4. It rolls the K scaled action sequences through the dynamics.
5. It scores each sample: an optional trajectory cost plus the control
   perturbation cost `sum(U * (lambda * noise @ Sigma^-1))`, using `|noise|`
   when `noise_abs_cost` is set.
6. It turns the costs into importance weights
   `omega = exp(-(c - min c)/lambda) / eta`.
7. It adds the omega-weighted noise to every step of `U`.
8. It returns the first `u_per_command` scaled actions (a single action when
   that is 1), together with a replay of the new plan through the dynamics.

Modules:

- `Wrappers`: `Option` and `Result`, plus the error kinds.
- `Tensors`: real vectors, `T x nu` rows, the weighted sums. It also has the
  `view`-style reshape `Chunk` and its inverse `Concat`, and the
  convex-combination facts the update relies on.
- `Weights`: `_ensure_non_zero`, the minimum cost beta, and the weights omega
  together with their distribution properties.
- `Bounds`: completion of a one-sided bound by negation, and the clamp.
- `Plan`: pure step functions for each stage of `command` and
  `get_rollouts`, with the lemmas about them.
- `Mppi`: class `Controller`.
  - Its configuration is in `const` fields.
  - `U` is an `array<Vec>` that the methods update in place.
  - The fields holding what the last command sampled are reassigned by the
    methods.
  - Every method is proved against the `Plan` functions applied to the old
    state.

Representation choices:

- Tensors are sequences of `real`, so the arithmetic is exact.
- A batch of K samples over T steps is `seq<Traj>`, indexed sample, then
  step, then component.
- The rollout states are kept time-major: the list of per-step batches that
  the source builds before `torch.stack`.
- `exp` is a parameter. The model assumes only that it is positive and that
  `exp(0) = 1`.
- The two calling conventions of the dynamics callable (with or without the
  step index) are the two fields of the `Dynamics` datatype.
- The noise draws are method parameters:
  - the K x T batch drawn in `_compute_total_cost_batch`;
  - the T draws used by `reset` and by the constructor when `U_init` is absent.
- `noise_sigma_inv` is passed in already inverted.

Two consequences of the code that are worth knowing:

- The docstring of `command` at `src/planning/mm_planner.py:184` accepts a
  state of shape (nx) or (K x nx). A (K x nx) batch starts the K sampled
  rollouts (lines 232-233), but `command` then passes the same batch to
  `get_rollouts(state)` with one rollout (line 217). There, at line 309,
  `states[:, 0] = state` cannot place K rows into one row.
  - So for K > 1, a batch of start states makes `command` fail, and this
    happens after `U` has already been updated.
  - `Mppi.Controller.Command` models exactly that: its result is the
    `ReplayStart` failure, and its other clauses still describe the new `U`.
- In exact arithmetic the update keeps `U` within ordered bounds: every
  updated `U[t]` is a convex combination of clamped actions
  (`Plan.UpdateStaysInBounds`). Only floating-point rounding could break the
  bounds, and that is left out.

## Model

| member | source | states |
|---|---|---|
| Bounds.CompleteBounds | src/planning/mm_planner.py:137-145 | the two sequential completions: a lone u_max gives u_min = -u_max, then a lone u_min gives u_max = -u_min; afterwards both bounds are present or both absent, and both are absent only when neither was given |
| Bounds.ClampActions | src/planning/mm_planner.py:245 | the entrywise clamp min(max(x, u_min), u_max) of every perturbed action when bounds are set, and the actions unchanged otherwise; the batch keeps its K x T x nu shape |
| Plan.Shift | src/planning/mm_planner.py:188-189 | `torch.roll(U, -1)` with the last step overwritten: same length as U, and the last step is u_init |
| Plan.Perturb | src/planning/mm_planner.py:240-242 | U + noise for every one of the K samples, with sample K-1 set to zeros when the null action is sampled; K sequences of T controls of nu components |
| Plan.EffectiveNoise | src/planning/mm_planner.py:247 | the noise recomputed after clamping, perturbed action minus U, shaped as a K x T x nu noise batch |
| Plan.ActionCost | src/planning/mm_planner.py:249-255 | per step, lambda * noise[t] @ Sigma^-1, or lambda * abs(noise[t]) @ Sigma^-1 when noise_abs_cost is set; one nu-vector per step |
| Plan.PerturbationCost | src/planning/mm_planner.py:279 | `sum(U * action_cost)` over steps and components; it is zero when U is all zeros |
| Plan.TotalCost | src/planning/mm_planner.py:273-280 | the trajectory cost of the stacked states and scaled actions, or zero when there is none, plus each sample's perturbation cost; one cost per sample |
| Plan.Step | src/planning/mm_planner.py:179-180 | `_dynamics`: the dynamics called with the step index when step-dependent, and without it otherwise |
| Plan.Update | src/planning/mm_planner.py:206-207 | U[t] plus the omega-weighted sum of the K noise vectors at step t, for every step; the result keeps U's T x nu shape |
| Plan.CommandActions | src/planning/mm_planner.py:211-215 | u_scale * U[:u_per_command], unwrapped to a single action exactly when u_per_command is 1 |
| Plan.BroadcastState | src/planning/mm_planner.py:232-235 | the K start states: a (K, nx) batch as given, any other state flattened into one row and repeated K times |
| Plan.ReplayStart | src/planning/mm_planner.py:303-309 | `state.view(-1, nx)`, a single row repeated num_rollouts times, which must fit the (num_rollouts, nx) slot; on success num_rollouts rows of nx entries, otherwise a shape error |
| Plan.ViewAsRows | src/planning/mm_planner.py:312 | `a.view(n, -1)`: defined exactly when n > 0 divides the length, and then n rows that reshape back to the same entries |
| Plan.ReplayActionsAsWritten | src/planning/mm_planner.py:311-312 | the replay actions as written, u_scale * U[t].view(num_rollouts, -1) for every step; on success one batch per step whose rows together hold exactly u_scale * U[t] |
| Weights.Rescaled | src/planning/mm_planner.py:197-199 | `cost_total_non_zero`: exp(-(c_i - beta)/lambda) per sample with beta the least cost; one strictly positive weight per sample |
| Weights.Omega | src/planning/mm_planner.py:201-202 | omega = (1/eta) * cost_total_non_zero with eta their sum; one weight per sample |
| Weights.EnsureNonZero | src/planning/mm_planner.py:11-12 | the rescaled cost is strictly positive, and equals 1 for the sample whose cost equals beta |
| Weights.MinCost | src/planning/mm_planner.py:197 | beta is one of the costs and is at most every cost |
| Weights.EtaAtLeastOne | src/planning/mm_planner.py:197-201 | there is one rescaled cost per sample, each is positive, and their sum eta is at least 1, so the division by eta is defined |
| Weights.WeightsFormDistribution | src/planning/mm_planner.py:197-202 | omega has one weight per sample, every weight lies in (0, 1], and the weights sum to exactly 1 |
| Weights.EqualCostsGiveUniformWeights | src/planning/mm_planner.py:197-202 | when all K costs are equal, every weight is 1/K |
| Bounds.BoundCompletion | src/planning/mm_planner.py:137-145 | after completion the bounds are both present or both absent; a given bound is kept; a missing one is the negation of the other; both are absent only when neither was given |
| Bounds.CompletedBoundOrdered | src/planning/mm_planner.py:138-145 | a bound completed by negation satisfies min <= max in every dimension exactly when the given bound has the right sign (u_max >= 0, or u_min <= 0) |
| Bounds.ClampEntryWithin | src/planning/mm_planner.py:245 | clamping an entry with lo <= hi lands in [lo, hi], leaves an entry already inside unchanged, and gives hi above the range and lo below it |
| Bounds.ClampedActionsWithinBounds | src/planning/mm_planner.py:245 | with ordered bounds, every clamped action is within them; clamping actions already within the bounds changes nothing; without bounds the actions are unchanged |
| Bounds.ClampWithoutBoundsFails | src/planning/mm_planner.py:245 | the clamp as written fails when both bounds are absent, while the corrected clamp is the identity |
| Plan.WarmStartShift | src/planning/mm_planner.py:188-189 | the shifted sequence has the same length, step t holds the old step t+1, and the last step holds u_init |
| Plan.NullActionSample | src/planning/mm_planner.py:240-242 | every perturbed action is the nominal control plus its noise, except that the last sample is all zeros when the null action is sampled |
| Plan.ClampedPerturbation | src/planning/mm_planner.py:240-247 | the recomputed noise added to the nominal control gives back the clamped perturbed action, and with ordered bounds every clamped action is within them |
| Plan.ZeroNoiseCostsNothing | src/planning/mm_planner.py:249-255 | zero noise gives zero perturbation cost, with or without the absolute value |
| Plan.StepCallingPattern | src/planning/mm_planner.py:179-180 | the step index is passed to the dynamics only for step-dependent dynamics; otherwise the result does not depend on the step |
| Plan.RolloutExtend | src/planning/mm_planner.py:261-266 | extending a rollout by one step of the dynamics gives the rollout of the extended action sequence |
| Plan.RolloutUnique | src/planning/mm_planner.py:261-266 | the rollout of a start state under a given action sequence is unique |
| Plan.IdentityDynamicsRollout | src/planning/mm_planner.py:261-266 | under dynamics that leave the state unchanged, every state of the rollout is the start state |
| Plan.UpdateIsWeightedAverage | src/planning/mm_planner.py:206-207 | when the weights sum to 1, each updated control component is the omega-weighted average of that component over the perturbed actions |
| Plan.UpdateStaysInBounds | src/planning/mm_planner.py:206-207 | with non-negative weights summing to 1 and perturbed actions within the bounds, the updated sequence is within the bounds |
| Plan.UniformWeightsAddMeanNoise | src/planning/mm_planner.py:206-207 | with uniform weights, the update adds the mean noise of each step to U |
| Plan.ReturnedActions | src/planning/mm_planner.py:211-215 | u_per_command = 1 returns the single action u_scale * U[0]; otherwise it returns the prefix sequence of the stated length (clipped at T, Python slice rule for negative values), whose entries are the scaled controls |
| Plan.BroadcastStateCases | src/planning/mm_planner.py:232-235 | a single state is repeated for all K samples, and a (K, nx) batch of states is used as given |
| Plan.ReplayStartPoint | src/planning/mm_planner.py:303-305 | a single state of dimension nx starts every one of the rollouts |
| Plan.ReplayStartSamples | src/planning/mm_planner.py:303-309 | a batch of num_rollouts states is used as given, and a batch of any other size greater than 1 is a shape error |
| Plan.ReplayActions | src/planning/mm_planner.py:311-312 | the corrected replay gives every rollout the whole scaled control u_scale * U[t] at every step t |
| Plan.ReplayAsWrittenSingleRollout | src/planning/mm_planner.py:311-312 | for one rollout, the source's view(1, -1) agrees with the corrected replay |
| Plan.ReplayAsWrittenSplitsActions | src/planning/mm_planner.py:311-312 | with two rollouts, the source's view fails for nu = 1, and for nu = 2 it gives each rollout one component instead of the whole control |
| Mppi.Controller.constructor | src/planning/mm_planner.py:111-177 | nu is 1 for a scalar variance and the matrix size otherwise; the bounds are completed; u_init defaults to zeros; U is U_init or the initial draws; the last-command fields start empty |
| Mppi.Controller.ComputeTotalCostBatch | src/planning/mm_planner.py:227-281 | the stored perturbed actions are the clamped perturbation of U; the noise is perturbed action minus U; the states are the rollout of the scaled actions from the broadcast start; the returned cost is trajectory cost plus perturbation cost |
| Mppi.Controller.GetRollouts | src/planning/mm_planner.py:294-314 | a start state that does not fit is a shape error; otherwise the result is the T-step rollout of the corrected replay actions from the broadcast start |
| Mppi.Controller.ShiftWarmStart | src/planning/mm_planner.py:188-189 | U becomes the warm-start shift of the old U |
| Mppi.Controller.ComputeWeights | src/planning/mm_planner.py:197-202 | the rescaled costs and omega are those of the given costs, and omega is a probability distribution over the K samples |
| Mppi.Controller.UpdateNominal | src/planning/mm_planner.py:206-207 | U becomes the old U plus the omega-weighted noise at every step, and stays within ordered bounds when the perturbed actions are |
| Mppi.Controller.Command | src/planning/mm_planner.py:182-219 | ties every field to the stage functions applied to the shifted U; omega is a distribution; U stays within ordered bounds; the result is the returned actions with the replay, or the replay's shape error |
| Mppi.Controller.Reset | src/planning/mm_planner.py:221-225 | U is a fresh array holding the new T draws |

## Findings

| source | as written | input that shows it | evidently intended | confidence | as-written member | corrected member |
|---|---|---|---|---|---|---|
| src/planning/mm_planner.py:311-312 | each step's action is passed as `u_scale * U[t].view(num_rollouts, -1)`, which splits one control vector across the rollouts | `get_rollouts(x, num_rollouts=2)` with nu = 1 (a view of 1 entry into 2 rows raises), or with nu = 2, U[0] = [1, 2] (rollout 0 gets [1], rollout 1 gets [2]) | every rollout receives the whole action `u_scale * U[t]`, repeated num_rollouts times | high, not executed | Plan.ReplayAsWrittenSplitsActions | Plan.ReplayActions (used by Mppi.Controller.GetRollouts) |
| src/planning/mm_planner.py:245 | `clamp(min=self.u_min, max=self.u_max)` is called even when both bounds are None, which PyTorch rejects | a controller built with u_min = u_max = None, then any `command` | with no bounds the perturbed actions pass through unchanged | medium (depends on the PyTorch version), not executed | Bounds.ClampWithoutBoundsFails | Bounds.ClampedActionsWithinBounds (uses Bounds.ClampActions) |

## Left out

- Noise sampling (`MultivariateNormal.sample`) is random. The draws are parameters to `ComputeTotalCostBatch`, `Command`, `Reset` and the constructor, each required to have the right shape.
- `noise_mu` is left out, because only the noise sampler uses it.
- `torch.inverse` of the covariance is not modelled. `noiseSigmaInv` is given already inverted, with nu x nu shape.
- Devices, dtypes and `torch.tensor` conversion of inputs are left out: they do not change any value.
- Floating point is left out. The model uses exact reals, so NaN, overflow, underflow of `exp`, and rounding outside the bounds are not captured.
- Scalar bounds broadcast against nu dimensions are not modelled. Bounds are vectors of length nu.
- Wrong shapes for `U_init`, `u_init` or the bounds are not modelled. The constructor stores them unchecked (lines 133-160) and requires them well-shaped. In the source a wrong-shaped `U_init` would raise only later, in `U + noise` (line 240) or at `U[t]` (line 207), while `get_rollouts` takes T from `U.shape[0]` (line 307).
- K = 0, T = 0 and lambda <= 0 are excluded by the constructor's requires. With K = 0 or T = 0 there is no sample or no step: `torch.min` of an empty cost vector raises (line 197), and `U[-1]` of an empty plan raises (line 189). lambda = 0 divides by zero (line 199). A negative lambda runs but gives costly samples the larger weights, against the docstring's "positive scalar" (line 101).
- Shape faults inside the user-supplied dynamics and trajectory-cost callables are not modelled. The trajectory cost is required to return one cost per sample.
- `self.actions`, and its division by `u_scale`, are not stored. For u_scale != 0 they equal the perturbed actions; for u_scale = 0 the source divides by zero.
- `self.state`, the last state converted to a tensor, is not stored. The model uses the `StateArg` parameter directly.
- The `torch.stack` layout change (K x T x nx) is not modelled. States and actions stay time-major.
- Mppi.Controller.ComputeTotalCostBatch: a state with K rows of nx entries is used as given, and any other state is flattened into one row and repeated K times (the source's `view(1, -1).repeat(K, 1)`). The shape error the dynamics raise when that row does not have nx entries is not modelled.
- The source's default argument values are not modelled. Every argument is explicit.
- `MMplanner`, `run_mppi`, `_bound_action` and `_slice_control` are outside this model. The last two are unused (the call of `_bound_action` is commented out).
