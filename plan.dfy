/**
 * The steps of one MPPI decision, as functions of the controller's nominal
 * sequence and the inputs of the call: warm-start shift, perturbation,
 * effective noise, rollout, costs, weighted update and the returned actions,
 * plus the state handling of the rollout replay.
 */
module Plan {
  import opened Wrappers
  import opened Tensors
  import opened Bounds
  import opened Weights

  // ---------------------------------------------------------------- warm start

  /** `torch.roll(U, -1, dims=0)`: every step moves one place earlier and the first wraps to the end. */
  function Roll(u: Traj): Traj {
    seq(|u|, t requires 0 <= t < |u| => u[(t + 1) % |u|])
  }

  /** The warm start: roll the nominal sequence, then overwrite the last step with `u_init`. */
  function Shift(u: Traj, uInit: Vec): (r: Traj)
    requires |u| > 0
    ensures |r| == |u| && r[|u| - 1] == uInit
  {
    Roll(u)[|u| - 1 := uInit]
  }

  /** After the shift step t holds the old step t + 1, and the last step holds `u_init`. */
  lemma WarmStartShift(u: Traj, uInit: Vec)
    requires |u| > 0
    ensures |Shift(u, uInit)| == |u|
    ensures forall t :: 0 <= t < |u| - 1 ==> Shift(u, uInit)[t] == u[t + 1]
    ensures Shift(u, uInit)[|u| - 1] == uInit
  {
    forall t | 0 <= t < |u| - 1
      ensures Shift(u, uInit)[t] == u[t + 1]
    {
      assert (t + 1) % |u| == t + 1;
    }
  }

  // ------------------------------------------------------------- perturbation

  /** K noise trajectories of T steps of dimension nu each. */
  predicate NoiseBatch(noise: seq<Traj>, k: nat, horizon: nat, nu: nat) {
    |noise| == k && forall i :: 0 <= i < k ==> |noise[i]| == horizon && Rows(noise[i], nu)
  }

  /** A trajectory of the same shape with every entry zero (`perturbed_action[K - 1] = 0`). */
  function ZerosLike(tr: Traj): Traj {
    seq(|tr|, t requires 0 <= t < |tr| => Zeros(|tr[t]|))
  }

  /** `U + noise`, broadcast over the K samples, with the last sample zeroed when null actions are sampled. */
  function Perturb(u: Traj, noise: seq<Traj>, nullAction: bool, nu: nat): (pa: seq<Traj>)
    requires |noise| > 0 && Rows(u, nu) && NoiseBatch(noise, |noise|, |u|, nu)
    ensures |pa| == |noise| && ActionBatch(pa, nu)
    ensures forall i :: 0 <= i < |pa| ==> |pa[i]| == |u|
  {
    var sum := seq(|noise|, i requires 0 <= i < |noise| =>
      seq(|u|, t requires 0 <= t < |u| => Add(u[t], noise[i][t])));
    if nullAction then sum[|sum| - 1 := ZerosLike(sum[|sum| - 1])] else sum
  }

  /** Every sample is exactly `U + noise`, except that with null-action sampling the last one is all zeros. */
  lemma NullActionSample(u: Traj, noise: seq<Traj>, nullAction: bool, nu: nat)
    requires |noise| > 0 && Rows(u, nu) && NoiseBatch(noise, |noise|, |u|, nu)
    ensures forall i, t, j :: 0 <= i < |noise| && 0 <= t < |u| && 0 <= j < nu ==>
      Perturb(u, noise, nullAction, nu)[i][t][j] ==
        if nullAction && i == |noise| - 1 then 0.0 else u[t][j] + noise[i][t][j]
  {
    var pa := Perturb(u, noise, nullAction, nu);
    forall i, t, j | 0 <= i < |noise| && 0 <= t < |u| && 0 <= j < nu
      ensures pa[i][t][j] == if nullAction && i == |noise| - 1 then 0.0 else u[t][j] + noise[i][t][j]
    {
    }
  }

  /** `perturbed_action - U`: the noise that survived the clamp. */
  function EffectiveNoise(pa: seq<Traj>, u: Traj, nu: nat): (noise: seq<Traj>)
    requires Rows(u, nu) && ActionBatch(pa, nu)
    requires forall i :: 0 <= i < |pa| ==> |pa[i]| == |u|
    ensures NoiseBatch(noise, |pa|, |u|, nu)
  {
    seq(|pa|, i requires 0 <= i < |pa| =>
      seq(|u|, t requires 0 <= t < |u| => Sub(pa[i][t], u[t])))
  }

  /**
   * Clamping then recomputing the noise: every sample equals the nominal
   * sequence plus its effective noise, and with ordered bounds lies within
   * them, so a perturbation cut off by the clamp enters the noise only as
   * far as the bound.
   */
  lemma ClampedPerturbation(u: Traj, noise: seq<Traj>, nullAction: bool, uMin: Option<Vec>, uMax: Option<Vec>, nu: nat)
    requires |noise| > 0 && Rows(u, nu) && NoiseBatch(noise, |noise|, |u|, nu)
    requires uMin.Some? <==> uMax.Some?
    requires uMin.Some? ==> |uMin.value| == nu && |uMax.value| == nu
    ensures var pa := ClampActions(Perturb(u, noise, nullAction, nu), uMin, uMax, nu);
            var eff := EffectiveNoise(pa, u, nu);
            (forall i, t :: 0 <= i < |noise| && 0 <= t < |u| ==> Add(u[t], eff[i][t]) == pa[i][t]) &&
            (uMin.Some? && Ordered(uMin.value, uMax.value) ==> WithinBounds(pa, uMin.value, uMax.value))
  {
    var pa := ClampActions(Perturb(u, noise, nullAction, nu), uMin, uMax, nu);
    var eff := EffectiveNoise(pa, u, nu);
    ClampedActionsWithinBounds(Perturb(u, noise, nullAction, nu), uMin, uMax, nu);
    forall i, t | 0 <= i < |noise| && 0 <= t < |u|
      ensures Add(u[t], eff[i][t]) == pa[i][t]
    {
      assert forall j :: 0 <= j < nu ==> Add(u[t], eff[i][t])[j] == pa[i][t][j];
    }
  }

  /** `perturbed_action[:, t]`: step t of every sample. */
  function TimeSlice(b: seq<Traj>, t: nat): Batch
    requires forall i :: 0 <= i < |b| ==> t < |b[i]|
  {
    seq(|b|, i requires 0 <= i < |b| => b[i][t])
  }

  // -------------------------------------------------------------------- costs

  /** The action cost of one sample, `lambda * noise @ noise_sigma_inv` (or of `|noise|`). */
  function ActionCost(noise: Traj, sigmaInv: seq<Vec>, lambda: real, absCost: bool, nu: nat): (ac: Traj)
    requires Rows(noise, nu) && |sigmaInv| == nu && Rows(sigmaInv, nu)
    ensures |ac| == |noise| && Rows(ac, nu)
  {
    seq(|noise|, t requires 0 <= t < |noise| =>
      VecMat(Scale(lambda, if absCost then AbsVec(noise[t]) else noise[t]), sigmaInv, nu))
  }

  /** `sum(U * action_cost)` over the horizon and the control dimension. */
  function PerturbationCost(u: Traj, ac: Traj): (c: real)
    requires |u| == |ac| && forall t :: 0 <= t < |u| ==> |u[t]| == |ac[t]|
    ensures (forall t, j :: 0 <= t < |u| && 0 <= j < |u[t]| ==> u[t][j] == 0.0) ==> c == 0.0
  {
    if u == [] then 0.0
    else
      var zero := forall t, j :: 0 <= t < |u| && 0 <= j < |u[t]| ==> u[t][j] == 0.0;
      var rest := PerturbationCost(u[1..], ac[1..]);
      assert zero ==> forall t, j :: 0 <= t < |u[1..]| && 0 <= j < |u[1..][t]| ==> u[1..][t][j] == 0.0;
      if zero then DotZero(ac[0], u[0]); Dot(u[0], ac[0]) + rest
      else Dot(u[0], ac[0]) + rest
  }

  /** A sample whose effective noise is zero (it was clamped back onto U, or drawn as zero) costs nothing for its perturbation. */
  lemma {:induction false} ZeroNoiseCostsNothing(u: Traj, noise: Traj, sigmaInv: seq<Vec>, lambda: real, absCost: bool, nu: nat)
    requires Rows(noise, nu) && |sigmaInv| == nu && Rows(sigmaInv, nu)
    requires |u| == |noise| && Rows(u, nu)
    requires forall t, j :: 0 <= t < |noise| && 0 <= j < nu ==> noise[t][j] == 0.0
    ensures PerturbationCost(u, ActionCost(noise, sigmaInv, lambda, absCost, nu)) == 0.0
  {
    if u != [] {
      var ac := ActionCost(noise, sigmaInv, lambda, absCost, nu);
      var v := Scale(lambda, if absCost then AbsVec(noise[0]) else noise[0]);
      forall j | 0 <= j < nu ensures ac[0][j] == 0.0 {
        DotZero(Column(sigmaInv, j), v);
      }
      DotZero(u[0], ac[0]);
      assert ac[1..] == ActionCost(noise[1..], sigmaInv, lambda, absCost, nu);
      ZeroNoiseCostsNothing(u[1..], noise[1..], sigmaInv, lambda, absCost, nu);
    }
  }

  /** A trajectory-cost callable: batched states and actions to one cost per trajectory. */
  type CostFn = (seq<Batch>, seq<Batch>) -> Vec

  /** `cost_total`: the trajectory cost (when one is configured) plus each sample's perturbation cost. */
  function TotalCost(trajectoryCost: Option<CostFn>, states: seq<Batch>, actions: seq<Batch>,
                     u: Traj, noise: seq<Traj>, sigmaInv: seq<Vec>, lambda: real, absCost: bool, nu: nat): (c: Vec)
    requires Rows(u, nu) && NoiseBatch(noise, |noise|, |u|, nu) && |sigmaInv| == nu && Rows(sigmaInv, nu)
    requires trajectoryCost.Some? ==> |trajectoryCost.value(states, actions)| == |noise|
    ensures |c| == |noise|
  {
    var k := |noise|;
    var base := if trajectoryCost.Some? then Add(Zeros(k), trajectoryCost.value(states, actions)) else Zeros(k);
    Add(base, seq(k, i requires 0 <= i < k => PerturbationCost(u, ActionCost(noise[i], sigmaInv, lambda, absCost, nu))))
  }

  // ----------------------------------------------------------------- dynamics

  /** A dynamics callable, called with or without the horizon step as third argument. */
  datatype Dynamics = Dynamics(withStep: (Batch, Batch, nat) -> Batch, withoutStep: (Batch, Batch) -> Batch)

  /** `_dynamics`: pass the step index only when the dynamics are step dependent. */
  function Step(f: Dynamics, stepDependent: bool, x: Batch, a: Batch, t: nat): Batch {
    if stepDependent then f.withStep(x, a, t) else f.withoutStep(x, a)
  }

  /** Without step dependence the step index never reaches the dynamics. */
  lemma StepCallingPattern(f: Dynamics, stepDependent: bool, x: Batch, a: Batch, t: nat, t': nat)
    ensures stepDependent ==> Step(f, stepDependent, x, a, t) == f.withStep(x, a, t)
    ensures !stepDependent ==> Step(f, stepDependent, x, a, t) == Step(f, stepDependent, x, a, t') == f.withoutStep(x, a)
  {
  }

  /** `states` is the rollout of the per-step action batches `acts` from `x0`: states[t] = F(states[t - 1], acts[t], t), the start state excluded. */
  predicate IsRollout(f: Dynamics, stepDependent: bool, x0: Batch, acts: seq<Batch>, states: seq<Batch>) {
    && |states| == |acts|
    && (|acts| > 0 ==> states[0] == Step(f, stepDependent, x0, acts[0], 0))
    && forall t :: 0 < t < |acts| ==> states[t] == Step(f, stepDependent, states[t - 1], acts[t], t)
  }

  /** Extending a rollout by one step of the dynamics gives the rollout of the extended actions. */
  lemma RolloutExtend(f: Dynamics, stepDependent: bool, x0: Batch, acts: seq<Batch>, states: seq<Batch>, a: Batch)
    requires IsRollout(f, stepDependent, x0, acts, states)
    ensures IsRollout(f, stepDependent, x0, acts + [a],
      states + [Step(f, stepDependent, if states == [] then x0 else states[|states| - 1], a, |acts|)])
  {
  }

  /** The rollout is determined by its start and its actions: replaying the same plan twice gives the same states. */
  lemma RolloutUnique(f: Dynamics, stepDependent: bool, x0: Batch, acts: seq<Batch>, s1: seq<Batch>, s2: seq<Batch>)
    requires IsRollout(f, stepDependent, x0, acts, s1)
    requires IsRollout(f, stepDependent, x0, acts, s2)
    ensures s1 == s2
  {
    var t := 0;
    while t < |acts|
      invariant 0 <= t <= |acts|
      invariant s1[..t] == s2[..t]
    {
      assert t > 0 ==> s1[t - 1] == s2[t - 1];
      assert s1[..t + 1] == s1[..t] + [s1[t]];
      assert s2[..t + 1] == s2[..t] + [s2[t]];
      t := t + 1;
    }
    assert s1 == s1[..|acts|] && s2 == s2[..|acts|];
  }

  /** Under identity dynamics every rollout state is the start state. */
  lemma {:induction false} IdentityDynamicsRollout(f: Dynamics, stepDependent: bool, x0: Batch, acts: seq<Batch>, states: seq<Batch>)
    requires forall x, a, t :: f.withStep(x, a, t) == x
    requires forall x, a :: f.withoutStep(x, a) == x
    requires IsRollout(f, stepDependent, x0, acts, states)
    ensures forall t :: 0 <= t < |states| ==> states[t] == x0
  {
    var t := 0;
    while t < |states|
      invariant 0 <= t <= |states|
      invariant forall s :: 0 <= s < t ==> states[s] == x0
    {
      if t > 0 {
        assert states[t] == Step(f, stepDependent, states[t - 1], acts[t], t);
      }
      t := t + 1;
    }
  }

  /** The action batches fed to the dynamics during sampling: `u_scale * perturbed_action[:, t]`. */
  function ScaledActions(pa: seq<Traj>, uScale: real, horizon: nat): seq<Batch>
    requires forall i :: 0 <= i < |pa| ==> |pa[i]| == horizon
  {
    seq(horizon, t requires 0 <= t < horizon =>
      seq(|pa|, i requires 0 <= i < |pa| => Scale(uScale, pa[i][t])))
  }

  // ------------------------------------------------------------------- update

  /** `U[t] += sum(omega * noise[:, t])` for every step t. */
  function Update(u: Traj, omega: seq<real>, noise: seq<Traj>, nu: nat): (r: Traj)
    requires Rows(u, nu) && NoiseBatch(noise, |omega|, |u|, nu)
    ensures |r| == |u| && Rows(r, nu)
  {
    seq(|u|, t requires 0 <= t < |u| => Add(u[t], Combine(omega, TimeSlice(noise, t), nu)))
  }

  /**
   * Because the weights sum to 1 and the noise is the clamped sample minus U,
   * the updated step is the weighted average of the clamped samples.
   */
  lemma UpdateIsWeightedAverage(u: Traj, omega: seq<real>, pa: seq<Traj>, nu: nat)
    requires Rows(u, nu) && ActionBatch(pa, nu) && |pa| == |omega|
    requires forall i :: 0 <= i < |pa| ==> |pa[i]| == |u|
    requires Sum(omega) == 1.0
    ensures forall t, j :: 0 <= t < |u| && 0 <= j < nu ==>
      Update(u, omega, EffectiveNoise(pa, u, nu), nu)[t][j] == Dot(omega, Column(TimeSlice(pa, t), j))
  {
    var noise := EffectiveNoise(pa, u, nu);
    forall t, j | 0 <= t < |u| && 0 <= j < nu
      ensures Update(u, omega, noise, nu)[t][j] == Dot(omega, Column(TimeSlice(pa, t), j))
    {
      DotShift(omega, Column(TimeSlice(pa, t), j), Column(TimeSlice(noise, t), j), u[t][j]);
    }
  }

  /** With weights forming a distribution and every clamped sample within the bounds, the updated sequence is within the bounds too. */
  lemma UpdateStaysInBounds(u: Traj, omega: seq<real>, pa: seq<Traj>, lo: Vec, hi: Vec, nu: nat)
    requires Rows(u, nu) && ActionBatch(pa, nu) && |pa| == |omega|
    requires forall i :: 0 <= i < |pa| ==> |pa[i]| == |u|
    requires forall i :: 0 <= i < |omega| ==> omega[i] >= 0.0
    requires Sum(omega) == 1.0
    requires |lo| == nu && |hi| == nu && WithinBounds(pa, lo, hi)
    ensures forall t, j :: 0 <= t < |u| && 0 <= j < nu ==>
      lo[j] <= Update(u, omega, EffectiveNoise(pa, u, nu), nu)[t][j] <= hi[j]
  {
    UpdateIsWeightedAverage(u, omega, pa, nu);
    forall t, j | 0 <= t < |u| && 0 <= j < nu
      ensures lo[j] <= Dot(omega, Column(TimeSlice(pa, t), j)) <= hi[j]
    {
      ConvexCombinationBetween(omega, Column(TimeSlice(pa, t), j), lo[j], hi[j]);
    }
  }

  /** With uniform weights 1/K the update adds the mean of the K noise samples. */
  lemma UniformWeightsAddMeanNoise(u: Traj, omega: seq<real>, noise: seq<Traj>, nu: nat)
    requires Rows(u, nu) && |omega| > 0 && NoiseBatch(noise, |omega|, |u|, nu)
    requires forall i :: 0 <= i < |omega| ==> omega[i] == 1.0 / |omega| as real
    ensures forall t, j :: 0 <= t < |u| && 0 <= j < nu ==>
      Update(u, omega, noise, nu)[t][j] == u[t][j] + Sum(Column(TimeSlice(noise, t), j)) / |omega| as real
  {
    forall t, j | 0 <= t < |u| && 0 <= j < nu
      ensures Update(u, omega, noise, nu)[t][j] == u[t][j] + Sum(Column(TimeSlice(noise, t), j)) / |omega| as real
    {
      DotConstantWeights(omega, Column(TimeSlice(noise, t), j), 1.0 / |omega| as real);
    }
  }

  // ---------------------------------------------------------- returned actions

  /** What `command` returns: one action unwrapped, or a sequence of them. */
  datatype Actions = Single(action: Vec) | Sequence(actions: seq<Vec>)

  /** The number of elements Python's slice `[:stop]` keeps of a sequence of length `len`. */
  function SliceLength(stop: int, len: nat): (n: nat)
    ensures n <= len
  {
    if stop >= 0 then (if stop < len then stop else len)
    else if len + stop > 0 then len + stop else 0
  }

  /** `u_scale * U[:u_per_command]`, unwrapped when exactly one action is asked for. */
  function CommandActions(u: Traj, uScale: real, uPerCommand: int): (r: Actions)
    requires |u| > 0
    ensures r.Single? <==> uPerCommand == 1
  {
    var n := SliceLength(uPerCommand, |u|);
    var acts := seq(n, t requires 0 <= t < n => Scale(uScale, u[t]));
    if uPerCommand == 1 then Single(acts[0]) else Sequence(acts)
  }

  /**
   * One requested action is returned as the bare vector `u_scale * U[0]`;
   * otherwise the leading scaled actions, as many as asked for up to T (a
   * negative count drops that many from the end, as a Python slice does).
   */
  lemma ReturnedActions(u: Traj, uScale: real, uPerCommand: int)
    requires |u| > 0
    ensures uPerCommand == 1 ==> CommandActions(u, uScale, uPerCommand) == Single(Scale(uScale, u[0]))
    ensures uPerCommand != 1 ==>
      var r := CommandActions(u, uScale, uPerCommand);
      r.Sequence? &&
      (0 <= uPerCommand <= |u| ==> |r.actions| == uPerCommand) &&
      (uPerCommand > |u| ==> |r.actions| == |u|) &&
      (uPerCommand < 0 ==> |r.actions| == if |u| + uPerCommand > 0 then |u| + uPerCommand else 0) &&
      forall t :: 0 <= t < |r.actions| ==> r.actions[t] == Scale(uScale, u[t])
  {
  }

  // --------------------------------------------------------------- state input

  /** The state given to `command` or `get_rollouts`: one state vector (nx), or a batch of them (rows x nx). */
  datatype StateArg = Point(x: Vec) | Samples(xs: Batch)

  /** The entries of the state tensor in row-major order. */
  function Flatten(s: StateArg): Vec {
    match s
    case Point(x) => x
    case Samples(xs) => Concat(xs)
  }

  /** The K start states of the sampled trajectories: a (K, nx) batch as given, anything else `view(1, -1).repeat(K, 1)`. */
  function BroadcastState(s: StateArg, k: nat, nx: nat): (x0: Batch)
    ensures |x0| == k
  {
    if s.Samples? && |s.xs| == k && Rows(s.xs, nx) then s.xs else seq(k, _ => Flatten(s))
  }

  /** A single state is copied to every sample; a (K, nx) batch gives each sample its own start state. */
  lemma BroadcastStateCases(s: StateArg, k: nat, nx: nat)
    ensures s.Point? ==> forall i :: 0 <= i < k ==> BroadcastState(s, k, nx)[i] == s.x
    ensures s.Samples? && |s.xs| == k && Rows(s.xs, nx) ==> BroadcastState(s, k, nx) == s.xs
  {
  }

  /**
   * The start states of `get_rollouts`: `state.view(-1, nx)`, a single row
   * repeated `num_rollouts` times, which must then match the
   * `(num_rollouts, nx)` slot it is written into.
   */
  function ReplayStart(s: StateArg, nx: nat, numRollouts: int): (r: Result<Batch>)
    ensures r.Success? ==> numRollouts > 0 && |r.value| == numRollouts && Rows(r.value, nx)
    ensures r.Failure? ==> r.error == ShapeMismatch
  {
    var flat := Flatten(s);
    if nx == 0 || |flat| % nx != 0 || numRollouts <= 0 then Failure(ShapeMismatch)
    else
      var rows := Chunk(flat, nx, |flat| / nx);
      if |rows| == 1 then Success(seq(numRollouts, _ => rows[0]))
      else if |rows| == numRollouts then Success(rows)
      else Failure(ShapeMismatch)
  }

  /** A single state of dimension nx starts every one of the rollouts. */
  lemma ReplayStartPoint(x: Vec, nx: nat, numRollouts: int)
    requires nx > 0 && numRollouts > 0 && |x| == nx
    ensures ReplayStart(Point(x), nx, numRollouts) == Success(seq(numRollouts, _ => x))
  {
    ExactDivision(1, nx);
    assert Chunk(x, nx, 1) == [x] by {
      assert Chunk(x, nx, 1) == [x[..nx]] + Chunk(x[nx..], nx, 0);
      assert x[..nx] == x;
    }
  }

  /**
   * A batch of exactly `num_rollouts` states of dimension nx starts one
   * rollout each; a batch of any other number of rows (but one) is a shape
   * error.
   */
  lemma ReplayStartSamples(xs: Batch, nx: nat, numRollouts: int)
    requires nx > 0 && numRollouts > 0 && Rows(xs, nx)
    ensures |xs| == numRollouts ==> ReplayStart(Samples(xs), nx, numRollouts) == Success(xs)
    ensures |xs| != 1 && |xs| != numRollouts ==> ReplayStart(Samples(xs), nx, numRollouts) == Failure(ShapeMismatch)
  {
    ConcatThenChunk(xs, nx);
    ExactDivision(|xs|, nx);
    if |xs| == 1 && numRollouts == 1 {
      assert forall r :: 0 <= r < 1 ==> seq(numRollouts, _ => xs[0])[r] == xs[r];
      assert seq(numRollouts, _ => xs[0]) == xs;
    }
  }

  /** The actions replayed by `get_rollouts`, corrected: each of the rollouts gets the whole vector `u_scale * U[t]`. */
  function ReplayActions(u: Traj, uScale: real, numRollouts: nat): (acts: seq<Batch>)
    ensures |acts| == |u|
    ensures forall t :: 0 <= t < |u| ==>
      |acts[t]| == numRollouts && forall r :: 0 <= r < numRollouts ==> acts[t][r] == Scale(uScale, u[t])
  {
    seq(|u|, t requires 0 <= t < |u| => seq(numRollouts, _ => Scale(uScale, u[t])))
  }

  /** `a.view(n, -1)`: `n` rows of `|a| / n` entries, or a shape error. */
  function ViewAsRows(a: Vec, n: int): (r: Result<Batch>)
    ensures r.Success? <==> n > 0 && |a| % n == 0
    ensures r.Success? ==> |r.value| == n && Concat(r.value) == a
  {
    if n <= 0 || |a| % n != 0 then Failure(ShapeMismatch)
    else
      ChunkThenConcat(a, |a| / n, n);
      Success(Chunk(a, |a| / n, n))
  }

  /** The actions replayed by `get_rollouts` as the source writes them: `u_scale * U[t].view(num_rollouts, -1)`. */
  function ReplayActionsAsWritten(u: Traj, uScale: real, numRollouts: int): (r: Result<seq<Batch>>)
    ensures r.Success? ==> |r.value| == |u| && forall t :: 0 <= t < |u| ==> Concat(r.value[t]) == Scale(uScale, u[t])
  {
    if u == [] then Success([])
    else
      match ViewAsRows(Scale(uScale, u[0]), numRollouts)
      case Failure(e) => Failure(e)
      case Success(b) =>
        match ReplayActionsAsWritten(u[1..], uScale, numRollouts)
        case Failure(e) => Failure(e)
        case Success(rest) => Success([b] + rest)
  }

  /** For a single rollout the source's `view(1, -1)` is harmless: it agrees with the corrected replay. */
  lemma {:induction false} ReplayAsWrittenSingleRollout(u: Traj, uScale: real)
    ensures ReplayActionsAsWritten(u, uScale, 1) == Success(ReplayActions(u, uScale, 1))
  {
    if u != [] {
      var a := Scale(uScale, u[0]);
      assert |a| == 1 * |a|;
      assert Chunk(a, |a|, 1) == [a] by {
        assert Chunk(a, |a|, 1) == [a[..|a|]] + Chunk(a[|a|..], |a|, 0);
        assert a[..|a|] == a;
      }
      ReplayAsWrittenSingleRollout(u[1..], uScale);
      var whole, rest := ReplayActions(u, uScale, 1), ReplayActions(u[1..], uScale, 1);
      assert whole[0] == [a];
      assert forall t :: 0 <= t < |rest| ==> whole[t + 1] == rest[t];
      assert whole == [[a]] + rest;
    }
  }

  /**
   * For more than one rollout the source's reshape goes wrong: with nu = 1
   * and two rollouts it raises, and with nu = 2 and two rollouts it hands each
   * rollout one component of the action instead of the whole action.
   */
  lemma ReplayAsWrittenSplitsActions()
    ensures ReplayActionsAsWritten([[1.0]], 1.0, 2) == Failure(ShapeMismatch)
    ensures ReplayActions([[1.0]], 1.0, 2) == [[[1.0], [1.0]]]
    ensures ReplayActionsAsWritten([[1.0, 2.0]], 1.0, 2) == Success([[[1.0], [2.0]]])
    ensures ReplayActions([[1.0, 2.0]], 1.0, 2) == [[[1.0, 2.0], [1.0, 2.0]]]
  {
    var a := Scale(1.0, [1.0, 2.0]);
    assert a == [1.0, 2.0];
    assert Chunk(a[1..], 1, 1) == [a[1..][..1]] + Chunk(a[1..][1..], 1, 0);
    assert a[1..][..1] == [2.0];
    assert Chunk(a, 1, 2) == [a[..1]] + Chunk(a[1..], 1, 1);
    assert a[..1] == [1.0];
    assert |a| == 2 && |a| % 2 == 0 && |a| / 2 == 1;
    assert ViewAsRows(a, 2) == Success(Chunk(a, 1, 2));
    var u2: Traj := [[1.0, 2.0]];
    assert u2[1..] == [];
    assert ReplayActionsAsWritten(u2[1..], 1.0, 2) == Success([]);
    assert Chunk(a, 1, 2) == [[1.0], [2.0]];
    var expected: seq<Batch> := [[[1.0], [2.0]]];
    assert ReplayActionsAsWritten(u2, 1.0, 2) == Success(expected + []);
    assert expected + [] == expected;
    var b := Scale(1.0, [1.0]);
    assert b == [1.0];
    assert ViewAsRows(b, 2) == Failure(ShapeMismatch);
    var one := ReplayActions([[1.0]], 1.0, 2);
    assert one[0] == [[1.0], [1.0]];
    var two := ReplayActions([[1.0, 2.0]], 1.0, 2);
    assert two[0] == [[1.0, 2.0], [1.0, 2.0]];
  }
}
