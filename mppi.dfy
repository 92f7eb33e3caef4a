/**
 * The MPPI controller (model predictive path integral control): a
 * receding-horizon optimiser whose one persistent state is the T x nu nominal
 * control sequence `U`, shifted, perturbed, scored and re-weighted on every
 * call of `Command`.
 */
module Mppi {
  import opened Wrappers
  import opened Tensors
  import opened Bounds
  import opened Weights
  import opened Plan

  /** The control-noise covariance as given: a 0-d scalar variance or an nu x nu matrix. */
  datatype Covariance = ScalarVariance(variance: real) | Matrix(rows: seq<Vec>) {
    /** The control dimension nu: 1 for a scalar variance, the number of rows otherwise. */
    function ControlDimension(): nat {
      match this
      case ScalarVariance(_) => 1
      case Matrix(rows) => |rows|
    }
  }

  /** A trajectory-cost callable that returns one cost per sample, whatever it is given. */
  ghost predicate CostPerSample(c: CostFn, k: nat) {
    forall states, actions :: |c(states, actions)| == k
  }

  class Controller {
    const K: nat                       // number of sampled trajectories
    const T: nat                       // horizon
    const nx: nat                      // state dimension
    const nu: nat                      // control dimension
    const lambda: real                 // temperature
    const uMin: Option<Vec>
    const uMax: Option<Vec>
    const uScale: real
    const uPerCommand: int
    const uInit: Vec                   // the control appended by the warm start
    const noiseSigmaInv: seq<Vec>      // the inverse of the noise covariance, computed outside the model
    const stepDependent: bool
    const dynamics: Dynamics
    const trajectoryCost: Option<CostFn>
    const sampleNullAction: bool
    const noiseAbsCost: bool

    /** The nominal control sequence, T x nu. */
    var U: array<Vec>

    // What the last command sampled and computed (empty before the first one).
    var noise: seq<Traj>
    var perturbedAction: seq<Traj>
    var states: seq<Batch>
    var costTotal: Vec
    var costTotalNonZero: Vec
    var omega: Vec

    /** The configuration fixed at construction is well-formed. */
    ghost predicate Configured() {
      && K >= 1 && T >= 1 && lambda > 0.0
      && |uInit| == nu
      && (uMin.Some? <==> uMax.Some?)
      && (uMin.Some? ==> |uMin.value| == nu && |uMax.value| == nu)
      && |noiseSigmaInv| == nu && Rows(noiseSigmaInv, nu)
      && (trajectoryCost.Some? ==> CostPerSample(trajectoryCost.value, K))
    }

    /** The configuration is well-formed and `U` is a T x nu sequence. */
    ghost predicate Valid()
      reads this, U
    {
      Configured() && U.Length == T && Rows(U[..], nu)
    }

    /**
     * Configure a controller. The control dimension comes from the shape of
     * the noise covariance, a one-sided bound is completed by negation,
     * `u_init` defaults to zeros, and `U` is `U_init` or, when that is
     * absent, `initialSample` (the T draws from the noise distribution).
     */
    constructor (dynamics: Dynamics, trajectoryCost: Option<CostFn>, nx: nat,
                 noiseSigma: Covariance, noiseSigmaInv: seq<Vec>,
                 numSamples: nat, horizon: nat, lambda: real,
                 uMin: Option<Vec>, uMax: Option<Vec>, uInit: Option<Vec>, UInit: Option<Traj>,
                 uScale: real, uPerCommand: int,
                 stepDependent: bool, sampleNullAction: bool, noiseAbsCost: bool,
                 initialSample: Traj)
      requires numSamples >= 1 && horizon >= 1 && lambda > 0.0
      requires var nu := noiseSigma.ControlDimension();
        && |noiseSigmaInv| == nu && Rows(noiseSigmaInv, nu)
        && (uMin.Some? ==> |uMin.value| == nu)
        && (uMax.Some? ==> |uMax.value| == nu)
        && (uInit.Some? ==> |uInit.value| == nu)
        && (UInit.Some? ==> |UInit.value| == horizon && Rows(UInit.value, nu))
        && (UInit.None? ==> |initialSample| == horizon && Rows(initialSample, nu))
      requires trajectoryCost.Some? ==> CostPerSample(trajectoryCost.value, numSamples)
      ensures Valid() && fresh(U)
      ensures K == numSamples && T == horizon && this.nx == nx && this.lambda == lambda
      ensures nu == noiseSigma.ControlDimension()
      ensures (this.uMin, this.uMax) == CompleteBounds(uMin, uMax)
      ensures this.uInit == if uInit.Some? then uInit.value else Zeros(nu)
      ensures U[..] == if UInit.Some? then UInit.value else initialSample
      ensures this.uScale == uScale && this.uPerCommand == uPerCommand && this.noiseSigmaInv == noiseSigmaInv
      ensures this.dynamics == dynamics && this.trajectoryCost == trajectoryCost
      ensures this.stepDependent == stepDependent && this.sampleNullAction == sampleNullAction
      ensures this.noiseAbsCost == noiseAbsCost
      ensures noise == [] && perturbedAction == [] && states == [] && costTotal == [] && costTotalNonZero == [] && omega == []
    {
      K := numSamples;
      T := horizon;
      this.nx := nx;
      var n := noiseSigma.ControlDimension();
      nu := n;
      this.lambda := lambda;
      var bounds := CompleteBounds(uMin, uMax);
      BoundCompletion(uMin, uMax);
      this.uMin := bounds.0;
      this.uMax := bounds.1;
      this.uScale := uScale;
      this.uPerCommand := uPerCommand;
      this.noiseSigmaInv := noiseSigmaInv;
      this.uInit := if uInit.Some? then uInit.value else Zeros(n);
      var u0 := if UInit.Some? then UInit.value else initialSample;
      U := new Vec[horizon](t requires 0 <= t < horizon => u0[t]);
      this.stepDependent := stepDependent;
      this.dynamics := dynamics;
      this.trajectoryCost := trajectoryCost;
      this.sampleNullAction := sampleNullAction;
      this.noiseAbsCost := noiseAbsCost;
      noise, perturbedAction, states := [], [], [];
      costTotal, costTotalNonZero, omega := [], [], [];
    }

    /**
     * The sampled batch kept by `_compute_total_cost_batch` for nominal
     * sequence `u`: the clamped perturbed actions, the noise they amount to,
     * the rollout from the broadcast start state, and the total costs.
     */
    ghost predicate Sampled(u: Traj, s: StateArg, sample: seq<Traj>)
      requires Configured() && |u| == T && Rows(u, nu) && NoiseBatch(sample, K, T, nu)
      reads this
    {
      && perturbedAction == ClampActions(Perturb(u, sample, sampleNullAction, nu), uMin, uMax, nu)
      && noise == EffectiveNoise(perturbedAction, u, nu)
      && IsRollout(dynamics, stepDependent, BroadcastState(s, K, nx), ScaledActions(perturbedAction, uScale, T), states)
      && costTotal == TotalCost(trajectoryCost, states, ScaledActions(perturbedAction, uScale, T),
                                u, noise, noiseSigmaInv, lambda, noiseAbsCost, nu)
    }

    /**
     * `_compute_total_cost_batch`: perturb `U` by the noise batch, clamp,
     * recompute the effective noise, roll the K samples out through the
     * dynamics and score each by its trajectory cost plus its perturbation
     * cost. `U` itself is not changed.
     */
    method ComputeTotalCostBatch(s: StateArg, sample: seq<Traj>) returns (c: Vec)
      requires Valid() && NoiseBatch(sample, K, T, nu)
      modifies this`noise, this`perturbedAction, this`states, this`costTotal
      ensures Valid()
      ensures perturbedAction == ClampActions(Perturb(U[..], sample, sampleNullAction, nu), uMin, uMax, nu)
      ensures noise == EffectiveNoise(perturbedAction, U[..], nu)
      ensures IsRollout(dynamics, stepDependent, BroadcastState(s, K, nx), ScaledActions(perturbedAction, uScale, T), states)
      ensures c == costTotal
      ensures c == TotalCost(trajectoryCost, states, ScaledActions(perturbedAction, uScale, T),
                             U[..], noise, noiseSigmaInv, lambda, noiseAbsCost, nu)
      ensures Sampled(U[..], s, sample)
      ensures uMin.Some? && Ordered(uMin.value, uMax.value) ==> WithinBounds(perturbedAction, uMin.value, uMax.value)
    {
      var u := U[..];
      var x := BroadcastState(s, K, nx);
      var pa := Perturb(u, sample, sampleNullAction, nu);
      pa := ClampActions(pa, uMin, uMax, nu);
      var eff := EffectiveNoise(pa, u, nu);

      ghost var x0 := x;
      ghost var acts := ScaledActions(pa, uScale, T);
      var rollout: seq<Batch> := [];
      var scaled: seq<Batch> := [];
      for t := 0 to T
        invariant |rollout| == t && scaled == acts[..t]
        invariant x == if t == 0 then x0 else rollout[t - 1]
        invariant IsRollout(dynamics, stepDependent, x0, acts[..t], rollout)
      {
        var a := seq(K, i requires 0 <= i < K => Scale(uScale, pa[i][t]));
        assert a == acts[t];
        RolloutExtend(dynamics, stepDependent, x0, acts[..t], rollout, a);
        x := Step(dynamics, stepDependent, x, a, t);
        rollout := rollout + [x];
        scaled := scaled + [a];
        assert acts[..t + 1] == acts[..t] + [a];
      }
      assert acts[..T] == acts;

      c := Zeros(K);
      if trajectoryCost.Some? {
        c := Add(c, trajectoryCost.value(rollout, scaled));
      }
      var sigmaInv := noiseSigmaInv;
      var perturbationCost := seq(K, i requires 0 <= i < K =>
        PerturbationCost(u, ActionCost(eff[i], sigmaInv, lambda, noiseAbsCost, nu)));
      c := Add(c, perturbationCost);
      ClampedPerturbation(u, sample, sampleNullAction, uMin, uMax, nu);
      perturbedAction, noise, states, costTotal := pa, eff, rollout, c;
    }

    /**
     * `get_rollouts`: replay the nominal sequence through the dynamics from
     * the given start state(s), `num_rollouts` times, giving T batches of
     * states (the start excluded). Each rollout is given the whole action
     * `u_scale * U[t]` (see ReplayActionsAsWritten for the source's reshape).
     */
    method GetRollouts(s: StateArg, numRollouts: int) returns (r: Result<seq<Batch>>)
      requires Valid()
      ensures ReplayStart(s, nx, numRollouts).Failure? ==> r == Failure(ReplayStart(s, nx, numRollouts).error)
      ensures ReplayStart(s, nx, numRollouts).Success? ==>
        && numRollouts > 0
        && r.Success? && |r.value| == T
        && IsRollout(dynamics, stepDependent, ReplayStart(s, nx, numRollouts).value,
                     ReplayActions(U[..], uScale, numRollouts), r.value)
    {
      var start := ReplayStart(s, nx, numRollouts);
      if start.Failure? {
        return Failure(start.error);
      }
      var u := U[..];
      ghost var acts := ReplayActions(u, uScale, numRollouts);
      var trajectory := new Batch[T + 1];
      trajectory[0] := start.value;
      for t := 0 to T
        invariant forall k :: 0 <= k < t ==>
          trajectory[k + 1] == Step(dynamics, stepDependent, trajectory[k], acts[k], k)
        invariant trajectory[0] == start.value
      {
        var a := seq(numRollouts, _ => Scale(uScale, u[t]));
        assert a == acts[t];
        trajectory[t + 1] := Step(dynamics, stepDependent, trajectory[t], a, t);
      }
      r := Success(trajectory[1..]);
    }

    /** The warm start of `command`: roll `U` one step earlier and put `u_init` in the last slot. */
    method ShiftWarmStart()
      requires Valid()
      modifies U
      ensures Valid() && U[..] == Shift(old(U[..]), uInit)
    {
      forall t | 0 <= t < T {
        U[t] := U[(t + 1) % T];
      }
      U[T - 1] := uInit;
    }

    /**
     * The weighting of `command`: beta is the least total cost,
     * `cost_total_non_zero` the rescaled costs, and `omega` those divided by
     * their sum eta.
     */
    method ComputeWeights(c: Vec, exp: real -> real)
      requires IsExp(exp) && |c| == K && K >= 1
      requires lambda > 0.0
      modifies this`costTotalNonZero, this`omega
      ensures costTotalNonZero == Rescaled(exp, c, 1.0 / lambda)
      ensures omega == Omega(exp, c, 1.0 / lambda)
      ensures |omega| == K && Sum(omega) == 1.0 && forall i :: 0 <= i < K ==> 0.0 < omega[i] <= 1.0
    {
      var beta := MinCost(c);
      var factor := 1.0 / lambda;
      costTotalNonZero := seq(K, i requires 0 <= i < K => EnsureNonZero(exp, c[i], beta, factor));
      EtaAtLeastOne(exp, c, factor);
      var eta := Sum(costTotalNonZero);
      omega := Scale(1.0 / eta, costTotalNonZero);
      WeightsFormDistribution(exp, c, factor);
    }

    /** The update of `command`: add the weighted average noise to every step of `U`. */
    method UpdateNominal()
      requires Valid() && NoiseBatch(noise, |omega|, T, nu)
      requires ActionBatch(perturbedAction, nu) && |perturbedAction| == |omega|
      requires forall i :: 0 <= i < |perturbedAction| ==> |perturbedAction[i]| == T
      requires noise == EffectiveNoise(perturbedAction, U[..], nu)
      requires Sum(omega) == 1.0 && forall i :: 0 <= i < |omega| ==> omega[i] >= 0.0
      modifies U
      ensures Valid() && U[..] == Update(old(U[..]), omega, noise, nu)
      ensures uMin.Some? && Ordered(uMin.value, uMax.value) && WithinBounds(perturbedAction, uMin.value, uMax.value) ==>
        forall t, j :: 0 <= t < T && 0 <= j < nu ==> uMin.value[j] <= U[t][j] <= uMax.value[j]
    {
      ghost var before := U[..];
      for t := 0 to T
        invariant forall k :: 0 <= k < t ==> U[k] == Add(before[k], Combine(omega, TimeSlice(noise, k), nu))
        invariant forall k :: t <= k < T ==> U[k] == before[k]
      {
        U[t] := Add(U[t], Combine(omega, TimeSlice(noise, t), nu));
      }
      assert U[..] == Update(before, omega, noise, nu);
      if uMin.Some? && Ordered(uMin.value, uMax.value) && WithinBounds(perturbedAction, uMin.value, uMax.value) {
        UpdateStaysInBounds(before, omega, perturbedAction, uMin.value, uMax.value, nu);
      }
    }

    /**
     * `command`: warm-start shift, sample and score K perturbed trajectories,
     * fold the importance-weighted noise into `U`, and return the first
     * `u_per_command` scaled actions with the replayed rollout of the new plan.
     * The replay fails for a start-state batch of more than one row, after `U`
     * has been updated.
     */
    method Command(s: StateArg, sample: seq<Traj>, exp: real -> real) returns (r: Result<(Actions, seq<Batch>)>)
      requires Valid() && IsExp(exp) && NoiseBatch(sample, K, T, nu)
      modifies this, U
      ensures Valid() && U == old(U)
      ensures var shifted := Shift(old(U[..]), uInit);
        && Sampled(shifted, s, sample)
        && costTotalNonZero == Rescaled(exp, costTotal, 1.0 / lambda)
        && omega == Omega(exp, costTotal, 1.0 / lambda)
        && U[..] == Update(shifted, omega, noise, nu)
      ensures |omega| == K && Sum(omega) == 1.0 && forall i :: 0 <= i < K ==> 0.0 < omega[i] <= 1.0
      ensures uMin.Some? && Ordered(uMin.value, uMax.value) ==>
        forall t, j :: 0 <= t < T && 0 <= j < nu ==> uMin.value[j] <= U[t][j] <= uMax.value[j]
      ensures ReplayStart(s, nx, 1).Failure? ==> r == Failure(ReplayStart(s, nx, 1).error)
      ensures ReplayStart(s, nx, 1).Success? ==>
        && r.Success? && r.value.0 == CommandActions(U[..], uScale, uPerCommand)
        && IsRollout(dynamics, stepDependent, ReplayStart(s, nx, 1).value, ReplayActions(U[..], uScale, 1), r.value.1)
    {
      ShiftWarmStart();
      ghost var shifted := U[..];
      var c := ComputeTotalCostBatch(s, sample);
      ComputeWeights(c, exp);
      UpdateNominal();

      var actions := CommandActions(U[..], uScale, uPerCommand);
      var rollout := GetRollouts(s, 1);
      match rollout
      case Failure(e) => r := Failure(e);
      case Success(replayed) => r := Success((actions, replayed));
    }

    /** `reset`: start a new trial from a fresh nominal sequence (T draws from the noise distribution). */
    method Reset(sample: Traj)
      requires Valid() && |sample| == T && Rows(sample, nu)
      modifies this`U
      ensures Valid() && fresh(U) && U[..] == sample
    {
      U := new Vec[T](t requires 0 <= t < T => sample[t]);
    }
  }
}
