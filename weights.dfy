/**
 * Importance weighting of sampled trajectories (Williams et al., "Information
 * Theoretic MPC", Algorithm 2): rescale each total cost against the minimum,
 * exponentiate, and normalise.
 */
module Weights {
  import opened Tensors

  /**
   * The properties of `torch.exp` the weighting depends on: it is strictly
   * positive and maps 0 to 1.
   */
  ghost predicate IsExp(exp: real -> real) {
    (forall x :: exp(x) > 0.0) && exp(0.0) == 1.0
  }

  /** `_ensure_non_zero`: the unnormalised weight `exp(-factor * (cost - beta))`. */
  function EnsureNonZero(exp: real -> real, cost: real, beta: real, factor: real): (r: real)
    requires IsExp(exp)
    ensures r > 0.0
    ensures cost == beta ==> r == 1.0
  {
    assert cost == beta ==> -factor * (cost - beta) == 0.0;
    exp(-factor * (cost - beta))
  }

  /** `torch.min` of a non-empty cost vector. */
  function MinCost(c: seq<real>): (m: real)
    requires |c| > 0
    ensures exists k :: 0 <= k < |c| && c[k] == m
    ensures forall i :: 0 <= i < |c| ==> m <= c[i]
  {
    if |c| == 1 then c[0]
    else
      var rest := MinCost(c[1..]);
      assert forall i :: 1 <= i < |c| ==> c[i] == c[1..][i - 1];
      if c[0] <= rest then c[0] else rest
  }

  /** The vector of unnormalised weights, with beta the minimum cost (`cost_total_non_zero`). */
  function Rescaled(exp: real -> real, costs: seq<real>, factor: real): (w: seq<real>)
    requires IsExp(exp) && |costs| > 0
    ensures |w| == |costs| && forall i :: 0 <= i < |w| ==> w[i] > 0.0
  {
    var beta := MinCost(costs);
    seq(|costs|, i requires 0 <= i < |costs| => EnsureNonZero(exp, costs[i], beta, factor))
  }

  /** The normaliser `eta`: the sample of least cost contributes exp(0) = 1, every other a positive amount. */
  lemma EtaAtLeastOne(exp: real -> real, costs: seq<real>, factor: real)
    requires IsExp(exp) && |costs| > 0
    ensures |Rescaled(exp, costs, factor)| == |costs|
    ensures forall i :: 0 <= i < |costs| ==> Rescaled(exp, costs, factor)[i] > 0.0
    ensures Sum(Rescaled(exp, costs, factor)) >= 1.0
  {
    var w := Rescaled(exp, costs, factor);
    var k :| 0 <= k < |costs| && costs[k] == MinCost(costs);
    assert w[k] == 1.0;
    SumOfPositives(w);
  }

  /** The normalised weights `omega = (1 / eta) * cost_total_non_zero`. */
  function Omega(exp: real -> real, costs: seq<real>, factor: real): (omega: seq<real>)
    requires IsExp(exp) && |costs| > 0
    ensures |omega| == |costs|
  {
    var w := Rescaled(exp, costs, factor);
    EtaAtLeastOne(exp, costs, factor);
    Scale(1.0 / Sum(w), w)
  }

  /** Dividing a positive number by one at least as large gives a value in (0, 1]. */
  lemma RatioInUnitInterval(a: real, b: real)
    requires 0.0 < a <= b
    ensures 0.0 < (1.0 / b) * a <= 1.0
  {
    assert (1.0 / b) * a == a / b;
  }

  /** The weights form a probability distribution over the samples. */
  lemma WeightsFormDistribution(exp: real -> real, costs: seq<real>, factor: real)
    requires IsExp(exp) && |costs| > 0
    ensures |Omega(exp, costs, factor)| == |costs|
    ensures forall i :: 0 <= i < |costs| ==> 0.0 < Omega(exp, costs, factor)[i] <= 1.0
    ensures Sum(Omega(exp, costs, factor)) == 1.0
  {
    var w := Rescaled(exp, costs, factor);
    EtaAtLeastOne(exp, costs, factor);
    SumOfPositives(w);
    var eta := Sum(w);
    var omega := Omega(exp, costs, factor);
    assert omega == Scale(1.0 / eta, w);
    SumScale(1.0 / eta, w);
    assert (1.0 / eta) * eta == 1.0;
    forall i | 0 <= i < |costs|
      ensures 0.0 < omega[i] <= 1.0
    {
      RatioInUnitInterval(w[i], eta);
    }
  }

  /** When every sample costs the same, each gets weight 1/K. */
  lemma EqualCostsGiveUniformWeights(exp: real -> real, costs: seq<real>, factor: real)
    requires IsExp(exp) && |costs| > 0
    requires forall i :: 0 <= i < |costs| ==> costs[i] == costs[0]
    ensures forall i :: 0 <= i < |costs| ==> Omega(exp, costs, factor)[i] == 1.0 / |costs| as real
  {
    var w := Rescaled(exp, costs, factor);
    var k :| 0 <= k < |costs| && costs[k] == MinCost(costs);
    assert forall i :: 0 <= i < |costs| ==> w[i] == 1.0;
    SumConstant(w, 1.0);
  }
}
