/**
 * Control bounds: completing a one-sided bound at construction, and the
 * elementwise clamp applied to the perturbed actions.
 */
module Bounds {
  import opened Wrappers
  import opened Tensors

  /**
   * The constructor's bound completion: a lone `u_max` gives `u_min = -u_max`,
   * then a lone `u_min` gives `u_max = -u_min`.
   */
  function CompleteBounds(uMin: Option<Vec>, uMax: Option<Vec>): (r: (Option<Vec>, Option<Vec>))
    ensures r.0.Some? <==> r.1.Some?
    ensures r.0.None? <==> uMin.None? && uMax.None?
  {
    var lo := if uMax.Some? && uMin.None? then Some(Neg(uMax.value)) else uMin;
    var hi := if lo.Some? && uMax.None? then Some(Neg(lo.value)) else uMax;
    (lo, hi)
  }

  /** After completion either both bounds are present or neither; a supplied side is kept and a missing one is its negation. */
  lemma BoundCompletion(uMin: Option<Vec>, uMax: Option<Vec>)
    ensures CompleteBounds(uMin, uMax).0.Some? <==> CompleteBounds(uMin, uMax).1.Some?
    ensures CompleteBounds(uMin, uMax).0.None? <==> uMin.None? && uMax.None?
    ensures uMin.Some? ==> CompleteBounds(uMin, uMax).0 == uMin
    ensures uMax.Some? ==> CompleteBounds(uMin, uMax).1 == uMax
    ensures uMin.None? && uMax.Some? ==> CompleteBounds(uMin, uMax).0 == Some(Neg(uMax.value))
    ensures uMin.Some? && uMax.None? ==> CompleteBounds(uMin, uMax).1 == Some(Neg(uMin.value))
  {
  }

  /** A completed one-sided bound is ordered (min <= max in every dimension) exactly when the supplied side has the right sign. */
  lemma CompletedBoundOrdered(uMin: Option<Vec>, uMax: Option<Vec>)
    requires uMin.None? != uMax.None?
    ensures var (lo, hi) := CompleteBounds(uMin, uMax);
            lo.Some? && hi.Some? && |lo.value| == |hi.value| &&
            ((forall j :: 0 <= j < |lo.value| ==> lo.value[j] <= hi.value[j]) <==>
             (if uMax.Some? then forall j :: 0 <= j < |uMax.value| ==> uMax.value[j] >= 0.0
              else forall j :: 0 <= j < |uMin.value| ==> uMin.value[j] <= 0.0))
  {
  }

  /** `torch.clamp` of one entry: `min(max(x, lo), hi)`. */
  function ClampEntry(x: real, lo: real, hi: real): real {
    var y := if x < lo then lo else x;
    if y > hi then hi else y
  }

  /** With lo <= hi the clamped entry lies in [lo, hi], and an entry already there is unchanged. */
  lemma ClampEntryWithin(x: real, lo: real, hi: real)
    requires lo <= hi
    ensures lo <= ClampEntry(x, lo, hi) <= hi
    ensures lo <= x <= hi ==> ClampEntry(x, lo, hi) == x
    ensures x > hi ==> ClampEntry(x, lo, hi) == hi
    ensures x < lo ==> ClampEntry(x, lo, hi) == lo
  {
  }

  /** Every entry of a K x T x nu batch has the control dimension nu. */
  predicate ActionBatch(pa: seq<Traj>, nu: nat) {
    forall i, t :: 0 <= i < |pa| && 0 <= t < |pa[i]| ==> |pa[i][t]| == nu
  }

  /** `perturbed_action.clamp(min=u_min, max=u_max)`, with no bounds clamping nothing. */
  function ClampActions(pa: seq<Traj>, uMin: Option<Vec>, uMax: Option<Vec>, nu: nat): (r: seq<Traj>)
    requires ActionBatch(pa, nu)
    requires uMin.Some? ==> |uMin.value| == nu
    requires uMax.Some? ==> |uMax.value| == nu
    requires uMin.Some? <==> uMax.Some?
    ensures |r| == |pa| && ActionBatch(r, nu)
    ensures forall i :: 0 <= i < |r| ==> |r[i]| == |pa[i]|
  {
    if uMin.None? then pa
    else
      seq(|pa|, i requires 0 <= i < |pa| =>
        seq(|pa[i]|, t requires 0 <= t < |pa[i]| =>
          seq(nu, j requires 0 <= j < nu => ClampEntry(pa[i][t][j], uMin.value[j], uMax.value[j]))))
  }

  /** Ordered bounds: min <= max in every dimension. */
  predicate Ordered(lo: Vec, hi: Vec) {
    |lo| == |hi| && forall j :: 0 <= j < |lo| ==> lo[j] <= hi[j]
  }

  /** Every entry of a batch lies within the bounds. */
  predicate WithinBounds(pa: seq<Traj>, lo: Vec, hi: Vec) {
    forall i, t, j :: 0 <= i < |pa| && 0 <= t < |pa[i]| && 0 <= j < |pa[i][t]| ==>
      j < |lo| && j < |hi| && lo[j] <= pa[i][t][j] <= hi[j]
  }

  /** With ordered bounds every clamped action lies within them; an action already within them is kept; without bounds nothing changes. */
  lemma ClampedActionsWithinBounds(pa: seq<Traj>, uMin: Option<Vec>, uMax: Option<Vec>, nu: nat)
    requires ActionBatch(pa, nu)
    requires uMin.Some? ==> |uMin.value| == nu
    requires uMax.Some? ==> |uMax.value| == nu
    requires uMin.Some? <==> uMax.Some?
    ensures uMin.Some? && Ordered(uMin.value, uMax.value) ==>
      WithinBounds(ClampActions(pa, uMin, uMax, nu), uMin.value, uMax.value)
    ensures uMin.Some? && WithinBounds(pa, uMin.value, uMax.value) ==>
      ClampActions(pa, uMin, uMax, nu) == pa
    ensures uMin.None? ==> ClampActions(pa, uMin, uMax, nu) == pa
  {
    if uMin.Some? {
      var (lo, hi) := (uMin.value, uMax.value);
      var r := ClampActions(pa, uMin, uMax, nu);
      if Ordered(lo, hi) {
        forall i, t, j | 0 <= i < |r| && 0 <= t < |r[i]| && 0 <= j < |r[i][t]|
          ensures lo[j] <= r[i][t][j] <= hi[j]
        {
          ClampEntryWithin(pa[i][t][j], lo[j], hi[j]);
        }
      }
      if WithinBounds(pa, lo, hi) {
        forall i | 0 <= i < |pa| ensures r[i] == pa[i] {
          forall t | 0 <= t < |pa[i]| ensures r[i][t] == pa[i][t] {
            assert forall j :: 0 <= j < nu ==> r[i][t][j] == pa[i][t][j];
          }
        }
      }
    }
  }

  /**
   * The clamp as the source writes it: `clamp(min=None, max=None)` raises in
   * PyTorch, so without bounds the call fails instead of clamping nothing.
   */
  function ClampActionsAsWritten(pa: seq<Traj>, uMin: Option<Vec>, uMax: Option<Vec>, nu: nat): (r: Result<seq<Traj>>)
    requires ActionBatch(pa, nu)
    requires uMin.Some? ==> |uMin.value| == nu
    requires uMax.Some? ==> |uMax.value| == nu
    requires uMin.Some? <==> uMax.Some?
  {
    if uMin.None? then Failure(ClampWithoutBounds) else Success(ClampActions(pa, uMin, uMax, nu))
  }

  /** As written, a controller built without bounds fails at the clamp; the corrected clamp passes the actions through. */
  lemma ClampWithoutBoundsFails(pa: seq<Traj>, nu: nat)
    requires ActionBatch(pa, nu)
    ensures ClampActionsAsWritten(pa, None, None, nu) == Failure(ClampWithoutBounds)
    ensures ClampActions(pa, None, None, nu) == pa
  {
  }
}
