/**
 * Real vectors and the handful of reductions the planner performs on them:
 * sums, dot products, and weighted combinations of a batch of rows.
 */
module Tensors {

  /** A control, state or cost vector. */
  type Vec = seq<real>

  /** One vector per horizon step: a control sequence (T x nu). */
  type Traj = seq<Vec>

  /** One vector per sample or rollout: a batch (K x n). */
  type Batch = seq<Vec>

  /** Every row of `rows` has length `n`. */
  predicate Rows(rows: seq<Vec>, n: nat) {
    forall i :: 0 <= i < |rows| ==> |rows[i]| == n
  }

  function Zeros(n: nat): (r: Vec)
    ensures |r| == n
  {
    seq(n, _ => 0.0)
  }

  function Add(a: Vec, b: Vec): (r: Vec)
    requires |a| == |b|
    ensures |r| == |a|
  {
    seq(|a|, j requires 0 <= j < |a| => a[j] + b[j])
  }

  function Sub(a: Vec, b: Vec): (r: Vec)
    requires |a| == |b|
    ensures |r| == |a|
  {
    seq(|a|, j requires 0 <= j < |a| => a[j] - b[j])
  }

  function Scale(c: real, a: Vec): (r: Vec)
    ensures |r| == |a|
  {
    seq(|a|, j requires 0 <= j < |a| => c * a[j])
  }

  function Neg(a: Vec): Vec {
    seq(|a|, j requires 0 <= j < |a| => -a[j])
  }

  function AbsVec(a: Vec): Vec {
    seq(|a|, j requires 0 <= j < |a| => if a[j] < 0.0 then -a[j] else a[j])
  }

  function Sum(s: seq<real>): real {
    if s == [] then 0.0 else s[0] + Sum(s[1..])
  }

  /** The dot product; with `w` a weight vector, the weighted sum of `x`. */
  function Dot(w: seq<real>, x: seq<real>): real
    requires |w| == |x|
  {
    if w == [] then 0.0 else w[0] * x[0] + Dot(w[1..], x[1..])
  }

  /** Entry `j` of every row: the column `rows[:, j]`. */
  function Column(rows: seq<Vec>, j: nat): seq<real>
    requires forall i :: 0 <= i < |rows| ==> j < |rows[i]|
  {
    seq(|rows|, i requires 0 <= i < |rows| => rows[i][j])
  }

  /** The row vector times matrix product `v @ m`. */
  function VecMat(v: Vec, m: seq<Vec>, n: nat): Vec
    requires |m| == |v| && Rows(m, n)
  {
    seq(n, j requires 0 <= j < n => Dot(v, Column(m, j)))
  }

  /** `Σ_i w[i] * rows[i]`, the weighted combination of a batch of length-`n` rows. */
  function Combine(w: seq<real>, rows: Batch, n: nat): Vec
    requires |w| == |rows| && Rows(rows, n)
  {
    seq(n, j requires 0 <= j < n => Dot(w, Column(rows, j)))
  }

  /** The rows of a batch laid end to end: a tensor's `view(-1)`. */
  function Concat(rows: seq<Vec>): Vec {
    if rows == [] then [] else rows[0] + Concat(rows[1..])
  }

  /** `flat.view(q, width)`: `q` consecutive rows of `width` entries each. */
  function Chunk(flat: Vec, width: nat, q: nat): (rows: Batch)
    requires |flat| == q * width
    ensures |rows| == q && Rows(rows, width)
    decreases q
  {
    if q == 0 then []
    else
      assert q * width == (q - 1) * width + width;
      [flat[..width]] + Chunk(flat[width..], width, q - 1)
  }

  /** Reshaping into rows and flattening again gives back the flat vector. */
  lemma {:induction false} ChunkThenConcat(flat: Vec, width: nat, q: nat)
    requires |flat| == q * width
    ensures Concat(Chunk(flat, width, q)) == flat
    decreases q
  {
    if q > 0 {
      assert q * width == (q - 1) * width + width;
      ChunkThenConcat(flat[width..], width, q - 1);
      assert Chunk(flat, width, q)[1..] == Chunk(flat[width..], width, q - 1);
    }
  }

  /** Flattening a batch of equal-length rows and reshaping gives back the batch. */
  lemma {:induction false} ConcatThenChunk(rows: Batch, width: nat)
    requires Rows(rows, width)
    ensures |Concat(rows)| == |rows| * width
    ensures Chunk(Concat(rows), width, |rows|) == rows
  {
    if rows != [] {
      ConcatThenChunk(rows[1..], width);
      assert |rows| * width == (|rows| - 1) * width + width;
      assert Concat(rows)[..width] == rows[0];
      assert Concat(rows)[width..] == Concat(rows[1..]);
    }
  }

  /** A positive multiple of a positive number is at least that number. */
  lemma {:induction false} MultipleAtLeast(a: int, n: int)
    requires a >= 1 && n > 0
    ensures a * n >= n
  {
    assert a * n == (a - 1) * n + n;
    if a > 1 {
      MultipleAtLeast(a - 1, n);
    }
  }

  /** Exact division: `q * n` is divisible by `n` with quotient `q`. */
  lemma ExactDivision(q: nat, n: nat)
    requires n > 0
    ensures (q * n) % n == 0 && (q * n) / n == q
  {
    var d, m := (q * n) / n, (q * n) % n;
    assert q * n == d * n + m;
    assert (q - d) * n == m by {
      assert (q - d) * n == q * n - d * n;
    }
    if q > d {
      MultipleAtLeast(q - d, n);
    } else if q < d {
      MultipleAtLeast(d - q, n);
    }
  }

  /** Scaling every entry scales the sum. */
  lemma {:induction false} SumScale(c: real, s: seq<real>)
    ensures Sum(Scale(c, s)) == c * Sum(s)
  {
    if s != [] {
      assert forall i :: 0 <= i < |s| - 1 ==> Scale(c, s)[1..][i] == Scale(c, s[1..])[i];
      assert Scale(c, s)[1..] == Scale(c, s[1..]);
      SumScale(c, s[1..]);
    }
  }

  /** A sum of positive entries is positive and bounds each entry. */
  lemma {:induction false} SumOfPositives(s: seq<real>)
    requires forall i :: 0 <= i < |s| ==> s[i] > 0.0
    ensures s != [] ==> Sum(s) > 0.0
    ensures forall i :: 0 <= i < |s| ==> s[i] <= Sum(s)
  {
    if s != [] {
      SumOfPositives(s[1..]);
      assert forall i :: 1 <= i < |s| ==> s[i] == s[1..][i - 1];
    }
  }

  /** A sum of `n` entries equal to `c` is `n * c`. */
  lemma {:induction false} SumConstant(s: seq<real>, c: real)
    requires forall i :: 0 <= i < |s| ==> s[i] == c
    ensures Sum(s) == |s| as real * c
  {
    if s != [] {
      SumConstant(s[1..], c);
    }
  }

  /** Shifting every entry of `x` by `c` shifts the weighted sum by `c` times the total weight. */
  lemma {:induction false} DotShift(w: seq<real>, x: seq<real>, y: seq<real>, c: real)
    requires |w| == |x| == |y|
    requires forall i :: 0 <= i < |y| ==> y[i] == x[i] - c
    ensures Dot(w, y) == Dot(w, x) - c * Sum(w)
  {
    if w != [] {
      DotShift(w[1..], x[1..], y[1..], c);
    }
  }

  /** With non-negative weights, a weighted sum of values in [lo, hi] lies between lo and hi times the total weight. */
  lemma {:induction false} DotBetween(w: seq<real>, x: seq<real>, lo: real, hi: real)
    requires |w| == |x|
    requires forall i :: 0 <= i < |w| ==> w[i] >= 0.0
    requires forall i :: 0 <= i < |x| ==> lo <= x[i] <= hi
    ensures lo * Sum(w) <= Dot(w, x) <= hi * Sum(w)
  {
    if w != [] {
      DotBetween(w[1..], x[1..], lo, hi);
      assert w[0] * (x[0] - lo) >= 0.0;
      assert w[0] * (hi - x[0]) >= 0.0;
    }
  }

  /** Weighting by a constant `c` scales the plain sum. */
  lemma {:induction false} DotConstantWeights(w: seq<real>, x: seq<real>, c: real)
    requires |w| == |x|
    requires forall i :: 0 <= i < |w| ==> w[i] == c
    ensures Dot(w, x) == c * Sum(x)
  {
    if w != [] {
      DotConstantWeights(w[1..], x[1..], c);
    }
  }

  /** Zero weights, or zero values, give a zero dot product. */
  lemma {:induction false} DotZero(w: seq<real>, x: seq<real>)
    requires |w| == |x|
    requires forall i :: 0 <= i < |x| ==> x[i] == 0.0
    ensures Dot(w, x) == 0.0
    ensures Dot(x, w) == 0.0
  {
    if w != [] {
      DotZero(w[1..], x[1..]);
    }
  }

  /** A convex combination (non-negative weights summing to 1) of values in [lo, hi] stays in [lo, hi]. */
  lemma ConvexCombinationBetween(w: seq<real>, x: seq<real>, lo: real, hi: real)
    requires |w| == |x|
    requires forall i :: 0 <= i < |w| ==> w[i] >= 0.0
    requires Sum(w) == 1.0
    requires forall i :: 0 <= i < |x| ==> lo <= x[i] <= hi
    ensures lo <= Dot(w, x) <= hi
  {
    DotBetween(w, x, lo, hi);
  }
}
