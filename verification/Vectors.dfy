/** Real vectors and squared distances (`l2_sq` of `db/src/simd.rs`, without rounding). */
module Vectors {
  import opened Sorting

  function Square(x: real): (r: real)
    ensures r >= 0.0
  {
    x * x
  }

  /** The squared distance over the first `n` components. */
  function L2To(a: seq<real>, b: seq<real>, n: nat): (r: real)
    requires n <= |a| && n <= |b|
    ensures r >= 0.0
  {
    if n == 0 then 0.0 else L2To(a, b, n - 1) + Square(a[n - 1] - b[n - 1])
  }

  function L2(a: seq<real>, b: seq<real>): (r: real)
    requires |a| == |b|
    ensures r >= 0.0
  {
    L2To(a, b, |a|)
  }

  function DotTo(a: seq<real>, b: seq<real>, n: nat): real
    requires n <= |a| && n <= |b|
  {
    if n == 0 then 0.0 else DotTo(a, b, n - 1) + a[n - 1] * b[n - 1]
  }

  function Dot(a: seq<real>, b: seq<real>): real
    requires |a| == |b|
  {
    DotTo(a, b, |a|)
  }

  /** The three metrics; the Euclidean norm that the cosine divides by comes from outside. */
  datatype Metric = Euclidean | Cosine(norm: seq<real> -> real) | DotProduct

  /** `Metric::raw`: smaller is closer, except for the dot product. */
  function Raw(metric: Metric, a: seq<real>, b: seq<real>): real
    requires |a| == |b|
  {
    match metric
    case Euclidean => L2(a, b)
    case DotProduct => Dot(a, b)
    case Cosine(norm) =>
      var n := norm(a) * norm(b);
      1.0 - Dot(a, b) / if n > 0.000000000001 then n else 0.000000000001
  }

  predicate Rows(data: seq<seq<real>>, dim: nat) {
    forall j :: 0 <= j < |data| ==> |data[j]| == dim
  }

  /** The first of the first `n` centroids that is closest to a row. */
  function Nearest(row: seq<real>, cents: seq<seq<real>>, n: nat): (best: nat)
    requires 0 < n <= |cents| && Rows(cents, |row|)
    ensures best < n
    ensures forall i :: 0 <= i < n ==> L2(row, cents[best]) <= L2(row, cents[i])
    ensures forall i :: 0 <= i < best ==> L2(row, cents[best]) < L2(row, cents[i])
  {
    if n == 1 then 0
    else
      var best := Nearest(row, cents, n - 1);
      if L2(row, cents[n - 1]) < L2(row, cents[best]) then n - 1 else best
  }

  /** The scan that the source writes out wherever it assigns a row to a centroid. */
  method FindNearest(row: seq<real>, cents: seq<seq<real>>) returns (best: nat)
    requires cents != [] && Rows(cents, |row|)
    ensures best == Nearest(row, cents, |cents|)
  {
    best := 0;
    var bd := L2(row, cents[0]);
    for i := 1 to |cents|
      invariant best == Nearest(row, cents, i) && bd == L2(row, cents[best])
    {
      var d := L2(row, cents[i]);
      if d < bd {
        bd, best := d, i;
      }
    }
  }

  function Sum(s: seq<real>): real {
    if s == [] then 0.0 else Sum(s[..|s| - 1]) + s[|s| - 1]
  }

  lemma {:induction false} SumSet(s: seq<real>, k: nat, v: real)
    requires k < |s|
    ensures Sum(s[k := v]) == Sum(s) - s[k] + v
  {
    var n := |s| - 1;
    if k < n {
      SumSet(s[..n], k, v);
      assert s[k := v][..n] == s[..n][k := v];
    } else {
      assert s[k := v][..n] == s[..n];
    }
  }

  lemma {:induction false} SumNonneg(s: seq<real>)
    requires forall i :: 0 <= i < |s| ==> s[i] >= 0.0
    ensures Sum(s) >= 0.0
  {
    if s != [] {
      SumNonneg(s[..|s| - 1]);
    }
  }
}
