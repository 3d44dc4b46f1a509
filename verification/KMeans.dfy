/** `db/src/index/ivfpq.rs`: Lloyd's iteration as `kmeans_1d` runs it, including the reseeding of empty clusters. */
module KMeans {
  import opened Vectors

  // ----- Cost -----

  /** The sum of squared distances of the first `n` rows to their nearest centroids. */
  function CostTo(data: seq<seq<real>>, cents: seq<seq<real>>, dim: nat, n: nat): real
    requires n <= |data| && cents != [] && Rows(data, dim) && Rows(cents, dim)
  {
    if n == 0 then 0.0
    else CostTo(data, cents, dim, n - 1) + L2(data[n - 1], cents[Nearest(data[n - 1], cents, |cents|)])
  }

  function Cost(data: seq<seq<real>>, cents: seq<seq<real>>, dim: nat): real
    requires cents != [] && Rows(data, dim) && Rows(cents, dim)
  {
    CostTo(data, cents, dim, |data|)
  }

  // ----- Running counts and sums -----

  /** How many of the first `n` rows are assigned to centroid `k`. */
  function Count(data: seq<seq<real>>, cents: seq<seq<real>>, dim: nat, n: nat, k: nat): nat
    requires n <= |data| && cents != [] && Rows(data, dim) && Rows(cents, dim)
  {
    if n == 0 then 0
    else Count(data, cents, dim, n - 1, k) + if Nearest(data[n - 1], cents, |cents|) == k then 1 else 0
  }

  /** The sum of component `d` of those rows. */
  function Total(data: seq<seq<real>>, cents: seq<seq<real>>, dim: nat, n: nat, k: nat, d: nat): real
    requires n <= |data| && cents != [] && Rows(data, dim) && Rows(cents, dim) && d < dim
  {
    if n == 0 then 0.0
    else
      Total(data, cents, dim, n - 1, k, d) + if Nearest(data[n - 1], cents, |cents|) == k then data[n - 1][d] else 0.0
  }

  /** What one iteration may make of the centroids: the mean of every cluster, and any row for an empty one. */
  ghost predicate Stepped(data: seq<seq<real>>, cents: seq<seq<real>>, dim: nat, next: seq<seq<real>>)
    requires cents != [] && Rows(data, dim) && Rows(cents, dim)
  {
    && |next| == |cents| && Rows(next, dim)
    && forall k :: 0 <= k < |cents| ==> NewCentroid(data, cents, dim, k, next[k])
  }

  ghost predicate NewCentroid(data: seq<seq<real>>, cents: seq<seq<real>>, dim: nat, k: nat, c: seq<real>)
    requires cents != [] && Rows(data, dim) && Rows(cents, dim) && |c| == dim
  {
    var n := Count(data, cents, dim, |data|, k);
    if n == 0 then c in data
    else forall d :: 0 <= d < dim ==> c[d] * n as real == Total(data, cents, dim, |data|, k, d)
  }

  // ----- The gap between old and new centroids -----

  /** One component of what a cluster of `n` rows with component sum `s` gains by moving from `c` to `m`. */
  function Gain(n: real, s: real, c: real, m: real): real {
    n * (c * c - m * m) - 2.0 * s * (c - m)
  }

  /** Over the first `d` components. */
  function GapTo(n: real, s: seq<real>, c: seq<real>, m: seq<real>, d: nat): real
    requires d <= |s| && d <= |c| && d <= |m|
  {
    if d == 0 then 0.0 else GapTo(n, s, c, m, d - 1) + Gain(n, s[d - 1], c[d - 1], m[d - 1])
  }

  lemma GainOn(n: real, s: real, x: real, c: real, m: real)
    ensures Gain(n + 1.0, s + x, c, m) == Gain(n, s, c, m) + Square(x - c) - Square(x - m)
  {
  }

  /** One more row in the cluster adds the difference of its two distances. */
  lemma {:induction false} GapOn(n: real, s: seq<real>, x: seq<real>, s': seq<real>, c: seq<real>, m: seq<real>, d: nat)
    requires |s| == |x| == |s'| == |c| == |m| && d <= |s|
    requires forall i :: 0 <= i < |s| ==> s'[i] == s[i] + x[i]
    ensures GapTo(n + 1.0, s', c, m, d) == GapTo(n, s, c, m, d) + L2To(x, c, d) - L2To(x, m, d)
  {
    if d > 0 {
      GapOn(n, s, x, s', c, m, d - 1);
      GainOn(n, s[d - 1], x[d - 1], c[d - 1], m[d - 1]);
    }
  }

  lemma GainIsSquare(n: real, s: real, c: real, m: real)
    requires n >= 0.0 && m * n == s
    ensures Gain(n, s, c, m) >= 0.0
  {
    assert Gain(n, s, c, m) == n * Square(c - m);
  }

  /** Moving to the mean never loses. */
  lemma {:induction false} GapNonneg(n: real, s: seq<real>, c: seq<real>, m: seq<real>, d: nat)
    requires n >= 0.0 && d <= |s| && d <= |c| && d <= |m|
    requires forall i :: 0 <= i < d ==> m[i] * n == s[i]
    ensures GapTo(n, s, c, m, d) >= 0.0
  {
    if d > 0 {
      GapNonneg(n, s, c, m, d - 1);
      GainIsSquare(n, s[d - 1], c[d - 1], m[d - 1]);
    }
  }

  lemma {:induction false} GapEmpty(s: seq<real>, c: seq<real>, m: seq<real>, d: nat)
    requires d <= |s| && d <= |c| && d <= |m| && forall i :: 0 <= i < d ==> s[i] == 0.0
    ensures GapTo(0.0, s, c, m, d) == 0.0
  {
    if d > 0 {
      GapEmpty(s, c, m, d - 1);
    }
  }

  // ----- All clusters -----

  /** The cost of the first `n` rows if each stays with its old cluster and clusters move to `other`. */
  function StayTo(data: seq<seq<real>>, cents: seq<seq<real>>, other: seq<seq<real>>, dim: nat, n: nat): real
    requires n <= |data| && cents != [] && Rows(data, dim) && Rows(cents, dim) && Rows(other, dim) && |other| == |cents|
  {
    if n == 0 then 0.0
    else StayTo(data, cents, other, dim, n - 1) + L2(data[n - 1], other[Nearest(data[n - 1], cents, |cents|)])
  }

  function Totals(data: seq<seq<real>>, cents: seq<seq<real>>, dim: nat, n: nat, k: nat): (r: seq<real>)
    requires n <= |data| && cents != [] && Rows(data, dim) && Rows(cents, dim)
    ensures |r| == dim && forall d :: 0 <= d < dim ==> r[d] == Total(data, cents, dim, n, k, d)
  {
    seq(dim, d requires 0 <= d < dim => Total(data, cents, dim, n, k, d))
  }

  /** What cluster `k` has gained from the first `n` rows by moving from its old to its new centroid. */
  function Gap(data: seq<seq<real>>, cents: seq<seq<real>>, next: seq<seq<real>>, dim: nat, n: nat, k: nat): real
    requires n <= |data| && cents != [] && Rows(data, dim) && Rows(cents, dim) && Rows(next, dim)
    requires |next| == |cents| && k < |cents|
  {
    GapTo(Count(data, cents, dim, n, k) as real, Totals(data, cents, dim, n, k), cents[k], next[k], dim)
  }

  function Gaps(data: seq<seq<real>>, cents: seq<seq<real>>, next: seq<seq<real>>, dim: nat, n: nat): (r: seq<real>)
    requires n <= |data| && cents != [] && Rows(data, dim) && Rows(cents, dim) && Rows(next, dim) && |next| == |cents|
    ensures |r| == |cents| && forall k :: 0 <= k < |cents| ==> r[k] == Gap(data, cents, next, dim, n, k)
  {
    seq(|cents|, k requires 0 <= k < |cents| => Gap(data, cents, next, dim, n, k))
  }

  lemma GapOther(data: seq<seq<real>>, cents: seq<seq<real>>, next: seq<seq<real>>, dim: nat, n: nat, k: nat)
    requires n < |data| && cents != [] && Rows(data, dim) && Rows(cents, dim) && Rows(next, dim) && |next| == |cents|
    requires k < |cents| && k != Nearest(data[n], cents, |cents|)
    ensures Gap(data, cents, next, dim, n + 1, k) == Gap(data, cents, next, dim, n, k)
  {
    assert Totals(data, cents, dim, n + 1, k) == Totals(data, cents, dim, n, k);
  }

  lemma GapOwn(data: seq<seq<real>>, cents: seq<seq<real>>, next: seq<seq<real>>, dim: nat, n: nat, k: nat)
    requires n < |data| && cents != [] && Rows(data, dim) && Rows(cents, dim) && Rows(next, dim) && |next| == |cents|
    requires k == Nearest(data[n], cents, |cents|)
    ensures Gap(data, cents, next, dim, n + 1, k) ==
            Gap(data, cents, next, dim, n, k) + L2(data[n], cents[k]) - L2(data[n], next[k])
  {
    GapOn(Count(data, cents, dim, n, k) as real, Totals(data, cents, dim, n, k), data[n],
          Totals(data, cents, dim, n + 1, k), cents[k], next[k], dim);
  }

  lemma {:induction false} SumZeros(s: seq<real>)
    requires forall i :: 0 <= i < |s| ==> s[i] == 0.0
    ensures Sum(s) == 0.0
  {
    if s != [] {
      SumZeros(s[..|s| - 1]);
    }
  }

  lemma StayOn(data: seq<seq<real>>, cents: seq<seq<real>>, next: seq<seq<real>>, dim: nat, n: nat)
    requires n < |data| && cents != [] && Rows(data, dim) && Rows(cents, dim) && Rows(next, dim) && |next| == |cents|
    ensures var k := Nearest(data[n], cents, |cents|);
            Sum(Gaps(data, cents, next, dim, n + 1)) ==
            Sum(Gaps(data, cents, next, dim, n)) + L2(data[n], cents[k]) - L2(data[n], next[k])
  {
    var k := Nearest(data[n], cents, |cents|);
    var before, after := Gaps(data, cents, next, dim, n), Gaps(data, cents, next, dim, n + 1);
    GapOwn(data, cents, next, dim, n, k);
    forall i | 0 <= i < |cents| && i != k ensures after[i] == before[i] {
      GapOther(data, cents, next, dim, n, i);
    }
    assert after == before[k := after[k]];
    SumSet(before, k, after[k]);
  }

  lemma GapsEmpty(data: seq<seq<real>>, cents: seq<seq<real>>, next: seq<seq<real>>, dim: nat)
    requires cents != [] && Rows(data, dim) && Rows(cents, dim) && Rows(next, dim) && |next| == |cents|
    ensures Sum(Gaps(data, cents, next, dim, 0)) == 0.0
  {
    forall k | 0 <= k < |cents| ensures Gaps(data, cents, next, dim, 0)[k] == 0.0 {
      GapEmpty(Totals(data, cents, dim, 0, k), cents[k], next[k], dim);
    }
    SumZeros(Gaps(data, cents, next, dim, 0));
  }

  lemma StayMore(data: seq<seq<real>>, cents: seq<seq<real>>, other: seq<seq<real>>, dim: nat, n: nat)
    requires n < |data| && cents != [] && Rows(data, dim) && Rows(cents, dim) && Rows(other, dim)
    requires |other| == |cents|
    ensures StayTo(data, cents, other, dim, n + 1) ==
            StayTo(data, cents, other, dim, n) + L2(data[n], other[Nearest(data[n], cents, |cents|)])
  {
  }

  /** The first `n` rows save by staying with the moved centroids what the clusters gain. */
  ghost predicate SavesGaps(data: seq<seq<real>>, cents: seq<seq<real>>, next: seq<seq<real>>, dim: nat, n: nat)
    requires n <= |data| && cents != [] && Rows(data, dim) && Rows(cents, dim) && Rows(next, dim) && |next| == |cents|
  {
    StayTo(data, cents, cents, dim, n) - StayTo(data, cents, next, dim, n) == Sum(Gaps(data, cents, next, dim, n))
  }

  lemma StayGapMore(data: seq<seq<real>>, cents: seq<seq<real>>, next: seq<seq<real>>, dim: nat, n: nat)
    requires n < |data| && cents != [] && Rows(data, dim) && Rows(cents, dim) && Rows(next, dim) && |next| == |cents|
    requires SavesGaps(data, cents, next, dim, n)
    ensures SavesGaps(data, cents, next, dim, n + 1)
  {
    StayOn(data, cents, next, dim, n);
    StayMore(data, cents, cents, dim, n);
    StayMore(data, cents, next, dim, n);
  }

  /** Moving the centroids changes the cost of the old clusters by the sum of the gaps. */
  lemma {:induction false} StayGap(data: seq<seq<real>>, cents: seq<seq<real>>, next: seq<seq<real>>, dim: nat, n: nat)
    requires n <= |data| && cents != [] && Rows(data, dim) && Rows(cents, dim) && Rows(next, dim) && |next| == |cents|
    ensures SavesGaps(data, cents, next, dim, n)
  {
    if n == 0 {
      GapsEmpty(data, cents, next, dim);
    } else {
      StayGap(data, cents, next, dim, n - 1);
      StayGapMore(data, cents, next, dim, n - 1);
    }
  }

  lemma {:induction false} EmptyTotals(data: seq<seq<real>>, cents: seq<seq<real>>, dim: nat, n: nat, k: nat, d: nat)
    requires n <= |data| && cents != [] && Rows(data, dim) && Rows(cents, dim) && d < dim
    requires Count(data, cents, dim, n, k) == 0
    ensures Total(data, cents, dim, n, k, d) == 0.0
  {
    if n > 0 {
      EmptyTotals(data, cents, dim, n - 1, k, d);
    }
  }

  lemma FinalGapNonneg(data: seq<seq<real>>, cents: seq<seq<real>>, next: seq<seq<real>>, dim: nat, k: nat)
    requires cents != [] && Rows(data, dim) && Rows(cents, dim) && Stepped(data, cents, dim, next) && k < |cents|
    ensures Gap(data, cents, next, dim, |data|, k) >= 0.0
  {
    var n := Count(data, cents, dim, |data|, k);
    var s := Totals(data, cents, dim, |data|, k);
    assert NewCentroid(data, cents, dim, k, next[k]);
    if n == 0 {
      forall d | 0 <= d < dim ensures s[d] == 0.0 {
        EmptyTotals(data, cents, dim, |data|, k, d);
      }
      GapEmpty(s, cents[k], next[k], dim);
    } else {
      GapNonneg(n as real, s, cents[k], next[k], dim);
    }
  }

  lemma {:induction false} StayBounds(data: seq<seq<real>>, cents: seq<seq<real>>, next: seq<seq<real>>, dim: nat,
                                      n: nat)
    requires n <= |data| && cents != [] && Rows(data, dim) && Rows(cents, dim) && Rows(next, dim) && |next| == |cents|
    ensures CostTo(data, next, dim, n) <= StayTo(data, cents, next, dim, n)
    ensures CostTo(data, cents, dim, n) == StayTo(data, cents, cents, dim, n)
  {
    if n > 0 {
      StayBounds(data, cents, next, dim, n - 1);
    }
  }

  /** An iteration never increases the cost, however empty clusters are reseeded. */
  lemma StepImproves(data: seq<seq<real>>, cents: seq<seq<real>>, dim: nat, next: seq<seq<real>>)
    requires cents != [] && Rows(data, dim) && Rows(cents, dim) && Stepped(data, cents, dim, next)
    ensures Cost(data, next, dim) <= Cost(data, cents, dim)
  {
    StayGap(data, cents, next, dim, |data|);
    StayBounds(data, cents, next, dim, |data|);
    var gaps := Gaps(data, cents, next, dim, |data|);
    forall k | 0 <= k < |gaps| ensures gaps[k] >= 0.0 {
      FinalGapNonneg(data, cents, next, dim, k);
    }
    SumNonneg(gaps);
  }

  // ----- The iteration -----

  /** Counts and sums of the first `n` rows. */
  ghost predicate Tallied(data: seq<seq<real>>, cents: seq<seq<real>>, dim: nat, n: nat, counts: seq<nat>,
                          sums: seq<seq<real>>)
    requires n <= |data| && cents != [] && Rows(data, dim) && Rows(cents, dim)
  {
    && |counts| == |sums| == |cents| && Rows(sums, dim)
    && forall k :: 0 <= k < |cents| ==>
         && counts[k] == Count(data, cents, dim, n, k)
         && forall d :: 0 <= d < dim ==> sums[k][d] == Total(data, cents, dim, n, k, d)
  }

  method AddRow(sum: seq<real>, row: seq<real>) returns (r: seq<real>)
    requires |sum| == |row|
    ensures |r| == |sum| && forall d :: 0 <= d < |r| ==> r[d] == sum[d] + row[d]
  {
    r := sum;
    for d := 0 to |row|
      invariant |r| == |sum| && forall i :: 0 <= i < |r| ==> r[i] == if i < d then sum[i] + row[i] else sum[i]
    {
      r := r[d := r[d] + row[d]];
    }
  }

  /** The pass over the rows. */
  method Tally(data: seq<seq<real>>, cents: seq<seq<real>>, dim: nat) returns (counts: seq<nat>, sums: seq<seq<real>>)
    requires cents != [] && Rows(data, dim) && Rows(cents, dim)
    ensures Tallied(data, cents, dim, |data|, counts, sums)
  {
    var zeros: seq<real> := seq(dim, _ => 0.0);
    counts, sums := seq(|cents|, _ => 0), seq(|cents|, _ => zeros);
    for j := 0 to |data|
      invariant Tallied(data, cents, dim, j, counts, sums)
    {
      var best := FindNearest(data[j], cents);
      var sum := AddRow(sums[best], data[j]);
      TalliedOn(data, cents, dim, j, counts, sums, best, sum);
      counts, sums := counts[best := counts[best] + 1], sums[best := sum];
    }
  }

  lemma TalliedOn(data: seq<seq<real>>, cents: seq<seq<real>>, dim: nat, j: nat, counts: seq<nat>, sums: seq<seq<real>>,
                  best: nat, sum: seq<real>)
    requires j < |data| && cents != [] && Rows(data, dim) && Rows(cents, dim)
    requires Tallied(data, cents, dim, j, counts, sums) && best == Nearest(data[j], cents, |cents|)
    requires |sum| == dim && forall d :: 0 <= d < dim ==> sum[d] == sums[best][d] + data[j][d]
    ensures Tallied(data, cents, dim, j + 1, counts[best := counts[best] + 1], sums[best := sum])
  {
  }

  method Mean(sum: seq<real>, count: nat) returns (r: seq<real>)
    requires count > 0
    ensures |r| == |sum| && forall d :: 0 <= d < |r| ==> r[d] * count as real == sum[d]
  {
    r := sum;
    for d := 0 to |sum|
      invariant |r| == |sum| && forall i :: d <= i < |r| ==> r[i] == sum[i]
      invariant forall i :: 0 <= i < d ==> r[i] * count as real == sum[i]
    {
      r := r[d := sum[d] / count as real];
    }
  }

  /** One iteration, with the generator's draws for empty clusters. */
  method Iterate(data: seq<seq<real>>, cents: seq<seq<real>>, dim: nat, draws: nat -> nat)
    returns (next: seq<seq<real>>)
    requires data != [] && cents != [] && Rows(data, dim) && Rows(cents, dim)
    ensures Stepped(data, cents, dim, next)
    ensures Cost(data, next, dim) <= Cost(data, cents, dim)
  {
    var counts, sums := Tally(data, cents, dim);
    next := cents;
    for k := 0 to |cents|
      invariant |next| == |cents| && Rows(next, dim)
      invariant forall i :: 0 <= i < k ==> NewCentroid(data, cents, dim, i, next[i])
    {
      var c;
      if counts[k] == 0 {
        c := data[draws(k) % |data|];
      } else {
        c := Mean(sums[k], counts[k]);
      }
      next := next[k := c];
    }
    StepImproves(data, cents, dim, next);
  }

  /** `kmeans_1d` from its initial centroids on. */
  method Lloyd(data: seq<seq<real>>, seeds: seq<seq<real>>, dim: nat, iters: nat, draws: (nat, nat) -> nat)
    returns (cents: seq<seq<real>>)
    requires data != [] && seeds != [] && Rows(data, dim) && Rows(seeds, dim)
    ensures |cents| == |seeds| && Rows(cents, dim)
    ensures Cost(data, cents, dim) <= Cost(data, seeds, dim)
  {
    cents := seeds;
    for t := 0 to iters
      invariant |cents| == |seeds| && Rows(cents, dim)
      invariant Cost(data, cents, dim) <= Cost(data, seeds, dim)
    {
      cents := Iterate(data, cents, dim, (k: nat) => draws(t, k));
    }
  }
}
