/** `db/src/index/ivfpq.rs`: the weighted choice of initial centroids in `kmeans_1d`, and the whole of it. */
module Seeding {
  import opened KMeans
  import opened Sorting
  import opened Vectors

  /** Below this the rows count as covered, and the next centroid is any row. */
  const COVERED := 0.000000000000000001

  /** What the generator supplies: the first row, a share of the total weight per pick, and rows to fall back on. */
  datatype Draws = Draws(first: nat, shares: nat -> real, falls: nat -> nat, reseeds: (nat, nat) -> nat)

  /** A number drawn between 0 and 1 is divided by 2^31 before it becomes a share. */
  const SHARE_MAX := 1.0 / 2147483648.0

  predicate ValidDraws(draws: Draws, k: nat) {
    forall t: nat :: t < k ==> 0.0 <= draws.shares(t) <= SHARE_MAX
  }

  /** The weight of a row: the squared distance to the nearest chosen centroid, squared. */
  function Weight(row: seq<real>, cents: seq<seq<real>>): (w: real)
    requires cents != [] && Rows(cents, |row|)
    ensures w >= 0.0
  {
    Square(L2(row, cents[Nearest(row, cents, |cents|)]))
  }

  /** The total weight of the first `n` rows. */
  function WeightTo(data: seq<seq<real>>, cents: seq<seq<real>>, dim: nat, n: nat): (w: real)
    requires n <= |data| && cents != [] && Rows(data, dim) && Rows(cents, dim)
    ensures w >= 0.0
  {
    if n == 0 then 0.0 else WeightTo(data, cents, dim, n - 1) + Weight(data[n - 1], cents)
  }

  method WeighRow(row: seq<real>, cents: seq<seq<real>>) returns (w: real)
    requires cents != [] && Rows(cents, |row|)
    ensures w == Weight(row, cents)
  {
    var nearest := FindNearest(row, cents);
    w := Square(L2(row, cents[nearest]));
  }

  lemma {:induction false} SelfDistance(a: seq<real>, n: nat)
    requires n <= |a|
    ensures L2To(a, a, n) == 0.0
  {
    if n > 0 {
      SelfDistance(a, n - 1);
    }
  }

  /** A row that has been chosen weighs nothing. */
  lemma ChosenWeighsNothing(row: seq<real>, cents: seq<seq<real>>, i: nat)
    requires i < |cents| && Rows(cents, |row|) && cents[i] == row
    ensures Weight(row, cents) == 0.0
  {
    SelfDistance(row, |row|);
    assert L2(row, cents[Nearest(row, cents, |cents|)]) <= L2(row, cents[i]);
  }

  /** The first row at which the running weight reaches the target. */
  ghost predicate Reaches(data: seq<seq<real>>, cents: seq<seq<real>>, dim: nat, target: real, pick: nat)
    requires cents != [] && Rows(data, dim) && Rows(cents, dim) && pick < |data|
  {
    WeightTo(data, cents, dim, pick + 1) >= target &&
    forall j: nat :: 0 < j <= pick ==> WeightTo(data, cents, dim, j) < target
  }

  /** The weighted pick. */
  method PickReaching(data: seq<seq<real>>, cents: seq<seq<real>>, dim: nat, goal: real) returns (pick: nat)
    requires data != [] && cents != [] && Rows(data, dim) && Rows(cents, dim)
    requires goal <= WeightTo(data, cents, dim, |data|)
    ensures pick < |data| && Reaches(data, cents, dim, goal, pick)
  {
    var target := goal;
    pick := |data| - 1;
    for i := 0 to |data|
      invariant target == goal - WeightTo(data, cents, dim, i)
      invariant pick == |data| - 1
      invariant forall j: nat :: 0 < j <= i ==> WeightTo(data, cents, dim, j) < goal
    {
      var w := WeighRow(data[i], cents);
      target := target - w;
      if target <= 0.0 {
        pick := i;
        return;
      }
    }
  }

  /** The largest part of a total weight that a share can stand for. */
  function EarlyPart(total: real): real {
    SHARE_MAX * total
  }

  lemma ShareBound(share: real, total: real, goal: real)
    requires 0.0 <= share <= SHARE_MAX && total >= 0.0 && goal == share * total
    ensures goal <= EarlyPart(total) <= total
    ensures share > 0.0 && total > 0.0 ==> goal > 0.0
  {
    assert (SHARE_MAX - share) * total >= 0.0;
    assert (1.0 - SHARE_MAX) * total >= 0.0;
  }

  method TotalWeight(data: seq<seq<real>>, cents: seq<seq<real>>, dim: nat) returns (total: real)
    requires cents != [] && Rows(data, dim) && Rows(cents, dim)
    ensures total == WeightTo(data, cents, dim, |data|)
  {
    total := 0.0;
    for i := 0 to |data|
      invariant total == WeightTo(data, cents, dim, i)
    {
      var w := WeighRow(data[i], cents);
      total := total + w;
    }
  }

  /** A positive target, however small, is only reached at a row of positive weight: a new one. */
  lemma ReachedIsNew(data: seq<seq<real>>, cents: seq<seq<real>>, dim: nat, target: real, pick: nat)
    requires cents != [] && Rows(data, dim) && Rows(cents, dim) && pick < |data| && target > 0.0
    requires Reaches(data, cents, dim, target, pick)
    ensures data[pick] !in cents
  {
    assert WeightTo(data, cents, dim, pick) < target;
    assert Weight(data[pick], cents) > 0.0;
    forall i | 0 <= i < |cents| ensures cents[i] != data[pick] {
      if cents[i] == data[pick] {
        ChosenWeighsNothing(data[pick], cents, i);
        assert false;
      }
    }
  }

  /** Fewer than `k` rows never cover all of them. */
  ghost predicate Spread(data: seq<seq<real>>, dim: nat, k: nat)
    requires Rows(data, dim)
  {
    forall cents: seq<seq<real>> :: SomeRows(data, dim, cents) && |cents| < k ==>
      WeightTo(data, cents, dim, |data|) > COVERED
  }

  ghost predicate SomeRows(data: seq<seq<real>>, dim: nat, cents: seq<seq<real>>) {
    cents != [] && Rows(cents, dim) && forall c :: c in cents ==> c in data
  }

  /**
   * While the rows are not covered, no row is picked behind the first ones that together carry that small part of
   * the weight, however far out it lies.
   */
  ghost predicate EarlyPick(data: seq<seq<real>>, seeds: seq<seq<real>>, dim: nat, pick: nat)
    requires seeds != [] && Rows(data, dim) && Rows(seeds, dim)
  {
    var total := WeightTo(data, seeds, dim, |data|);
    total > COVERED ==>
      forall j: nat :: 0 < j <= |data| && WeightTo(data, seeds, dim, j) >= EarlyPart(total) ==> pick < j
  }

  lemma ReachedEarly(data: seq<seq<real>>, seeds: seq<seq<real>>, dim: nat, target: real, pick: nat)
    requires seeds != [] && Rows(data, dim) && Rows(seeds, dim) && pick < |data|
    requires Reaches(data, seeds, dim, target, pick)
    requires target <= EarlyPart(WeightTo(data, seeds, dim, |data|))
    ensures EarlyPick(data, seeds, dim, pick)
  {
  }

  /** Every seed but the first is a row picked like that, given the ones before it. */
  ghost predicate EarlySeeds(data: seq<seq<real>>, dim: nat, seeds: seq<seq<real>>)
    requires Rows(data, dim) && Rows(seeds, dim)
  {
    forall t :: 1 <= t < |seeds| ==> EarlySeed(data, dim, seeds[..t], seeds[t])
  }

  ghost predicate EarlySeed(data: seq<seq<real>>, dim: nat, before: seq<seq<real>>, seed: seq<real>)
    requires before != [] && Rows(data, dim) && Rows(before, dim)
  {
    exists pick: nat :: pick < |data| && data[pick] == seed && EarlyPick(data, before, dim, pick)
  }

  lemma EarlyMore(data: seq<seq<real>>, dim: nat, seeds: seq<seq<real>>, pick: nat)
    requires Rows(data, dim) && seeds != [] && Rows(seeds, dim) && EarlySeeds(data, dim, seeds)
    requires pick < |data| && EarlyPick(data, seeds, dim, pick)
    ensures Rows(seeds + [data[pick]], dim) && EarlySeeds(data, dim, seeds + [data[pick]])
  {
    var more := seeds + [data[pick]];
    forall t | 1 <= t < |more| ensures EarlySeed(data, dim, more[..t], more[t]) {
      if t < |seeds| {
        assert more[..t] == seeds[..t];
        assert EarlySeed(data, dim, seeds[..t], seeds[t]);
      } else {
        assert more[..t] == seeds;
      }
    }
  }

  /** One further seed: a drawn row if the rows are covered, else a weighted pick. */
  method NextSeed(data: seq<seq<real>>, dim: nat, seeds: seq<seq<real>>, share: real, fall: nat) returns (pick: nat)
    requires data != [] && Rows(data, dim) && SomeRows(data, dim, seeds) && 0.0 <= share <= SHARE_MAX
    ensures pick < |data| && EarlyPick(data, seeds, dim, pick)
    ensures WeightTo(data, seeds, dim, |data|) > COVERED && share > 0.0 ==> data[pick] !in seeds
  {
    var total := TotalWeight(data, seeds, dim);
    if total <= COVERED {
      return fall % |data|;
    }
    var goal := share * total;
    ShareBound(share, total, goal);
    pick := PickReaching(data, seeds, dim, goal);
    ReachedEarly(data, seeds, dim, goal, pick);
    if goal > 0.0 {
      ReachedIsNew(data, seeds, dim, goal, pick);
    }
  }

  /** Every share drawn is positive, so only new rows are picked while the rows are not covered. */
  predicate PositiveShares(draws: Draws, k: nat) {
    forall t: nat :: t < k ==> draws.shares(t) > 0.0
  }

  /**
   * The initial centroids are rows; while the rows are not covered, each further one is the row at which
   * the running weight first reaches the drawn share: an early one, and a new one unless the share is 0.
   */
  method Seeds(data: seq<seq<real>>, dim: nat, k: nat, draws: Draws) returns (seeds: seq<seq<real>>)
    requires data != [] && Rows(data, dim) && k > 0 && ValidDraws(draws, k)
    ensures |seeds| == k && SomeRows(data, dim, seeds) && EarlySeeds(data, dim, seeds)
    ensures Spread(data, dim, k) && PositiveShares(draws, k) ==> Distinct(seeds)
  {
    var start := draws.first % |data|;
    assert data[start] in data;
    seeds := [data[start]];
    while |seeds| < k
      invariant 1 <= |seeds| <= k && SomeRows(data, dim, seeds) && EarlySeeds(data, dim, seeds)
      invariant Spread(data, dim, k) && PositiveShares(draws, k) ==> Distinct(seeds)
    {
      var pick := NextSeed(data, dim, seeds, draws.shares(|seeds|), draws.falls(|seeds|));
      assert data[pick] in data;
      EarlyMore(data, dim, seeds, pick);
      seeds := seeds + [data[pick]];
    }
  }

  /** The zero vector that stands for a centroid when there is nothing to train on. */
  function Zeros(dim: nat): (z: seq<real>)
    ensures |z| == (if dim < 1 then 1 else dim) && forall x :: x in z ==> x == 0.0
  {
    seq(if dim < 1 then 1 else dim, _ => 0.0)
  }

  /** `kmeans_1d`: the seeds, then Lloyd's iteration from them; over no rows, zero vectors. */
  method KMeans1d(data: seq<seq<real>>, dim: nat, k: nat, iters: nat, draws: Draws)
    returns (cents: seq<seq<real>>, ghost seeds: seq<seq<real>>)
    requires Rows(data, dim) && k > 0 && ValidDraws(draws, k)
    ensures |cents| == k
    ensures data == [] ==> forall c :: c in cents ==> c == Zeros(dim)
    ensures data != [] ==>
              && Rows(cents, dim) && |seeds| == k && SomeRows(data, dim, seeds) && EarlySeeds(data, dim, seeds)
              && Cost(data, cents, dim) <= Cost(data, seeds, dim)
  {
    if data == [] {
      return seq(k, _ => Zeros(dim)), [];
    }
    var start := Seeds(data, dim, k, draws);
    seeds := start;
    cents := Lloyd(data, start, dim, iters, draws.reseeds);
  }
}
