/**
 * What an answer of the inverted-list index means in terms of the stored rows and the query (`search` of
 * `db/src/index/ivfpq.rs` and `Metric::raw` of `db/src/index/metric.rs`).
 */
module RowAnswers {
  import opened Candidates
  import opened Graphs
  import opened Linking
  import opened Sorting
  import opened Vectors

  /** Below this a product of norms does not count. */
  const NORM_FLOOR := 0.000000000001

  /** `r` is what the metric makes of two vectors. */
  ghost predicate Rates(metric: Metric, a: seq<real>, b: seq<real>, r: real)
    requires |a| == |b|
  {
    match metric
    case Euclidean => r == L2(a, b)
    case DotProduct => r == Dot(a, b)
    case Cosine(norm) =>
      var n := norm(a) * norm(b);
      if n > NORM_FLOOR then (1.0 - r) * n == Dot(a, b) else (1.0 - r) * NORM_FLOOR == Dot(a, b)
  }

  lemma OverTimes(x: real, d: real)
    requires d > 0.0
    ensures (1.0 - (1.0 - x / d)) * d == x
  {
  }

  lemma OnlyFactor(r: real, s: real, d: real)
    requires d > 0.0 && (1.0 - r) * d == (1.0 - s) * d
    ensures r == s
  {
    assert (s - r) * d == 0.0;
  }

  lemma RawRates(metric: Metric, a: seq<real>, b: seq<real>, r: real)
    requires |a| == |b|
    ensures Rates(metric, a, b, r) <==> r == Raw(metric, a, b)
  {
    if metric.Cosine? {
      var n := metric.norm(a) * metric.norm(b);
      var d := if n > NORM_FLOOR then n else NORM_FLOOR;
      OverTimes(Dot(a, b), d);
      if Rates(metric, a, b, r) {
        OnlyFactor(r, Raw(metric, a, b), d);
      }
    }
  }

  ghost function PoolOf(cut: seq<nat>): set<nat> {
    set i | i in cut
  }

  /**
   * Of the rows in the pool, as many as wanted or there are, each once and with its value under the metric, smallest
   * first; no row of the pool that is left out has a smaller value than one that is found.
   */
  ghost predicate BestRows(rows: seq<seq<real>>, metric: Metric, query: seq<real>, pool: set<nat>, topK: nat,
                           found: seq<Cand>)
    requires Rows(rows, |query|)
  {
    && |found| == (if topK < |pool| then topK else |pool|) && Distinct(LocalsOf(found))
    && (forall c :: c in found ==> c.local in pool && c.local < |rows| && Rates(metric, query, rows[c.local], c.dist))
    && (forall j, k :: 0 <= j < k < |found| ==> found[j].dist <= found[k].dist)
    && forall i: nat, c, r ::
         i in pool && i < |rows| && i !in LocalsOf(found) && c in found && Rates(metric, query, rows[i], r) ==>
         c.dist <= r
  }

  /** Of the rows in the pool the closest, in order, each with its squared distance. */
  ghost predicate ClosestRows(rows: seq<seq<real>>, query: seq<real>, pool: set<nat>, topK: nat, found: seq<Cand>)
    requires Rows(rows, |query|)
  {
    && |found| == (if topK < |pool| then topK else |pool|) && Distinct(LocalsOf(found))
    && (forall c :: c in found ==> c.local in pool && c.local < |rows| && c.dist == L2(query, rows[c.local]))
    && (forall j, k :: 0 <= j < k < |found| ==> found[j].dist <= found[k].dist)
    && forall i: nat, c :: i in pool && i < |rows| && i !in LocalsOf(found) && c in found ==>
         c.dist <= L2(query, rows[i])
  }

  lemma BestIsClosest(rows: seq<seq<real>>, query: seq<real>, pool: set<nat>, topK: nat, found: seq<Cand>)
    requires Rows(rows, |query|) && BestRows(rows, Euclidean, query, pool, topK, found)
    ensures ClosestRows(rows, query, pool, topK, found)
  {
    forall i: nat, c | i in pool && i < |rows| && i !in LocalsOf(found) && c in found
      ensures c.dist <= L2(query, rows[i])
    {
      assert Rates(Euclidean, query, rows[i], L2(query, rows[i]));
    }
  }

  lemma FoundOrLeft(rows: seq<seq<real>>, metric: Metric, query: seq<real>, pool: set<nat>, topK: nat,
                    found: seq<Cand>, i: nat, r: real)
    requires Rows(rows, |query|) && BestRows(rows, metric, query, pool, topK, found) && topK > 0
    requires i in pool && i < |rows| && Rates(metric, query, rows[i], r)
    ensures found != [] && found[0].dist <= r
  {
    assert pool != {};
    if i in LocalsOf(found) {
      var k :| 0 <= k < |found| && LocalsOf(found)[k] == i;
      assert found[k] in found;
      RawRates(metric, query, rows[i], r);
      RawRates(metric, query, rows[i], found[k].dist);
    } else {
      assert found[0] in found;
    }
  }

  // ----- Squared distances -----

  lemma {:induction false} ZeroDistance(a: seq<real>, b: seq<real>, n: nat)
    requires n <= |a| && n <= |b|
    ensures L2To(a, b, n) == 0.0 <==> forall i :: 0 <= i < n ==> a[i] == b[i]
  {
    if n > 0 {
      ZeroDistance(a, b, n - 1);
      ZeroSquare(a[n - 1] - b[n - 1]);
    }
  }

  lemma ZeroFactor(a: real, d: real)
    requires d > 0.0 && a * d == 0.0
    ensures a == 0.0
  {
  }

  lemma NegatedSquare(x: real)
    ensures (-x) * (-x) == x * x
  {
  }

  lemma ZeroSquare(x: real)
    ensures Square(x) == 0.0 <==> x == 0.0
  {
    assert Square(0.0) == 0.0;
    if Square(x) == 0.0 {
      if x > 0.0 {
        ZeroFactor(x, x);
      } else if x < 0.0 {
        NegatedSquare(x);
        ZeroFactor(-x, -x);
      }
    }
  }

  /** A query that equals a stored row finds a row equal to it, at distance 0, in front. */
  lemma StoredRowFirst(rows: seq<seq<real>>, query: seq<real>, pool: set<nat>, topK: nat, found: seq<Cand>, i: nat)
    requires Rows(rows, |query|) && ClosestRows(rows, query, pool, topK, found) && topK > 0
    requires i in pool && i < |rows| && rows[i] == query
    ensures found != [] && found[0].dist == 0.0 && found[0].local < |rows| && rows[found[0].local] == query
  {
    ZeroDistance(query, rows[i], |query|);
    assert pool != {} && found[0] in found;
    if i in LocalsOf(found) {
      var k :| 0 <= k < |found| && LocalsOf(found)[k] == i;
      assert found[k] in found && found[0].dist <= found[k].dist;
    }
    ZeroDistance(query, rows[found[0].local], |query|);
    assert rows[found[0].local] == query;
  }

  // ----- Cosines -----

  /** The dot product over the product of the norms, if that counts. */
  ghost predicate IsCosine(norm: seq<real> -> real, a: seq<real>, b: seq<real>, x: real)
    requires |a| == |b|
  {
    norm(a) * norm(b) > NORM_FLOOR && x * (norm(a) * norm(b)) == Dot(a, b)
  }

  lemma CosineRated(norm: seq<real> -> real, a: seq<real>, b: seq<real>, x: real)
    requires |a| == |b| && IsCosine(norm, a, b, x)
    ensures Rates(Cosine(norm), a, b, 1.0 - x)
    ensures forall r :: Rates(Cosine(norm), a, b, r) ==> r == 1.0 - x
  {
    var n := norm(a) * norm(b);
    assert (1.0 - (1.0 - x)) * n == x * n;
    forall r | Rates(Cosine(norm), a, b, r) ensures r == 1.0 - x {
      OnlyFactor(r, 1.0 - x, n);
    }
  }

  /** Under the cosine the rows come in falling order of it, and none that is left out has a larger one. */
  lemma CosineOrder(rows: seq<seq<real>>, norm: seq<real> -> real, query: seq<real>, pool: set<nat>, topK: nat,
                    found: seq<Cand>, k: nat, i: nat, x: real, y: real)
    requires Rows(rows, |query|) && BestRows(rows, Cosine(norm), query, pool, topK, found) && k < |found|
    requires i in pool && i < |rows| && i !in LocalsOf(found[..k])
    requires found[k].local < |rows| && IsCosine(norm, query, rows[found[k].local], x) &&
             IsCosine(norm, query, rows[i], y)
    ensures x >= y
  {
    CosineRated(norm, query, rows[found[k].local], x);
    CosineRated(norm, query, rows[i], y);
    assert found[k] in found;
    if i in LocalsOf(found) {
      var j :| 0 <= j < |found| && LocalsOf(found)[j] == i;
      assert found[j] in found;
      assert LocalsOf(found[..k]) == LocalsOf(found)[..k];
      assert j >= k;
    }
  }

  // ----- Dot products -----

  /**
   * Under the dot product larger is closer, but the reranking sorts upwards: the row in front has the largest
   * product of the pool if and only if they are all equal.
   */
  lemma DotInverted(rows: seq<seq<real>>, query: seq<real>, pool: set<nat>, topK: nat, found: seq<Cand>)
    requires Rows(rows, |query|) && BestRows(rows, DotProduct, query, pool, topK, found) && topK > 0
    requires pool != {} && forall i :: i in pool ==> i < |rows|
    ensures found != [] && found[0].local < |rows|
    ensures (forall i :: i in pool ==> Dot(query, rows[i]) <= Dot(query, rows[found[0].local])) <==>
            forall i, j :: i in pool && j in pool ==> Dot(query, rows[i]) == Dot(query, rows[j])
  {
    assert found[0] in found;
    var best := Dot(query, rows[found[0].local]);
    forall i | i in pool ensures best <= Dot(query, rows[i]) {
      FoundOrLeft(rows, DotProduct, query, pool, topK, found, i, Dot(query, rows[i]));
    }
    if forall i :: i in pool ==> Dot(query, rows[i]) <= best {
      forall i, j | i in pool && j in pool ensures Dot(query, rows[i]) == Dot(query, rows[j]) {
        assert Dot(query, rows[i]) == best && Dot(query, rows[j]) == best;
      }
    }
  }

  /** Two rows and a query on a line: the one with the smaller product is the answer. */
  lemma DotPicksFarther(found: seq<Cand>)
    requires BestRows([[1.0], [2.0]], DotProduct, [1.0], {0, 1}, 1, found)
    ensures found == [Cand(0, 1.0)]
  {
    var rows, query := [[1.0], [2.0]], [1.0];
    assert DotTo(query, rows[0], 1) == DotTo(query, rows[0], 0) + 1.0 * 1.0;
    assert DotTo(query, rows[1], 1) == DotTo(query, rows[1], 0) + 1.0 * 2.0;
    FoundOrLeft(rows, DotProduct, query, {0, 1}, 1, found, 0, 1.0);
    assert found[0] in found;
    assert |{0, 1}| == 2;
  }

  // ----- Uniqueness -----

  /** Ties aside there is one answer: any two list the same values. */
  lemma BestRowsUnique(rows: seq<seq<real>>, metric: Metric, query: seq<real>, pool: set<nat>, topK: nat,
                       a: seq<Cand>, b: seq<Cand>)
    requires Rows(rows, |query|) && forall i :: i in pool ==> i < |rows|
    requires BestRows(rows, metric, query, pool, topK, a) && BestRows(rows, metric, query, pool, topK, b)
    ensures |a| == |b| && forall k :: 0 <= k < |a| ==> a[k].dist == b[k].dist
  {
    forall k | 0 <= k < |a| ensures a[k].dist == b[k].dist {
      NotLarger(rows, metric, query, pool, topK, a, b, k);
      NotLarger(rows, metric, query, pool, topK, b, a, k);
    }
  }

  /** Of two answers, neither has a larger value at any place. */
  lemma NotLarger(rows: seq<seq<real>>, metric: Metric, query: seq<real>, pool: set<nat>, topK: nat, a: seq<Cand>,
                  b: seq<Cand>, k: nat)
    requires Rows(rows, |query|) && forall i :: i in pool ==> i < |rows|
    requires BestRows(rows, metric, query, pool, topK, a) && BestRows(rows, metric, query, pool, topK, b) && k < |a|
    ensures b[k].dist <= a[k].dist
  {
    if a[k].dist < b[k].dist {
      var front, low := LocalsOf(a[..k + 1]), LocalsOf(b[..k]);
      forall x | x in front ensures x in low {
        var h :| 0 <= h < |front| && front[h] == x;
        assert a[h] in a && a[h].dist <= a[k].dist;
        SmallerIsEarlier(rows, metric, query, pool, topK, b, k, a[h]);
      }
      assert front == LocalsOf(a)[..k + 1];
      DistinctFits(front, low);
    }
  }

  lemma SmallerIsEarlier(rows: seq<seq<real>>, metric: Metric, query: seq<real>, pool: set<nat>, topK: nat,
                         b: seq<Cand>, k: nat, c: Cand)
    requires Rows(rows, |query|) && BestRows(rows, metric, query, pool, topK, b) && k < |b|
    requires c.local in pool && c.local < |rows| && Rates(metric, query, rows[c.local], c.dist) && c.dist < b[k].dist
    ensures c.local in LocalsOf(b[..k])
  {
    assert b[k] in b;
    var j :| 0 <= j < |b| && LocalsOf(b)[j] == c.local;
    assert b[j] in b;
    RawRates(metric, query, rows[c.local], c.dist);
    RawRates(metric, query, rows[c.local], b[j].dist);
    assert j < k;
    assert LocalsOf(b[..k])[j] == c.local;
  }
}
