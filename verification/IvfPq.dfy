/** `db/src/index/ivfpq.rs`: inverted lists over coarse centroids, scanned by asymmetric distance and reranked. */
module IvfPqs {
  import opened Candidates
  import opened Graphs
  import opened KMeans
  import opened Linking
  import opened Neighbours
  import opened ProductQuantizers
  import opened RowAnswers
  import opened Seeding
  import opened Sorting
  import opened Vectors

  function AllIds(n: nat): (r: seq<nat>)
    ensures |r| == n && forall i :: 0 <= i < n ==> r[i] == i
  {
    seq(n, (i: nat) => i)
  }

  lemma AllIdsMembers(n: nat)
    ensures Distinct(AllIds(n)) && forall i: nat :: i in AllIds(n) <==> i < n
  {
    forall i: nat | i < n ensures i in AllIds(n) {
      assert AllIds(n)[i] == i;
    }
  }

  // ----- Sampling -----

  lemma SwapPermutes(s: seq<nat>, i: nat, j: nat)
    requires i < |s| && j < |s|
    ensures multiset(s[i := s[j]][j := s[i]]) == multiset(s)
  {
  }

  /** The shuffle, with the generator's draws. */
  method Shuffle(len: nat, draws: nat -> nat) returns (idx: seq<nat>)
    ensures multiset(idx) == multiset(AllIds(len)) && |idx| == len
  {
    idx := AllIds(len);
    var i := len - 1;
    while i >= 1
      invariant i < len || len == 0
      invariant |idx| == len && multiset(idx) == multiset(AllIds(len))
    {
      var j := draws(i) % (i + 1);
      SwapPermutes(idx, i, j);
      idx := idx[i := idx[j]][j := idx[i]];
      i := i - 1;
    }
  }

  /** `sample_row_indices`: every index if there are few, else the sorted front of a shuffle. */
  method SampleRowIndices(len: nat, target: nat, draws: nat -> nat) returns (sample: seq<nat>)
    ensures |sample| == if len <= target then len else target
    ensures forall i :: i in sample ==> i < len
    ensures forall i, j :: 0 <= i < j < |sample| ==> sample[i] < sample[j]
  {
    AllIdsMembers(len);
    if len <= target {
      return AllIds(len);
    }
    var idx := Shuffle(len, draws);
    PermutationDistinct(AllIds(len), idx);
    var front := idx[..target];
    sample := SortFront(idx, front, target);
  }

  method SortFront(idx: seq<nat>, front: seq<nat>, target: nat) returns (sample: seq<nat>)
    requires Distinct(idx) && target <= |idx| && front == idx[..target]
    ensures |sample| == target && (forall i :: i in sample ==> i in idx)
    ensures forall i, j :: 0 <= i < j < |sample| ==> sample[i] < sample[j]
  {
    var key := (k: nat) => k as real;
    sample := SortBy(front, key);
    SortBySorts(front, key);
    PermutationDistinct(front, sample);
    SortedDistinctRises(sample, key);
  }

  lemma SortedDistinctRises(s: seq<nat>, key: nat -> real)
    requires SortedBy(s, key) && Distinct(s) && forall k: nat :: key(k) == k as real
    ensures forall i, j :: 0 <= i < j < |s| ==> s[i] < s[j]
  {
    forall i, j | 0 <= i < j < |s| ensures s[i] < s[j] {
      assert key(s[i]) <= key(s[j]) && s[i] != s[j];
    }
  }

  // ----- Building -----

  datatype Index = Index(dim: nat, rows: seq<seq<real>>, centroids: seq<seq<real>>, lists: seq<seq<nat>>,
                         codes: seq<seq<nat>>, pq: Quantizer)

  /** What training hands to the build. */
  predicate Trains(rows: seq<seq<real>>, dim: nat, centroids: seq<seq<real>>, pq: Quantizer) {
    Rows(rows, dim) && Rows(centroids, dim) && centroids != [] && Trained(pq, dim)
  }

  function Home(rows: seq<seq<real>>, dim: nat, centroids: seq<seq<real>>, i: nat): (c: nat)
    requires Rows(rows, dim) && Rows(centroids, dim) && centroids != [] && i < |rows|
    ensures c < |centroids|
  {
    Nearest(rows[i], centroids, |centroids|)
  }

  /** The list of centroid `c` among the first `n` rows: those it is nearest to, each once. */
  ghost predicate IsList(rows: seq<seq<real>>, dim: nat, centroids: seq<seq<real>>, n: nat, c: nat, list: seq<nat>)
    requires Rows(rows, dim) && Rows(centroids, dim) && centroids != [] && n <= |rows|
  {
    Distinct(list) && forall i: nat :: i in list <==> i < n && Home(rows, dim, centroids, i) == c
  }

  /** Every row is in exactly the list of its nearest centroid, once, with the code of its residual. */
  ghost predicate Built(ix: Index) {
    && Trains(ix.rows, ix.dim, ix.centroids, ix.pq)
    && |ix.lists| == |ix.centroids| && |ix.codes| == |ix.rows|
    && (forall c :: 0 <= c < |ix.lists| ==> IsList(ix.rows, ix.dim, ix.centroids, |ix.rows|, c, ix.lists[c]))
    && (forall i :: 0 <= i < |ix.rows| ==> Encodes(ix.pq, Residual(ix.rows, ix.dim, ix.centroids, i), ix.codes[i]))
  }

  function Residual(rows: seq<seq<real>>, dim: nat, centroids: seq<seq<real>>, i: nat): (r: seq<real>)
    requires Rows(rows, dim) && Rows(centroids, dim) && centroids != [] && i < |rows|
    ensures |r| == dim
  {
    Minus(rows[i], centroids[Home(rows, dim, centroids, i)])
  }

  method AssignLists(rows: seq<seq<real>>, dim: nat, centroids: seq<seq<real>>) returns (lists: seq<seq<nat>>)
    requires Rows(rows, dim) && Rows(centroids, dim) && centroids != []
    ensures |lists| == |centroids|
    ensures forall c :: 0 <= c < |lists| ==> IsList(rows, dim, centroids, |rows|, c, lists[c])
  {
    lists := seq(|centroids|, _ => []);
    for n := 0 to |rows|
      invariant |lists| == |centroids|
      invariant forall c :: 0 <= c < |lists| ==> IsList(rows, dim, centroids, n, c, lists[c])
    {
      var best := FindNearest(rows[n], centroids);
      ListOn(rows, dim, centroids, n, best, lists[best]);
      forall c | 0 <= c < |lists| && c != best ensures IsList(rows, dim, centroids, n + 1, c, lists[c]) {
        ListOn(rows, dim, centroids, n, c, lists[c]);
      }
      lists := lists[best := lists[best] + [n]];
    }
  }

  lemma ListOn(rows: seq<seq<real>>, dim: nat, centroids: seq<seq<real>>, n: nat, c: nat, list: seq<nat>)
    requires Rows(rows, dim) && Rows(centroids, dim) && centroids != [] && n < |rows|
    requires IsList(rows, dim, centroids, n, c, list)
    ensures IsList(rows, dim, centroids, n + 1, c, if Home(rows, dim, centroids, n) == c then list + [n] else list)
  {
    assert n !in list;
  }

  /** `train_and_build` once the coarse centroids and the codebooks have been trained. */
  method Build(rows: seq<seq<real>>, dim: nat, centroids: seq<seq<real>>, pq: Quantizer) returns (ix: Index)
    requires Trains(rows, dim, centroids, pq)
    ensures Built(ix) && ix.rows == rows && ix.dim == dim && ix.centroids == centroids && ix.pq == pq
  {
    var lists := AssignLists(rows, dim, centroids);
    var codes: seq<seq<nat>> := [];
    for i := 0 to |rows|
      invariant |codes| == i
      invariant forall k :: 0 <= k < i ==> Encodes(pq, Residual(rows, dim, centroids, k), codes[k])
    {
      var c := FindNearest(rows[i], centroids);
      var code := EncodeRow(pq, Minus(rows[i], centroids[c]));
      codes := codes + [code];
    }
    ix := Index(dim, rows, centroids, lists, codes, pq);
  }

  /** Every row is in exactly one list. */
  lemma OneList(ix: Index, i: nat)
    requires Built(ix) && i < |ix.rows|
    ensures exists c :: 0 <= c < |ix.lists| && i in ix.lists[c] &&
                        forall d :: 0 <= d < |ix.lists| && i in ix.lists[d] ==> d == c
  {
    var c := Home(ix.rows, ix.dim, ix.centroids, i);
    assert IsList(ix.rows, ix.dim, ix.centroids, |ix.rows|, c, ix.lists[c]);
    forall d | 0 <= d < |ix.lists| && i in ix.lists[d] ensures d == c {
      assert IsList(ix.rows, ix.dim, ix.centroids, |ix.rows|, d, ix.lists[d]);
    }
  }

  // ----- Searching -----

  /** What the metric says of a row and the query. */
  function Exact(ix: Index, metric: Metric, query: seq<real>): nat -> real {
    (i: nat) => if i < |ix.rows| && |ix.rows[i]| == |query| then Raw(metric, query, ix.rows[i]) else 0.0
  }

  /** Without reranking, scores of the other two metrics are negated at the end. */
  function Signed(metric: Metric, key: nat -> real): nat -> real {
    (i: nat) => if metric.Euclidean? then key(i) else -key(i)
  }

  /** What a row decodes to: its centroid plus its decoded residual. */
  function Rebuilt(ix: Index, i: nat): (r: seq<real>)
    requires Trains(ix.rows, ix.dim, ix.centroids, ix.pq) && i < |ix.rows| == |ix.codes| && IsCode(ix.pq, ix.codes[i])
    ensures |r| == ix.dim
  {
    Plus(ix.centroids[Home(ix.rows, ix.dim, ix.centroids, i)], Decode(ix.pq, ix.codes[i], ix.dim))
  }

  /** The distance of the query to what a row decodes to. */
  ghost predicate IsApprox(ix: Index, query: seq<real>, approx: nat -> real)
    requires Built(ix) && |query| == ix.dim
  {
    forall i: nat :: i < |ix.rows| ==> IsCode(ix.pq, ix.codes[i]) && approx(i) == L2(query, Rebuilt(ix, i))
  }

  function Pairs(ids: seq<nat>, key: nat -> real): (r: seq<Cand>)
    ensures |r| == |ids| && forall i :: 0 <= i < |ids| ==> r[i] == Cand(ids[i], key(ids[i]))
  {
    seq(|ids|, i requires 0 <= i < |ids| => Cand(ids[i], key(ids[i])))
  }

  function ByDist(c: Cand): real {
    c.dist
  }

  lemma PairsCons(x: nat, ids: seq<nat>, key: nat -> real)
    ensures Pairs([x] + ids, key) == [Cand(x, key(x))] + Pairs(ids, key)
  {
  }

  lemma {:induction false} InsertPairs(x: nat, ids: seq<nat>, key: nat -> real)
    ensures InsertBy(Cand(x, key(x)), Pairs(ids, key), ByDist) == Pairs(InsertBy(x, ids, key), key)
  {
    if ids == [] || key(x) <= key(ids[0]) {
      PairsCons(x, ids, key);
    } else {
      var rest := ids[1..];
      assert ids == [ids[0]] + rest;
      PairsCons(ids[0], rest, key);
      InsertPairs(x, rest, key);
      assert Pairs(ids, key)[1..] == Pairs(rest, key);
      PairsCons(ids[0], InsertBy(x, rest, key), key);
    }
  }

  /** Sorting rated rows by distance is sorting the rows by what they are rated. */
  lemma {:induction false} SortPairs(ids: seq<nat>, key: nat -> real)
    ensures SortBy(Pairs(ids, key), ByDist) == Pairs(SortBy(ids, key), key)
  {
    if ids == [] {
      assert Pairs(ids, key) == [];
    } else {
      SortPairs(ids[1..], key);
      assert Pairs(ids, key)[1..] == Pairs(ids[1..], key);
      InsertPairs(ids[0], SortBy(ids[1..], key), key);
    }
  }

  lemma TakePairs(ids: seq<nat>, key: nat -> real, k: nat)
    ensures Take(Pairs(ids, key), k) == Pairs(Take(ids, k), key)
  {
  }

  /** Sort and truncate, as the search does twice. */
  method Nearby(ghost ids: seq<nat>, key: nat -> real, scored: seq<Cand>, k: nat)
    returns (r: seq<Cand>, ghost kept: seq<nat>)
    requires scored == Pairs(ids, key) && Distinct(ids)
    ensures r == Pairs(kept, key) && Trimmed(key, ids, k, kept) && SortedBy(kept, key)
  {
    SortPairs(ids, key);
    SortTrims(key, ids, k);
    SortBySorts(ids, key);
    TakePairs(SortBy(ids, key), key, k);
    kept := Take(SortBy(ids, key), k);
    r := Take(SortBy(scored, ByDist), k);
  }

  /** The rows of some lists. */
  ghost predicate Probed(ix: Index, probes: seq<nat>, ids: seq<nat>)
    requires Built(ix)
  {
    Distinct(ids) &&
    forall i: nat :: i in ids <==> i < |ix.rows| && Home(ix.rows, ix.dim, ix.centroids, i) in probes
  }

  lemma ProbedOn(ix: Index, probes: seq<nat>, p: nat, ids: seq<nat>)
    requires Built(ix) && p < |probes| && Distinct(probes) && probes[p] < |ix.lists|
    requires Probed(ix, probes[..p], ids)
    ensures Probed(ix, probes[..p + 1], ids + ix.lists[probes[p]])
  {
    var list := ix.lists[probes[p]];
    assert probes[..p + 1] == probes[..p] + [probes[p]];
    assert IsList(ix.rows, ix.dim, ix.centroids, |ix.rows|, probes[p], list);
    assert probes[p] !in probes[..p];
    JoinDistinct(ids, list);
  }

  /** One row is rated by its centroid's distance and its code's table entries. */
  method RateRow(ix: Index, query: seq<real>, c: nat, base: real, table: seq<seq<real>>, i: nat,
                 ghost approx: nat -> real)
    returns (d: real)
    requires Built(ix) && |query| == ix.dim && IsApprox(ix, query, approx) && c < |ix.centroids|
    requires base == L2(query, ix.centroids[c]) && IsTable(ix.pq, Minus(query, ix.centroids[c]), table, |ix.pq.books|)
    requires i < |ix.rows| && Home(ix.rows, ix.dim, ix.centroids, i) == c
    ensures d == approx(i)
  {
    var adc := DistanceAdc(ix.pq, table, ix.codes[i], Minus(query, ix.centroids[c]));
    AdcExact(ix.pq, query, ix.centroids[c], ix.codes[i]);
    d := base + adc;
  }

  /** The scan of one list: every row is rated by its centroid's distance and its code's table entries. */
  method ScanList(ix: Index, query: seq<real>, c: nat, base: real, table: seq<seq<real>>, before: seq<Cand>,
                  ghost ids: seq<nat>, ghost approx: nat -> real)
    returns (scored: seq<Cand>)
    requires Built(ix) && |query| == ix.dim && IsApprox(ix, query, approx) && c < |ix.lists|
    requires base == L2(query, ix.centroids[c]) && IsTable(ix.pq, Minus(query, ix.centroids[c]), table, |ix.pq.books|)
    requires before == Pairs(ids, approx)
    ensures scored == Pairs(ids + ix.lists[c], approx)
  {
    var list := ix.lists[c];
    assert IsList(ix.rows, ix.dim, ix.centroids, |ix.rows|, c, list);
    scored := before;
    for k := 0 to |list|
      invariant scored == Pairs(ids + list[..k], approx)
    {
      assert list[k] in list;
      var d := RateRow(ix, query, c, base, table, list[k], approx);
      scored := scored + [Cand(list[k], d)];
      assert list[..k + 1] == list[..k] + [list[k]];
    }
    assert list[..|list|] == list;
  }

  /** The scan of the probed lists. */
  method Scan(ix: Index, query: seq<real>, probes: seq<nat>, ghost approx: nat -> real)
    returns (scored: seq<Cand>, ghost ids: seq<nat>)
    requires Built(ix) && |query| == ix.dim && IsApprox(ix, query, approx)
    requires Distinct(probes) && forall c :: c in probes ==> c < |ix.lists|
    ensures scored == Pairs(ids, approx) && Probed(ix, probes, ids)
  {
    scored, ids := [], [];
    for p := 0 to |probes|
      invariant scored == Pairs(ids, approx) && Probed(ix, probes[..p], ids)
    {
      var c := probes[p];
      assert c in probes;
      ProbedOn(ix, probes, p, ids);
      var table := AdcTableFor(ix.pq, Minus(query, ix.centroids[c]));
      scored := ScanList(ix, query, c, L2(query, ix.centroids[c]), table, scored, ids, approx);
      ids := ids + ix.lists[c];
    }
    assert probes[..|probes|] == probes;
  }

  function Approx(ix: Index, query: seq<real>): nat -> real {
    (i: nat) =>
      if Trains(ix.rows, ix.dim, ix.centroids, ix.pq) && i < |ix.rows| == |ix.codes| && IsCode(ix.pq, ix.codes[i]) &&
        |query| == ix.dim
      then L2(query, Rebuilt(ix, i)) else 0.0
  }

  lemma ApproxIs(ix: Index, query: seq<real>)
    requires Built(ix) && |query| == ix.dim
    ensures IsApprox(ix, query, Approx(ix, query))
  {
  }

  /** How many rated rows survive to the reranking. */
  function Cut(topK: nat): nat {
    if topK * 16 > 400 then topK * 16 else 400
  }

  /** The distance of the query to a coarse centroid. */
  function Coarse(ix: Index, query: seq<real>): nat -> real {
    (c: nat) => if c < |ix.centroids| && |ix.centroids[c]| == |query| then L2(query, ix.centroids[c]) else 0.0
  }

  /** The lists a search probes: those of the `nprobe` closest centroids. */
  ghost predicate ClosestLists(ix: Index, query: seq<real>, nprobe: nat, probes: seq<nat>)
    requires Rows(ix.centroids, |query|) && |ix.lists| == |ix.centroids|
  {
    && |probes| == (if nprobe < |ix.lists| then nprobe else |ix.lists|) && Distinct(probes)
    && (forall c :: c in probes ==> c < |ix.lists|)
    && forall c, d: nat :: c in probes && d < |ix.lists| && d !in probes ==>
         c < |ix.lists| && L2(query, ix.centroids[c]) <= L2(query, ix.centroids[d])
  }

  method Probes(ix: Index, query: seq<real>, nprobe: nat) returns (probes: seq<nat>)
    requires Built(ix) && |query| == ix.dim
    ensures ClosestLists(ix, query, nprobe, probes)
  {
    var coarse := Coarse(ix, query);
    AllIdsMembers(|ix.lists|);
    SortTrims(coarse, AllIds(|ix.lists|), nprobe);
    assert forall c: nat :: c < |ix.lists| ==> coarse(c) == L2(query, ix.centroids[c]);
    probes := Take(SortBy(AllIds(|ix.lists|), Coarse(ix, query)), nprobe);
  }

  /** What survives to the reranking: of the rows scanned, those that decode closest to the query. */
  ghost predicate CutByCode(ix: Index, query: seq<real>, ids: seq<nat>, topK: nat, cut: seq<nat>)
    requires Built(ix) && |query| == ix.dim
  {
    var cap := if topK * 16 > 400 then topK * 16 else 400;
    && |cut| == (if cap < |ids| then cap else |ids|) && Distinct(cut)
    && (forall k :: 0 <= k < |cut| ==> cut[k] in ids && cut[k] < |ix.rows| && IsCode(ix.pq, ix.codes[cut[k]]))
    && forall i, j :: i in cut && j in ids && j !in cut ==>
         i < |ix.rows| && j < |ix.rows| && IsCode(ix.pq, ix.codes[i]) && IsCode(ix.pq, ix.codes[j]) &&
         L2(query, Rebuilt(ix, i)) <= L2(query, Rebuilt(ix, j))
  }

  /** Without reranking: the front of the cut, in order of what the rows decode to; products and cosines negated. */
  ghost predicate ByCode(ix: Index, metric: Metric, query: seq<real>, cut: seq<nat>, topK: nat, found: seq<Cand>)
    requires Built(ix) && |query| == ix.dim
    requires forall k :: 0 <= k < |cut| ==> cut[k] < |ix.rows| && IsCode(ix.pq, ix.codes[cut[k]])
  {
    && |found| == (if topK < |cut| then topK else |cut|)
    && (forall j, k :: 0 <= j < k < |cut| ==> L2(query, Rebuilt(ix, cut[j])) <= L2(query, Rebuilt(ix, cut[k])))
    && forall k :: 0 <= k < |found| ==>
         && found[k].local == cut[k]
         && found[k].dist == if metric == Euclidean then L2(query, Rebuilt(ix, cut[k]))
                             else 0.0 - L2(query, Rebuilt(ix, cut[k]))
  }

  /** With reranking the metric decides among the cut. */
  ghost predicate Answered(ix: Index, metric: Metric, query: seq<real>, topK: nat, rerank: bool, ids: seq<nat>,
                           cut: seq<nat>, found: seq<Cand>)
    requires Built(ix) && |query| == ix.dim
  {
    && CutByCode(ix, query, ids, topK, cut)
    && if rerank then BestRows(ix.rows, metric, query, PoolOf(cut), topK, found)
       else ByCode(ix, metric, query, cut, topK, found)
  }

  lemma TrimmedIsCut(ix: Index, query: seq<real>, probes: seq<nat>, ids: seq<nat>, topK: nat, cut: seq<nat>)
    requires Built(ix) && |query| == ix.dim && Probed(ix, probes, ids)
    requires Trimmed(Approx(ix, query), ids, Cut(topK), cut)
    ensures CutByCode(ix, query, ids, topK, cut)
    ensures forall k :: 0 <= k < |cut| ==> cut[k] < |ix.rows| && IsCode(ix.pq, ix.codes[cut[k]])
  {
    ApproxIs(ix, query);
    forall k | 0 <= k < |cut| ensures cut[k] < |ix.rows| && IsCode(ix.pq, ix.codes[cut[k]]) {
      assert cut[k] in cut;
    }
  }

  lemma FirstIsBest(ix: Index, metric: Metric, query: seq<real>, cut: seq<nat>, topK: nat, kept: seq<nat>,
                    found: seq<Cand>)
    requires Rows(ix.rows, |query|) && Distinct(cut) && forall i :: i in cut ==> i < |ix.rows|
    requires FirstBy(Exact(ix, metric, query), cut, topK, kept) && found == Pairs(kept, Exact(ix, metric, query))
    ensures BestRows(ix.rows, metric, query, PoolOf(cut), topK, found)
  {
    var pool := PoolOf(cut);
    DistinctSize(cut, pool);
    assert LocalsOf(found) == kept;
    forall c | c in found
      ensures c.local in pool && c.local < |ix.rows| && Rates(metric, query, ix.rows[c.local], c.dist)
    {
      var k :| 0 <= k < |found| && found[k] == c;
      assert kept[k] in kept;
      RawRates(metric, query, ix.rows[c.local], c.dist);
    }
    forall i: nat, c, r |
      i in pool && i < |ix.rows| && i !in LocalsOf(found) && c in found && Rates(metric, query, ix.rows[i], r)
      ensures c.dist <= r
    {
      var k :| 0 <= k < |found| && found[k] == c;
      assert kept[k] in kept;
      RawRates(metric, query, ix.rows[i], r);
    }
  }

  lemma SignedIsByCode(ix: Index, metric: Metric, query: seq<real>, cut: seq<nat>, topK: nat, found: seq<Cand>)
    requires Built(ix) && |query| == ix.dim && SortedBy(cut, Approx(ix, query))
    requires forall k :: 0 <= k < |cut| ==> cut[k] < |ix.rows| && IsCode(ix.pq, ix.codes[cut[k]])
    requires found == Pairs(Take(cut, topK), Signed(metric, Approx(ix, query)))
    ensures ByCode(ix, metric, query, cut, topK, found)
  {
    ApproxIs(ix, query);
    forall j, k | 0 <= j < k < |cut| ensures L2(query, Rebuilt(ix, cut[j])) <= L2(query, Rebuilt(ix, cut[k])) {
      assert Approx(ix, query)(cut[j]) <= Approx(ix, query)(cut[k]);
    }
  }

  /** The `topK` smallest, in order. */
  ghost predicate FirstBy(key: nat -> real, list: seq<nat>, topK: nat, kept: seq<nat>) {
    Trimmed(key, list, topK, kept) && SortedBy(kept, key)
  }

  method Negated(metric: Metric, ghost kept: seq<nat>, key: nat -> real, scored: seq<Cand>) returns (found: seq<Cand>)
    requires scored == Pairs(kept, key)
    ensures found == Pairs(kept, Signed(metric, key))
  {
    found := [];
    for k := 0 to |scored|
      invariant |found| == k && forall i :: 0 <= i < k ==> found[i] == Cand(kept[i], Signed(metric, key)(kept[i]))
    {
      found := found + [if metric.Euclidean? then scored[k] else Cand(scored[k].local, -scored[k].dist)];
    }
  }

  /** The body of `search`. */
  method SearchIndex(ix: Index, metric: Metric, query: seq<real>, topK: nat, nprobe: nat, rerank: bool)
    returns (found: seq<Cand>, ghost probes: seq<nat>, ghost ids: seq<nat>, ghost cut: seq<nat>)
    requires Built(ix) && |query| == ix.dim
    ensures ClosestLists(ix, query, nprobe, probes)
    ensures Probed(ix, probes, ids) && Answered(ix, metric, query, topK, rerank, ids, cut, found)
  {
    var lists := Probes(ix, query, nprobe);
    probes := lists;
    ApproxIs(ix, query);
    var scored;
    scored, ids := Scan(ix, query, lists, Approx(ix, query));
    scored, cut := Nearby(ids, Approx(ix, query), scored, Cut(topK));
    TrimmedIsCut(ix, query, probes, ids, topK, cut);
    if rerank {
      var exact := Rerank(ix, metric, query, scored, cut);
      ghost var kept;
      found, kept := Nearby(cut, Exact(ix, metric, query), exact, topK);
      FirstIsBest(ix, metric, query, cut, topK, kept, found);
    } else {
      var signed := Negated(metric, cut, Approx(ix, query), scored);
      TakePairs(cut, Signed(metric, Approx(ix, query)), topK);
      found := Take(signed, topK);
      SignedIsByCode(ix, metric, query, cut, topK, found);
    }
  }

  method Rerank(ix: Index, metric: Metric, query: seq<real>, scored: seq<Cand>, ghost cut: seq<nat>)
    returns (exact: seq<Cand>)
    requires |scored| == |cut| && forall k :: 0 <= k < |cut| ==> scored[k].local == cut[k]
    ensures exact == Pairs(cut, Exact(ix, metric, query))
  {
    exact := [];
    for k := 0 to |scored|
      invariant |exact| == k && forall i :: 0 <= i < k ==> exact[i] == Cand(cut[i], Exact(ix, metric, query)(cut[i]))
    {
      exact := exact + [Cand(scored[k].local, Exact(ix, metric, query)(scored[k].local))];
    }
  }

  /** Distinct numbers below `n`, `n` of them, are all the numbers below `n`. */
  lemma AllOfThem(s: seq<nat>, n: nat)
    requires Distinct(s) && |s| == n && forall x :: x in s ==> x < n
    ensures forall x: nat :: x in s <==> x < n
  {
    var members := set x | x in s;
    DistinctSize(s, members);
    SubsetSize(members, Nodes(n));
    forall x: nat | x < n ensures x in s {
      assert x in members;
    }
  }

  /** Probing every list finds every row. */
  lemma FullProbe(ix: Index, probes: seq<nat>, ids: seq<nat>)
    requires Built(ix) && Distinct(probes) && |probes| == |ix.lists| && (forall c :: c in probes ==> c < |ix.lists|)
    requires Probed(ix, probes, ids)
    ensures |ids| == |ix.rows| && forall i: nat :: i in ids <==> i < |ix.rows|
  {
    AllOfThem(probes, |ix.lists|);
    forall i: nat ensures i in ids <==> i < |ix.rows| {
      if i < |ix.rows| {
        assert Home(ix.rows, ix.dim, ix.centroids, i) in probes;
      }
    }
    DistinctSize(ids, Nodes(|ix.rows|));
  }

  /** With every list probed and no row cut before the reranking, the answer is the best of all rows. */
  lemma FullProbeExact(ix: Index, metric: Metric, query: seq<real>, topK: nat, nprobe: nat, probes: seq<nat>,
                       ids: seq<nat>, cut: seq<nat>, found: seq<Cand>)
    requires Built(ix) && |query| == ix.dim && ClosestLists(ix, query, nprobe, probes) && nprobe >= |ix.lists|
    requires Probed(ix, probes, ids) && Answered(ix, metric, query, topK, true, ids, cut, found)
    requires |ix.rows| <= 400 || |ix.rows| <= topK * 16
    ensures BestRows(ix.rows, metric, query, Nodes(|ix.rows|), topK, found)
    ensures metric == Euclidean ==> ClosestRows(ix.rows, query, Nodes(|ix.rows|), topK, found)
  {
    FullProbe(ix, probes, ids);
    var pool := PoolOf(cut);
    DistinctSize(cut, pool);
    SubsetSize(pool, Nodes(|ix.rows|));
    if metric == Euclidean {
      BestIsClosest(ix.rows, query, Nodes(|ix.rows|), topK, found);
    }
  }

  /**
   * A reranked dot-product search puts the largest product among the rows that survive its cut first if and only if
   * these are all equal.
   */
  lemma DotSearchInverted(ix: Index, query: seq<real>, topK: nat, ids: seq<nat>, cut: seq<nat>, found: seq<Cand>)
    requires Built(ix) && |query| == ix.dim && topK > 0 && ids != []
    requires Answered(ix, DotProduct, query, topK, true, ids, cut, found)
    ensures cut != [] && found != [] && found[0].local < |ix.rows| && forall i :: i in cut ==> i < |ix.rows|
    ensures (forall i :: i in cut ==> Dot(query, ix.rows[i]) <= Dot(query, ix.rows[found[0].local])) <==>
            forall i, j :: i in cut && j in cut ==> Dot(query, ix.rows[i]) == Dot(query, ix.rows[j])
  {
    assert cut[0] in PoolOf(cut);
    DotInverted(ix.rows, query, PoolOf(cut), topK, found);
  }

  // ----- The index -----

  function RowsAt(rows: seq<seq<real>>, ids: seq<nat>): (r: seq<seq<real>>)
    requires forall k :: 0 <= k < |ids| ==> ids[k] < |rows|
    ensures |r| == |ids| && forall k :: 0 <= k < |ids| ==> r[k] == rows[ids[k]]
  {
    seq(|ids|, k requires 0 <= k < |ids| => rows[ids[k]])
  }

  /** `centroids_len_hint`: the whole part of the square root, between 4 and 256. */
  method ListHint(n: nat) returns (k: nat)
    ensures ListCount(n, k)
  {
    k := 4;
    while k < 256 && (k + 1) * (k + 1) <= n
      invariant 4 <= k <= 256 && (k > 4 ==> k * k <= n)
    {
      k := k + 1;
    }
  }

  /** What a codebook is trained on: one part of the residuals of the sampled rows. */
  function Parts(rows: seq<seq<real>>, dim: nat, centroids: seq<seq<real>>, keep: seq<nat>, subDim: nat,
                 s: nat): (r: seq<seq<real>>)
    requires Rows(rows, dim) && Rows(centroids, dim) && centroids != [] && s * subDim + subDim <= dim
    requires forall k :: 0 <= k < |keep| ==> keep[k] < |rows|
    ensures |r| == |keep| && Rows(r, subDim)
  {
    seq(|keep|, k requires 0 <= k < |keep| => Part(Residual(rows, dim, centroids, keep[k]), subDim, s))
  }

  method ResidualParts(rows: seq<seq<real>>, dim: nat, centroids: seq<seq<real>>, keep: seq<nat>, subDim: nat, s: nat)
    returns (parts: seq<seq<real>>)
    requires Rows(rows, dim) && Rows(centroids, dim) && centroids != [] && s * subDim + subDim <= dim
    requires forall k :: 0 <= k < |keep| ==> keep[k] < |rows|
    ensures parts == Parts(rows, dim, centroids, keep, subDim, s)
  {
    parts := [];
    for k := 0 to |keep|
      invariant |parts| == k
      invariant forall i :: 0 <= i < k ==> parts[i] == Parts(rows, dim, centroids, keep, subDim, s)[i]
    {
      var c := FindNearest(rows[keep[k]], centroids);
      parts := parts + [Part(Minus(rows[keep[k]], centroids[c]), subDim, s)];
    }
  }

  /** 256 centroids that serve the parts at least as well as rows picked from them; zero vectors if there are none. */
  ghost predicate TrainedBook(parts: seq<seq<real>>, subDim: nat, book: seq<seq<real>>)
    requires Rows(parts, subDim)
  {
    && |book| == 256
    && if parts == [] then forall c :: c in book ==> c == Zeros(subDim)
       else
         && Rows(book, subDim)
         && Serves(parts, subDim, book)
  }

  /** No worse for the rows than as many of them picked as centroids, the early ones of a weighted draw. */
  ghost predicate Serves(rows: seq<seq<real>>, dim: nat, cents: seq<seq<real>>)
    requires Rows(rows, dim) && Rows(cents, dim) && cents != []
  {
    exists seeds: seq<seq<real>> ::
      && |seeds| == |cents| && SomeRows(rows, dim, seeds) && EarlySeeds(rows, dim, seeds)
      && Cost(rows, cents, dim) <= Cost(rows, seeds, dim)
  }

  /** A rising sample of the indices below `len`: all of them, or as many as wanted. */
  ghost predicate Sampled(len: nat, target: nat, sample: seq<nat>) {
    && |sample| == (if len <= target then len else target)
    && (forall k :: 0 <= k < |sample| ==> sample[k] < len)
    && forall i, j :: 0 <= i < j < |sample| ==> sample[i] < sample[j]
  }

  /** As many lists as the whole part of the root of the number of rows, but at least 4 and at most 256. */
  ghost predicate ListCount(n: nat, k: nat) {
    4 <= k <= 256 && (k == 4 || k * k <= n) && (k == 256 || n < (k + 1) * (k + 1))
  }

  /** The codebook of one subspace. */
  ghost predicate BookFor(rows: seq<seq<real>>, dim: nat, centroids: seq<seq<real>>, keep: seq<nat>, subDim: nat,
                          s: nat, book: seq<seq<real>>)
    requires keep != [] ==> Rows(rows, dim) && Rows(centroids, dim) && centroids != []
    requires forall k :: 0 <= k < |keep| ==> keep[k] < |rows|
  {
    s * subDim + subDim <= dim && TrainedBook(PartsOf(rows, dim, centroids, keep, subDim, s), subDim, book)
  }

  method TrainBook(rows: seq<seq<real>>, dim: nat, centroids: seq<seq<real>>, keep: seq<nat>, subDim: nat, s: nat,
                   draws: Draws)
    returns (book: seq<seq<real>>)
    requires keep != [] ==> Rows(rows, dim) && Rows(centroids, dim) && centroids != []
    requires s * subDim + subDim <= dim && (forall k :: 0 <= k < |keep| ==> keep[k] < |rows|) && ValidDraws(draws, 256)
    ensures BookFor(rows, dim, centroids, keep, subDim, s, book)
  {
    var parts: seq<seq<real>> := [];
    if keep != [] {
      parts := ResidualParts(rows, dim, centroids, keep, subDim, s);
    }
    ghost var seeds;
    book, seeds := KMeans1d(parts, subDim, 256, 10, draws);
  }

  /** `train_residuals`: one codebook per subspace, trained on residuals of a sample. */
  method TrainBooks(rows: seq<seq<real>>, dim: nat, centroids: seq<seq<real>>, keep: seq<nat>, subVecs: nat,
                    subDim: nat, draws: nat -> Draws)
    returns (pq: Quantizer)
    requires keep != [] ==> Rows(rows, dim) && Rows(centroids, dim) && centroids != []
    requires subVecs * subDim <= dim && subDim > 0
    requires forall k :: 0 <= k < |keep| ==> keep[k] < |rows|
    requires forall s: nat :: s < subVecs ==> ValidDraws(draws(s), 256)
    ensures Trained(pq, dim) && |pq.books| == subVecs && pq.subDim == subDim
    ensures forall s: nat :: s < subVecs ==> BookFor(rows, dim, centroids, keep, subDim, s, pq.books[s])
  {
    var books: seq<seq<seq<real>>> := [];
    for s := 0 to subVecs
      invariant |books| == s
      invariant forall i: nat :: i < s ==> BookFor(rows, dim, centroids, keep, subDim, i, books[i])
    {
      Scaled(s, subVecs, subDim);
      var book := TrainBook(rows, dim, centroids, keep, subDim, s, draws(s));
      books := books + [book];
    }
    pq := Quantizer(subDim, books);
    forall s: nat | s < |books| ensures |books[s]| == 256 && Rows(books[s], subDim) {
      assert BookFor(rows, dim, centroids, keep, subDim, s, books[s]);
      BookRows(PartsOf(rows, dim, centroids, keep, subDim, s), subDim, books[s]);
    }
  }

  lemma BookRows(parts: seq<seq<real>>, subDim: nat, book: seq<seq<real>>)
    requires Rows(parts, subDim) && TrainedBook(parts, subDim, book) && subDim > 0
    ensures |book| == 256 && Rows(book, subDim)
  {
    forall j | 0 <= j < |book| ensures |book[j]| == subDim {
      assert book[j] in book;
    }
  }

  /** What is sampled of no rows is nothing. */
  function PartsOf(rows: seq<seq<real>>, dim: nat, centroids: seq<seq<real>>, keep: seq<nat>, subDim: nat, s: nat)
    : (r: seq<seq<real>>)
    requires keep != [] ==> Rows(rows, dim) && Rows(centroids, dim) && centroids != []
    requires s * subDim + subDim <= dim && forall k :: 0 <= k < |keep| ==> keep[k] < |rows|
    ensures |r| == |keep| && Rows(r, subDim)
  {
    if keep == [] then [] else Parts(rows, dim, centroids, keep, subDim, s)
  }

  /** What training leaves when there was nothing to train on: single zeros for centroids, whatever the dimension. */
  ghost predicate Hollow(ix: Index) {
    && ix.rows == [] && ix.codes == [] && Trained(ix.pq, ix.dim)
    && ix.centroids != [] && (forall c :: c in ix.centroids ==> c == Zeros(0))
    && |ix.lists| == |ix.centroids| && forall c :: 0 <= c < |ix.lists| ==> ix.lists[c] == []
  }

  /** What `zip` makes of a query and a centroid that may be shorter. */
  function ZipMinus(query: seq<real>, centroid: seq<real>): (r: seq<real>)
    ensures |r| == if |query| < |centroid| then |query| else |centroid|
  {
    var n := if |query| < |centroid| then |query| else |centroid|;
    seq(n, i requires 0 <= i < n => query[i] - centroid[i])
  }

  /** The slices that the table of a query takes of its difference to a centroid. */
  predicate SlicesFit(query: seq<real>, centroid: seq<real>, subVecs: nat)
    requires subVecs > 0
  {
    var subDim := |query| / subVecs;
    forall s: nat :: s < subVecs ==> s * subDim + subDim <= |ZipMinus(query, centroid)|
  }

  /** In a search of such an index all slices are in range if and only if the dimension is 1. */
  lemma EmptyBuildSlices(ix: Index, query: seq<real>, subVecs: nat, c: nat)
    requires Hollow(ix) && query != [] && c < |ix.centroids| && 0 < subVecs <= |query|
    ensures SlicesFit(query, ix.centroids[c], subVecs) <==> |query| == 1
  {
    var subDim := |query| / subVecs;
    assert ix.centroids[c] in ix.centroids;
    if |query| == 1 {
      assert subVecs == 1 && subDim == 1;
    } else if subVecs == 1 {
      assert 0 * subDim + subDim == |query|;
    } else {
      QuotientPositive(|query|, subVecs);
      assert 1 * subDim + subDim > 1;
    }
  }

  lemma QuotientPositive(n: nat, d: nat)
    requires 0 < d <= n
    ensures n / d >= 1
  {
  }

  lemma HollowBuilt(ix: Index)
    requires Hollow(ix) && ix.dim == 1
    ensures Built(ix)
  {
    forall j | 0 <= j < |ix.centroids| ensures |ix.centroids[j]| == 1 {
      assert ix.centroids[j] in ix.centroids;
    }
  }

  /** The coarse centroids; over no rows, single zeros. */
  method TrainCentroids(rows: seq<seq<real>>, dim: nat, shuffle: nat -> nat, draws: Draws)
    returns (centroids: seq<seq<real>>, ghost keep: seq<nat>)
    requires Rows(rows, dim) && dim > 0 && ValidDraws(draws, 256)
    ensures ListCount(|rows|, |centroids|) && Rows(centroids, if rows == [] then 1 else dim)
    ensures rows == [] ==> forall c :: c in centroids ==> c == Zeros(0)
    ensures Sampled(|rows|, 4096, keep) && (rows != [] ==> Serves(RowsAt(rows, keep), dim, centroids))
  {
    var k := ListHint(|rows|);
    var chosen := SampleRowIndices(|rows|, 4096, shuffle);
    assert forall j :: 0 <= j < |chosen| ==> chosen[j] in chosen;
    keep := chosen;
    var sample := RowsAt(rows, chosen);
    ghost var seeds;
    centroids, seeds := KMeans1d(sample, if rows == [] then 0 else dim, k, 24, draws);
    if rows == [] {
      assert sample == [];
      forall j | 0 <= j < |centroids| ensures |centroids[j]| == 1 {
        assert centroids[j] in centroids;
      }
    }
  }

  /**
   * What training promises: the right number of lists, whose centroids serve one sample, and a codebook for each
   * subspace that serves the residuals of another.
   */
  ghost predicate TrainedOn(ix: Index, subVecs: nat, subDim: nat, keep: seq<nat>, fewer: seq<nat>) {
    && ListCount(|ix.rows|, |ix.centroids|) && |ix.pq.books| == subVecs && ix.pq.subDim == subDim
    && Sampled(|ix.rows|, 4096, keep) && Sampled(|ix.rows|, 10000, fewer)
    && (ix.rows != [] ==>
          && Rows(ix.rows, ix.dim) && Rows(ix.centroids, ix.dim)
          && Serves(RowsAt(ix.rows, keep), ix.dim, ix.centroids)
          && forall s: nat :: s < subVecs ==>
               BookFor(ix.rows, ix.dim, ix.centroids, fewer, subDim, s, ix.pq.books[s]))
  }

  lemma TrainedIs(ix: Index, subVecs: nat, subDim: nat, keep: seq<nat>, fewer: seq<nat>)
    requires ListCount(|ix.rows|, |ix.centroids|) && |ix.pq.books| == subVecs && ix.pq.subDim == subDim
    requires Sampled(|ix.rows|, 4096, keep) && Sampled(|ix.rows|, 10000, fewer)
    requires ix.rows != [] ==>
               && Rows(ix.rows, ix.dim) && Rows(ix.centroids, ix.dim)
               && Serves(RowsAt(ix.rows, keep), ix.dim, ix.centroids)
    requires ix.rows != [] ==>
               forall s: nat :: s < subVecs ==>
                 BookFor(ix.rows, ix.dim, ix.centroids, fewer, subDim, s, ix.pq.books[s])
    ensures TrainedOn(ix, subVecs, subDim, keep, fewer)
  {
  }

  method TrainIndex(rows: seq<seq<real>>, dim: nat, subVecs: nat, shuffle: nat -> nat, coarse: Draws,
                    fine: nat -> Draws)
    returns (ix: Index, ghost keep: seq<nat>, ghost fewer: seq<nat>)
    requires dim > 0 && Rows(rows, dim) && 1 <= subVecs <= dim && subVecs * (dim / subVecs) <= dim
    requires ValidDraws(coarse, 256) && forall s: nat :: s < subVecs ==> ValidDraws(fine(s), 256)
    ensures ix.rows == rows && ix.dim == dim && if rows == [] then Hollow(ix) else Built(ix)
    ensures TrainedOn(ix, subVecs, dim / subVecs, keep, fewer)
  {
    var centroids;
    centroids, keep := TrainCentroids(rows, dim, shuffle, coarse);
    var sample := SampleRowIndices(|rows|, 10000, shuffle);
    assert forall j :: 0 <= j < |sample| ==> sample[j] in sample;
    fewer := sample;
    QuotientPositive(dim, subVecs);
    var pq := TrainBooks(rows, dim, centroids, sample, subVecs, dim / subVecs, fine);
    if rows == [] {
      ix := Index(dim, rows, centroids, seq(|centroids|, _ => []), [], pq);
    } else {
      ix := Build(rows, dim, centroids, pq);
    }
    TrainedIs(ix, subVecs, dim / subVecs, keep, fewer);
  }

  class IvfPq {
    const dim: nat
    const metric: Metric
    const nprobe: nat
    const subVecs: nat
    var index: Index

    ghost predicate Valid()
      reads this
    {
      && index.dim == dim && dim > 0 && nprobe > 0 && Rows(index.rows, dim)
      && 1 <= subVecs <= dim && subVecs * (dim / subVecs) <= dim
      && (index.centroids != [] && index.rows == [] ==> Hollow(index))
      && (index.centroids != [] && Searchable() ==> Built(index))
    }

    constructor (dim: nat, nprobe: nat, subVecs: nat, metric: Metric)
      requires dim > 0
      ensures Valid() && index.rows == [] && index.centroids == [] && this.metric == metric
      ensures this.nprobe == if nprobe > 1 then nprobe else 1
      ensures this.subVecs == if subVecs < 1 then 1 else if subVecs < dim then subVecs else dim
    {
      this.dim, this.metric, this.nprobe := dim, metric, if nprobe > 1 then nprobe else 1;
      var parts := SubVecs(dim, subVecs);
      this.subVecs := parts;
      index := Index(dim, [], [], [], [], Quantizer(dim / parts, []));
    }

    /**
     * `train_and_build`: the batch is added, the coarse centroids are trained on a sample, the codebooks on
     * residuals of another, and lists and codes are rebuilt over all rows, if there are any.
     */
    method TrainAndBuild(batch: seq<seq<real>>, shuffle: nat -> nat, coarse: Draws, fine: nat -> Draws)
      returns (ghost keep: seq<nat>, ghost fewer: seq<nat>)
      requires Valid() && Rows(batch, dim)
      requires ValidDraws(coarse, 256) && forall s: nat :: s < subVecs ==> ValidDraws(fine(s), 256)
      modifies this
      ensures Valid() && index.rows == old(index.rows) + batch
      ensures if index.rows == [] then Hollow(index) else Built(index)
      ensures TrainedOn(index, subVecs, dim / subVecs, keep, fewer)
    {
      var next;
      next, keep, fewer := TrainIndex(index.rows + batch, dim, subVecs, shuffle, coarse, fine);
      index := next;
      if index.rows == [] && dim == 1 {
        HollowBuilt(index);
      }
    }

    /** The slices of a query's table are in range; see `EmptyBuildSlices`. */
    predicate Searchable()
      reads this
    {
      index.centroids == [] || index.rows != [] || dim == 1
    }

    /** `search`; an index that has not been built finds nothing. */
    method Search(query: seq<real>, topK: nat, rerank: bool)
      returns (found: seq<Cand>, ghost probes: seq<nat>, ghost ids: seq<nat>, ghost cut: seq<nat>)
      requires Valid() && |query| == dim && Searchable()
      ensures index.centroids == [] || index.pq.books == [] ==> found == []
      ensures index.centroids != [] && index.pq.books != [] ==>
                && Built(index) && ClosestLists(index, query, nprobe, probes)
                && Probed(index, probes, ids) && Answered(index, metric, query, topK, rerank, ids, cut, found)
      ensures index.centroids != [] && index.pq.books != [] && rerank && nprobe >= |index.lists| &&
              (|index.rows| <= 400 || |index.rows| <= topK * 16) ==>
                && BestRows(index.rows, metric, query, Nodes(|index.rows|), topK, found)
                && (metric == Euclidean ==> ClosestRows(index.rows, query, Nodes(|index.rows|), topK, found))
    {
      found, probes, ids, cut := [], [], [], [];
      if index.centroids == [] || index.pq.books == [] {
        return;
      }
      found, probes, ids, cut := SearchIndex(index, metric, query, topK, nprobe, rerank);
      if rerank && nprobe >= |index.lists| && (|index.rows| <= 400 || |index.rows| <= topK * 16) {
        FullProbeExact(index, metric, query, topK, nprobe, probes, ids, cut, found);
      }
    }
  }
}
