/**
 * What the answers of the three graph searches mean, in terms of the stored items and their distance to the query:
 * `search` of `SketchHnsw` (`db/src/sketch_hnsw.rs`), of `Hnsw` (`db/src/index/hnsw.rs`) and `search_with_l` of
 * `Vamana` (`db/src/index/vamana.rs`).
 */
module Answers {
  import opened Beams
  import opened Candidates
  import opened Graphs
  import opened Layers
  import opened Linking
  import opened Sorting
  import opened VisitedSets

  /** What explains an answer: where the descent stopped, by what distance, who qualifies, and what was chosen. */
  datatype Answer = Answer(ep: nat, dist: nat -> real, may: nat -> bool, chosen: seq<Cand>)

  /** What a query is compared with: every stored item, by the given distance. */
  ghost predicate Compares<S(!new)>(dist: nat -> real, distance: (S, S) -> real, items: seq<S>, query: S) {
    forall v: nat :: v < |items| ==> dist(v) == distance(query, items[v])
  }

  /** Nearer to the query, or as near and stored earlier. */
  ghost predicate Nearer<S(!new)>(distance: (S, S) -> real, items: seq<S>, query: S, v: nat, w: nat) {
    && v < |items| && w < |items|
    && var d, e := distance(query, items[v]), distance(query, items[w]); d < e || (d == e && v < w)
  }

  /** Stored nodes that qualify, none twice, the nearest to the query first. */
  ghost predicate InOrder<S(!new)>(distance: (S, S) -> real, items: seq<S>, query: S, may: nat -> bool,
                                   nodes: seq<nat>) {
    && Distinct(nodes) && (forall v :: v in nodes ==> v < |items| && may(v))
    && forall j, k :: 0 <= j < k < |nodes| ==> Nearer(distance, items, query, nodes[j], nodes[k])
  }

  /** Of the nodes of the pool that qualify, one is left out only if there are `topK` nearer ones. */
  ghost predicate NoneNearer<S(!new)>(distance: (S, S) -> real, items: seq<S>, query: S, may: nat -> bool,
                                      pool: set<nat>, topK: nat, nodes: seq<nat>) {
    forall v: nat :: v in pool && v < |items| && may(v) && v !in nodes ==>
      |nodes| == topK && forall w :: w in nodes ==> Nearer(distance, items, query, w, v)
  }

  /** What insertions compare: the stored items, each with each. */
  ghost predicate Measures<S(!new)>(between: (nat, nat) -> real, distance: (S, S) -> real, items: seq<S>) {
    forall a: nat, b: nat :: a < |items| && b < |items| ==> between(a, b) == distance(items[a], items[b])
  }

  lemma AnswerInOrder<S(!new)>(distance: (S, S) -> real, items: seq<S>, query: S, dist: nat -> real, may: nat -> bool,
                               chosen: seq<Cand>)
    requires Compares(dist, distance, items, query) && Ordered(chosen)
    requires forall c :: c in chosen ==> c.local < |items| && may(c.local) && c.dist == dist(c.local)
    ensures InOrder(distance, items, query, may, LocalsOf(chosen))
    ensures forall k :: 0 <= k < |chosen| ==>
              chosen[k].local < |items| && chosen[k].dist == distance(query, items[chosen[k].local])
  {
    var nodes := LocalsOf(chosen);
    forall j, k | 0 <= j < k < |nodes|
      ensures nodes[j] != nodes[k] && Nearer(distance, items, query, nodes[j], nodes[k])
    {
      assert chosen[j] in chosen && chosen[k] in chosen && Before(chosen[j], chosen[k]);
    }
    forall v | v in nodes ensures v < |items| && may(v) {
      var k :| 0 <= k < |nodes| && nodes[k] == v;
      assert chosen[k] in chosen;
    }
    forall k | 0 <= k < |chosen|
      ensures chosen[k].local < |items| && chosen[k].dist == distance(query, items[chosen[k].local])
    {
      assert chosen[k] in chosen;
    }
  }

  lemma {:induction false} LocalsListed(chosen: seq<Cand>, v: nat)
    ensures v in LocalsOf(chosen) <==> v in Locals(chosen)
  {
    if chosen != [] {
      var rest := chosen[1..];
      LocalsListed(rest, v);
      assert chosen == [chosen[0]] + rest;
      assert LocalsOf(chosen) == [chosen[0].local] + LocalsOf(rest);
    }
  }

  lemma AnswerNearest<S(!new)>(distance: (S, S) -> real, items: seq<S>, query: S, dist: nat -> real, may: nat -> bool,
                               pool: set<nat>, topK: nat, chosen: seq<Cand>)
    requires Compares(dist, distance, items, query)
    requires NearestOf(dist, (set v | v in pool && may(v)), topK, chosen) && forall v :: v in pool ==> v < |items|
    ensures NoneNearer(distance, items, query, may, pool, topK, LocalsOf(chosen))
  {
    var nodes, all := LocalsOf(chosen), set v | v in pool && may(v);
    forall v: nat | v in pool && v < |items| && may(v) && v !in nodes
      ensures |nodes| == topK && forall w :: w in nodes ==> Nearer(distance, items, query, w, v)
    {
      LocalsListed(chosen, v);
      AllChosen(dist, all, topK, chosen, v);
      forall w | w in nodes ensures Nearer(distance, items, query, w, v) {
        var k :| 0 <= k < |nodes| && nodes[k] == w;
        assert chosen[k] in chosen;
        assert Before(chosen[k], Cand(v, dist(v)));
      }
    }
  }

  /** If one of the pool is left out, as many as wanted are chosen. */
  lemma AllChosen(dist: nat -> real, pool: set<nat>, k: nat, chosen: seq<Cand>, v: nat)
    requires NearestOf(dist, pool, k, chosen) && v in pool && v !in Locals(chosen)
    ensures |chosen| == k
  {
    if |chosen| == |pool| {
      LocalsCount(dist, pool, chosen);
      SubsetSize(Locals(chosen), pool);
    }
  }

  lemma LocalsCount(dist: nat -> real, pool: set<nat>, chosen: seq<Cand>)
    requires Ordered(chosen) && forall c :: c in chosen ==> c.local in pool && c.dist == dist(c.local)
    ensures |Locals(chosen)| == |chosen| && Locals(chosen) <= pool
  {
    var nodes := LocalsOf(chosen);
    forall i, j | 0 <= i < j < |nodes| ensures nodes[i] != nodes[j] {
      assert chosen[i] in chosen && chosen[j] in chosen && Before(chosen[i], chosen[j]);
    }
    forall v ensures v in nodes <==> v in Locals(chosen) {
      LocalsListed(chosen, v);
    }
    DistinctSize(nodes, Locals(chosen));
  }

  /**
   * The nodes chosen are rated by their distance to the query and come in order of it. If the width covers what is
   * reachable where the descent stops, no node of it that qualifies and was left out is nearer than a chosen one.
   */
  ghost predicate NearestAnswer<S(!new)>(distance: (S, S) -> real, items: seq<S>, query: S, links: seq<seq<seq<nat>>>,
                                   entry: nat, maxLevel: nat, ef: nat, topK: nat, a: Answer) {
    && |a.chosen| <= topK && InOrder(distance, items, query, a.may, LocalsOf(a.chosen))
    && (forall k :: 0 <= k < |a.chosen| ==>
          a.chosen[k].local < |items| && a.chosen[k].dist == distance(query, items[a.chosen[k].local]))
    && Compares(a.dist, distance, items, query)
    && SearchedFrom(links, a.dist, entry, maxLevel, ef, topK, a.may, a.ep, a.chosen)
    && var pool := ReachableSet(Layer(links, 0), {a.ep});
       0 < |pool| <= (if ef == 0 then 1 else ef) ==>
         NoneNearer(distance, items, query, a.may, pool, topK, LocalsOf(a.chosen))
  }

  /** A search that descends and settles, and keeps the first that qualify, answers like that. */
  lemma SearchedAnswer<S(!new)>(distance: (S, S) -> real, items: seq<S>, query: S, links: seq<seq<seq<nat>>>,
                                entry: nat, maxLevel: nat, ef: nat, topK: nat, caps: nat -> nat, a: Answer,
                                results: seq<Cand>)
    requires Compares(a.dist, distance, items, query) && |items| == |links| && Structured(links, caps)
    requires a.ep < |links| && Descends(links, a.dist, maxLevel, 1, entry, a.ep)
    requires Settled(Query(Layer(links, 0), a.dist, ef), {a.ep}, {}, results)
    requires (forall v: nat :: a.may(v) ==> v < |links|) && a.chosen == Take(Filter(results, a.may), topK)
    ensures NearestAnswer(distance, items, query, links, entry, maxLevel, ef, topK, a)
  {
    var q := Query(Layer(links, 0), a.dist, ef);
    SearchMade(links, a.dist, entry, maxLevel, ef, topK, a.may, a.ep, results);
    LayerInRange(links, caps, 0);
    FilterMembers(results, a.may);
    AnswerInOrder(distance, items, query, a.dist, a.may, a.chosen);
    var pool := ReachableSet(q.adj, {a.ep});
    if |pool| <= Cap(q) {
      ReachableInside(q.adj, {a.ep}, Nodes(|q.adj|));
      AnswerNearest(distance, items, query, a.dist, a.may, pool, topK, a.chosen);
    }
  }

  /** The part of `search` that the two layered graphs share. */
  method AnswerQuery<S(!new)>(distance: (S, S) -> real, items: seq<S>, query: S, links: seq<seq<seq<nat>>>, entry: nat,
                              maxLevel: nat, ef: nat, topK: nat, may: nat -> bool, visited: VisitedStamps,
                              ghost caps: nat -> nat)
    returns (kept: seq<Cand>, ghost a: Answer)
    requires Structured(links, caps) && EntryOk(links, entry, maxLevel) && |items| == |links|
    requires forall v: nat :: may(v) ==> v < |links|
    requires visited.Valid() && !Collides(visited.begins + 1)
    modifies visited
    ensures visited.Valid() && a.may == may && a.chosen == kept
    ensures NearestAnswer(distance, items, query, links, entry, maxLevel, ef, topK, a)
  {
    var dist := Distances(distance, items, query);
    var ep, results := SearchGraph(links, dist, entry, maxLevel, ef, visited, caps);
    kept := Take(Filter(results, may), topK);
    a := Answer(ep, dist, may, kept);
    SearchedAnswer(distance, items, query, links, entry, maxLevel, ef, topK, caps, a, results);
  }
}
