/** `db/src/index/vamana.rs`: the single-layer graph, its insertion, its refinement pass and its search. */
module Vamanas {
  import opened Answers
  import opened Beams
  import opened Candidates
  import opened Graphs
  import opened Layers
  import opened Linking
  import opened Neighbours
  import opened RobustPruning
  import opened Sorting
  import opened VisitedSets

  // ----- Structure -----

  /** Every list is distinct, in range, without its own node and within the degree bound. */
  predicate Bounded(links: seq<seq<nat>>, r: nat) {
    forall v :: 0 <= v < |links| ==> NodeOk(|links|, v, links[v]) && |links[v]| <= r
  }

  predicate NodeOk(n: nat, v: nat, list: seq<nat>) {
    Distinct(list) && v !in list && forall w :: w in list ==> w < n
  }

  /** An edge and its reverse stand or fall together. */
  predicate Mutual(links: seq<seq<nat>>, v: nat, w: nat)
    requires v < |links| && w < |links|
  {
    w in links[v] <==> v in links[w]
  }

  function Members(s: seq<nat>): set<nat> {
    set v | v in s
  }

  // ----- Beam search from several entries -----

  /** The distinct nodes among the entries and seeds, in order of distance. */
  ghost predicate Evaluated(q: Query, sources: set<nat>, evaluated: seq<Cand>) {
    && (forall c :: c in evaluated ==> c == At(q, c.local) && c.local in sources)
    && (forall v :: v in sources ==> At(q, v) in evaluated)
    && Distinct(evaluated)
  }

  /** `consider` for each node in turn. */
  method Consider(q: Query, nodes: seq<nat>, visited: VisitedStamps, before: seq<Cand>, ghost sources: set<nat>)
    returns (evaluated: seq<Cand>)
    requires visited.Searching(|q.adj|) && visited.seen == sources && Evaluated(q, sources, before)
    requires forall v :: v in nodes ==> v < |q.adj|
    modifies visited
    ensures visited.Searching(|q.adj|) && visited.begins == old(visited.begins)
    ensures visited.seen == sources + Members(nodes) && Evaluated(q, visited.seen, evaluated)
  {
    evaluated := before;
    for i := 0 to |nodes|
      invariant visited.Searching(|q.adj|) && visited.begins == old(visited.begins)
      invariant visited.seen == sources + Members(nodes[..i]) && Evaluated(q, visited.seen, evaluated)
    {
      assert nodes[..i + 1] == nodes[..i] + [nodes[i]];
      assert nodes[i] in nodes;
      var accepted := visited.TryVisit(nodes[i]);
      if accepted {
        evaluated := evaluated + [At(q, nodes[i])];
      }
    }
    assert nodes[..|nodes|] == nodes;
  }

  /** Pushes candidates one by one onto a heap. */
  method PushAll(heap: seq<Cand>, more: seq<Cand>) returns (r: seq<Cand>)
    requires Ordered(heap) && Distinct(more) && forall c :: c in more ==> c !in heap
    ensures Ordered(r) && forall c :: c in r <==> c in heap || c in more
  {
    r := heap;
    for i := 0 to |more|
      invariant Ordered(r) && forall c :: c in r <==> c in heap || c in more[..i]
    {
      assert more[..i + 1] == more[..i] + [more[i]];
      assert more[i] !in more[..i];
      r := Push(r, more[i]);
    }
    assert more[..|more|] == more;
  }

  lemma BestFirst(q: Query, sources: set<nat>, evaluated: seq<Cand>, sorted: seq<Cand>)
    requires Evaluated(q, sources, evaluated) && sources != {} && sorted == SortBy(evaluated, (c: Cand) => c.dist)
    ensures Evaluated(q, sources, sorted) && sorted != []
    ensures sorted[0].local in sources && forall v :: v in sources ==> sorted[0].dist <= q.dist(v)
  {
    var key := (c: Cand) => c.dist;
    SortBySorts(evaluated, key);
    PermutationDistinct(evaluated, sorted);
    var v :| v in sources;
    assert At(q, v) in sorted;
    forall v | v in sources ensures sorted[0].dist <= q.dist(v) {
      assert At(q, v) in sorted;
      var i :| 0 <= i < |sorted| && sorted[i] == At(q, v);
      assert i > 0 ==> key(sorted[0]) <= key(sorted[i]);
    }
  }

  lemma StartKept(q: Query, sources: set<nat>, frontier: seq<Cand>, best: Cand)
    requires InRange(q.adj) && (forall v :: v in sources ==> v < |q.adj|)
    requires Ordered(frontier) && (forall c :: c in frontier ==> c == At(q, c.local) && c.local in sources)
    requires (forall v :: v in sources ==> At(q, v) in frontier) && best in frontier
    ensures Kept(q, sources, sources - {best.local}, {}, Beam(frontier, [best], sources, {}))
  {
    forall v | v in sources ensures v in ReachableSet(q.adj, sources) {
      SourceReachable(q.adj, sources, v);
    }
  }

  /** Visits the entries and seeds and sorts them by distance. */
  method Gather(q: Query, eps: seq<nat>, seeds: seq<nat>, visited: VisitedStamps)
    returns (sorted: seq<Cand>, ghost sources: set<nat>)
    requires eps != [] && forall v :: v in eps || v in seeds ==> v < |q.adj|
    requires visited.Valid() && !Collides(visited.begins + 1)
    modifies visited
    ensures visited.Searching(|q.adj|) && visited.begins == old(visited.begins) + 1 && visited.seen == sources
    ensures sources == Members(eps) + Members(seeds) && Evaluated(q, sources, sorted)
    ensures sorted != [] && forall v :: v in sources ==> v < |q.adj| && sorted[0].dist <= q.dist(v)
  {
    visited.Begin(|q.adj|);
    var evaluated := Consider(q, eps, visited, [], {});
    evaluated := Consider(q, seeds, visited, evaluated, visited.seen);
    sources := visited.seen;
    assert eps[0] in sources;
    sorted := SortBy(evaluated, (c: Cand) => c.dist);
    BestFirst(q, sources, evaluated, sorted);
  }

  /** Settled searches from the closest of some entries, none of whose other entries is returned. */
  ghost function Searches(q: Query, entries: set<nat>): iset<seq<Cand>> {
    iset results: seq<Cand> | SettledFrom(q, entries, results)
  }

  ghost predicate SettledFrom(q: Query, entries: set<nat>, results: seq<Cand>) {
    exists best :: IsClosest(q, entries, best) && Settled(q, entries, entries - {best}, results)
  }

  ghost predicate IsClosest(q: Query, entries: set<nat>, best: nat) {
    best in entries && forall v :: v in entries ==> q.dist(best) <= q.dist(v)
  }

  /**
   * What a search returns whose width covers the reachable nodes but for the sources it cannot return: the nearest
   * of them, and of all reachable nodes if and only if each of these sources comes after all of a full answer.
   */
  ghost predicate WideAnswer(q: Query, sources: set<nat>, best: nat, topK: nat, chosen: seq<Cand>) {
    var all, others := ReachableSet(q.adj, sources), sources - {best};
    && NearestOf(q.dist, all - others, topK, chosen)
    && (NearestOf(q.dist, all, topK, chosen) <==>
        forall v :: v in others ==> |chosen| == topK && ComesAfter(q, chosen, v))
  }

  predicate ComesAfter(q: Query, chosen: seq<Cand>, v: nat) {
    forall c :: c in chosen ==> Before(c, Cand(v, q.dist(v)))
  }

  lemma WideSearch(q: Query, sources: set<nat>, results: seq<Cand>, topK: nat)
    requires results in Searches(q, sources) && forall v :: v in sources ==> v < |q.adj|
    ensures exists best :: IsClosest(q, sources, best) &&
              (|ReachableSet(q.adj, sources) - (sources - {best})| <= Cap(q) ==>
                 WideAnswer(q, sources, best, topK, Take(results, topK)))
  {
    var best :| IsClosest(q, sources, best) && Settled(q, sources, sources - {best}, results);
    if |ReachableSet(q.adj, sources) - (sources - {best})| <= Cap(q) {
      WideSettled(q, sources, best, results, topK);
    }
  }

  lemma WideSettled(q: Query, sources: set<nat>, best: nat, results: seq<Cand>, topK: nat)
    requires Settled(q, sources, sources - {best}, results) && forall v :: v in sources ==> v < |q.adj|
    requires |ReachableSet(q.adj, sources) - (sources - {best})| <= Cap(q)
    ensures WideAnswer(q, sources, best, topK, Take(results, topK))
  {
    var all, others := ReachableSet(q.adj, sources), sources - {best};
    var chosen := Take(results, topK);
    var pool := all - others;
    FilterNothing(results, (v: nat) => true);
    FilterTakesNearest(q, results, pool, (v: nat) => true, topK);
    assert (set v | v in pool && ((v: nat) => true)(v)) == pool;
    forall v | v in others ensures v in all {
      SourceReachable(q.adj, sources, v);
    }
    if others == {} {
      assert pool == all;
    } else {
      WideExactly(q, all, others, topK, chosen);
    }
  }

  lemma WideExactly(q: Query, all: set<nat>, others: set<nat>, topK: nat, chosen: seq<Cand>)
    requires NearestOf(q.dist, all - others, topK, chosen) && others <= all && others != {}
    requires forall c :: c in chosen ==> c.local < |q.adj|
    ensures NearestOf(q.dist, all, topK, chosen) <==>
            forall v :: v in others ==> |chosen| == topK && ComesAfter(q, chosen, v)
  {
    LocalsSize(q, chosen);
    assert Locals(chosen) <= all - others;
    var o :| o in others;
    SubsetSize(Locals(chosen), all - {o});
    SubsetSize(all - others, all);
  }

  lemma MultiSearched(q: Query, sources: set<nat>, first: nat, results: seq<Cand>)
    requires sources <= Nodes(|q.adj|) && IsClosest(q, sources, first)
    requires Settled(q, sources, sources - {first}, results)
    ensures results in Searches(q, sources)
  {
  }

  /**
   * `beam_search_multi`: only the closest of the entries and seeds can be returned among them, however close the
   * others are; all of them are explored.
   */
  method BeamSearchMulti(q: Query, eps: seq<nat>, seeds: seq<nat>, visited: VisitedStamps)
    returns (results: seq<Cand>)
    requires InRange(q.adj) && eps != [] && forall v :: v in eps || v in seeds ==> v < |q.adj|
    requires visited.Valid() && !Collides(visited.begins + 1)
    modifies visited
    ensures visited.Valid() && visited.begins == old(visited.begins) + 1
    ensures results in Searches(q, Members(eps) + Members(seeds))
    ensures Ordered(results) && Rated(q, results)
  {
    var sorted;
    ghost var sources;
    sorted, sources := Gather(q, eps, seeds, visited);
    var first := sorted[0];
    assert sorted == [first] + sorted[1..];
    var frontier := PushAll(Push([], first), sorted[1..]);
    StartKept(q, sources, frontier, first);
    results := Explore(q, visited, frontier, [first], sources, sources - {first.local});
    MultiSearched(q, sources, first.local, results);
  }

  function Ids(results: seq<Cand>): (r: seq<nat>)
    ensures |r| == |results| && forall i :: 0 <= i < |results| ==> r[i] == results[i].local
  {
    LocalsOf(results)
  }

  lemma IdsDistinct(q: Query, results: seq<Cand>)
    requires Ordered(results) && Rated(q, results)
    ensures Distinct(Ids(results)) && forall x :: x in Ids(results) ==> x < |q.adj|
  {
    forall i, j | 0 <= i < j < |results| ensures results[i].local != results[j].local {
      assert results[i] in results && results[j] in results && Before(results[i], results[j]);
    }
    forall x | x in Ids(results) ensures x < |q.adj| {
      var i :| 0 <= i < |results| && Ids(results)[i] == x;
      assert results[i] in results;
    }
  }

  // ----- Insertion -----

  /** What becomes of a list: kept, or pruned again if it overflows. */
  ghost predicate Fitted(rule: Rule, v: nat, list: seq<nat>, out: seq<nat>) {
    if |list| <= rule.r then out == list else Pruned(rule, v, list + [v], out)
  }

  lemma FittedOk(rule: Rule, n: nat, v: nat, list: seq<nat>, out: seq<nat>)
    requires Fitted(rule, v, list, out) && NodeOk(n, v, list)
    ensures NodeOk(n, v, out) && |out| <= rule.r && forall x :: x in out ==> x in list
  {
    WithoutNothing(list, v);
  }

  method Fit(rule: Rule, v: nat, list: seq<nat>) returns (out: seq<nat>)
    requires Distinct(list) && v !in list
    ensures Fitted(rule, v, list, out)
  {
    out := list;
    if |list| > rule.r {
      JoinDistinct(list, [v]);
      out := RobustPrune(rule, v, list + [v]);
    }
  }

  /** The new node lists its picks, each pick appends it, and nobody else's list changes. */
  predicate Attached(links0: seq<seq<nat>>, links: seq<seq<nat>>, id: nat, picks: seq<nat>) {
    && |links| == |links0| && id < |links0| && links[id] == picks
    && forall v :: 0 <= v < |links0| && v != id ==> links[v] == if v in picks then links0[v] + [id] else links0[v]
  }

  method Attach(links0: seq<seq<nat>>, id: nat, picks: seq<nat>) returns (links: seq<seq<nat>>)
    requires id < |links0| && links0[id] == [] && Distinct(picks) && id !in picks
    requires forall x :: x in picks ==> x < |links0|
    ensures Attached(links0, links, id, picks)
  {
    links := links0;
    var i := 0;
    while i < |picks|
      invariant i <= |picks| && Attached(links0, links, id, picks[..i])
    {
      var n := picks[i];
      assert picks[..i + 1] == picks[..i] + [n];
      assert n in picks && n !in picks[..i];
      links := links[id := links[id] + [n]];
      links := links[n := links[n] + [id]];
      i := i + 1;
    }
    assert picks[..i] == picks;
  }

  /** The lists of the first `i` picks have been fitted. */
  ghost predicate FittedUpTo(rule: Rule, links0: seq<seq<nat>>, links: seq<seq<nat>>, picks: seq<nat>, i: nat)
    requires i <= |picks|
  {
    && |links| == |links0|
    && forall v :: 0 <= v < |links0| ==>
         if v in picks[..i] then Fitted(rule, v, links0[v], links[v]) else links[v] == links0[v]
  }

  lemma FittedOn(rule: Rule, links0: seq<seq<nat>>, links: seq<seq<nat>>, picks: seq<nat>, i: nat, out: seq<nat>)
    requires i < |picks| && Distinct(picks) && picks[i] < |links0|
    requires FittedUpTo(rule, links0, links, picks, i) && Fitted(rule, picks[i], links[picks[i]], out)
    ensures FittedUpTo(rule, links0, links[picks[i] := out], picks, i + 1)
  {
    assert picks[..i + 1] == picks[..i] + [picks[i]];
    assert picks[i] !in picks[..i];
  }

  method FitAll(rule: Rule, links0: seq<seq<nat>>, picks: seq<nat>) returns (links: seq<seq<nat>>)
    requires Distinct(picks) && forall x :: x in picks ==> x < |links0| && NodeOk(|links0|, x, links0[x])
    ensures FittedUpTo(rule, links0, links, picks, |picks|)
  {
    links := links0;
    var i := 0;
    while i < |picks|
      invariant i <= |picks| && FittedUpTo(rule, links0, links, picks, i)
    {
      assert picks[i] in picks && picks[i] !in picks[..i];
      var out := Fit(rule, picks[i], links[picks[i]]);
      FittedOn(rule, links0, links, picks, i, out);
      links := links[picks[i] := out];
      i := i + 1;
    }
  }

  /** A whole insertion: picks pruned from a search, then lists attached and fitted. */
  ghost predicate Inserted(rule: Rule, links0: seq<seq<nat>>, links: seq<seq<nat>>, id: nat, cands: seq<nat>,
                           picks: seq<nat>) {
    && Pruned(rule, id, cands, picks)
    && exists attached :: Attached(links0, attached, id, picks) && FittedUpTo(rule, attached, links, picks, |picks|)
  }

  lemma AttachedOk(links0: seq<seq<nat>>, links: seq<seq<nat>>, id: nat, picks: seq<nat>, r: nat)
    requires id + 1 == |links0| && links0[id] == [] && Attached(links0, links, id, picks)
    requires Bounded(links0[..id], r) && NodeOk(|links0|, id, picks)
    ensures forall v :: 0 <= v < |links| ==>
              NodeOk(|links|, v, links[v]) && (v !in picks && v != id ==> |links[v]| <= r)
  {
    forall v | 0 <= v < |links| ensures NodeOk(|links|, v, links[v]) {
      if v != id {
        assert links0[..id][v] == links0[v];
        assert NodeOk(id, v, links0[v]);
        JoinDistinct(links0[v], [id]);
      }
    }
    forall v | 0 <= v < |links| && v !in picks && v != id ensures |links[v]| <= r {
      assert links0[..id][v] == links0[v];
    }
  }

  lemma InsertedBounded(rule: Rule, attached: seq<seq<nat>>, links: seq<seq<nat>>, id: nat, picks: seq<nat>)
    requires id < |attached| && attached[id] == picks && |picks| <= rule.r &&
             FittedUpTo(rule, attached, links, picks, |picks|)
    requires forall v :: 0 <= v < |attached| ==>
               NodeOk(|attached|, v, attached[v]) && (v !in picks && v != id ==> |attached[v]| <= rule.r)
    ensures Bounded(links, rule.r)
  {
    assert picks[..|picks|] == picks;
    forall v | 0 <= v < |links| ensures NodeOk(|links|, v, links[v]) && |links[v]| <= rule.r {
      if v in picks {
        FittedOk(rule, |links|, v, attached[v], links[v]);
      }
    }
  }

  method Link(rule: Rule, links0: seq<seq<nat>>, id: nat, cands: seq<nat>)
    returns (links: seq<seq<nat>>, ghost picks: seq<nat>)
    requires id + 1 == |links0| && links0[id] == [] && Bounded(links0[..id], rule.r)
    requires Distinct(cands) && forall x :: x in cands ==> x < |links0|
    ensures Inserted(rule, links0, links, id, cands, picks) && Bounded(links, rule.r) && |links| == |links0|
  {
    var chosen := RobustPrune(rule, id, cands);
    WithoutMembers(cands, id);
    picks := chosen;
    var attached := Attach(links0, id, chosen);
    AttachedOk(links0, attached, id, chosen, rule.r);
    links := FitAll(rule, attached, chosen);
    InsertedBounded(rule, attached, links, id, chosen);
  }

  // ----- Refinement -----

  /** Re-selecting node `i`: its new list, and the edges towards it that follow. */
  function Refined(links: seq<seq<nat>>, i: nat, pruned: seq<nat>): (r: seq<seq<nat>>)
    requires i < |links|
    ensures |r| == |links|
    ensures forall v :: 0 <= v < |links| ==> r[v] == RefinedList(links, i, pruned, v)
  {
    seq(|links|, v requires 0 <= v < |links| => RefinedList(links, i, pruned, v))
  }

  function RefinedList(links: seq<seq<nat>>, i: nat, pruned: seq<nat>, v: nat): seq<nat>
    requires i < |links| && v < |links|
  {
    if v == i then pruned
    else if v in pruned then (if i in links[v] then links[v] else links[v] + [i])
    else if v in links[i] then Without(links[v], i)
    else links[v]
  }

  /** Edges out of the first `k` nodes are mutual, whatever the others look like, and their lists are in order. */
  ghost predicate HalfMutual(links: seq<seq<nat>>, k: nat) {
    && InRange(links)
    && (forall v, w :: 0 <= v < k && v < |links| && w in links[v] ==> v in links[w])
    && (forall v :: 0 <= v < k && v < |links| ==> NodeOk(|links|, v, links[v]))
  }

  lemma RefinedInRange(links: seq<seq<nat>>, i: nat, pruned: seq<nat>)
    requires InRange(links) && i < |links| && forall w :: w in pruned ==> w < |links|
    ensures InRange(Refined(links, i, pruned))
  {
    forall v, w | 0 <= v < |links| && w in Refined(links, i, pruned)[v] ensures w < |links| {
      WithoutMembers(links[v], i);
    }
  }

  lemma RefinedMembers(links: seq<seq<nat>>, i: nat, pruned: seq<nat>, v: nat, w: nat)
    requires i < |links| && v < |links| && v != i
    ensures w in RefinedList(links, i, pruned, v) <==>
            if w == i then v in pruned || (i in links[v] && v !in links[i]) else w in links[v]
  {
    WithoutMembers(links[v], i);
  }

  /** One more node makes one more node's edges mutual, and spoils nobody's. */
  lemma RefinedMutual(links: seq<seq<nat>>, i: nat, pruned: seq<nat>)
    requires HalfMutual(links, i) && i < |links| && NodeOk(|links|, i, pruned)
    ensures HalfMutual(Refined(links, i, pruned), i + 1)
  {
    var next := Refined(links, i, pruned);
    RefinedInRange(links, i, pruned);
    forall v, w | 0 <= v <= i && w in next[v] ensures v in next[w] {
      RefinedEdge(links, i, pruned, v, w);
    }
    forall v | 0 <= v <= i ensures NodeOk(|next|, v, next[v]) {
      if v < i {
        RefinedNodeOk(links, i, pruned, v);
      }
    }
  }

  lemma RefinedEdge(links: seq<seq<nat>>, i: nat, pruned: seq<nat>, v: nat, w: nat)
    requires HalfMutual(links, i) && i < |links| && NodeOk(|links|, i, pruned)
    requires v <= i && w in Refined(links, i, pruned)[v]
    ensures w < |links| && v in Refined(links, i, pruned)[w]
  {
    if v == i {
      RefinedMembers(links, i, pruned, w, i);
    } else {
      RefinedMembers(links, i, pruned, v, w);
      if w != i {
        RefinedMembers(links, i, pruned, w, v);
      }
    }
  }

  lemma RefinedNodeOk(links: seq<seq<nat>>, i: nat, pruned: seq<nat>, v: nat)
    requires i < |links| && v < |links| && v != i && NodeOk(|links|, v, links[v])
    ensures NodeOk(|links|, v, RefinedList(links, i, pruned, v))
  {
    WithoutMembers(links[v], i);
    WithoutDistinct(links[v], i);
    if i !in links[v] {
      JoinDistinct(links[v], [i]);
    }
  }

  /** The two loops over old and new neighbours, in place. */
  method Rewire(links0: seq<seq<nat>>, i: nat, pruned: seq<nat>) returns (links: seq<seq<nat>>)
    requires InRange(links0) && i < |links0| && NodeOk(|links0|, i, pruned)
    ensures links == Refined(links0, i, pruned)
  {
    links := Drop(links0, i, pruned);
    links := Raise(links0, links, i, pruned);
    links := links[i := pruned];
    assert forall v :: 0 <= v < |links0| ==> links[v] == RefinedList(links0, i, pruned, v);
  }

  /** After the old neighbours have been visited. */
  ghost predicate Dropped(links0: seq<seq<nat>>, links: seq<seq<nat>>, i: nat, pruned: seq<nat>, gone: seq<nat>) {
    && |links| == |links0|
    && forall v :: 0 <= v < |links0| && v != i ==>
         links[v] == if v in gone && v !in pruned then Without(links0[v], i) else links0[v]
  }

  method Drop(links0: seq<seq<nat>>, i: nat, pruned: seq<nat>) returns (links: seq<seq<nat>>)
    requires InRange(links0) && i < |links0|
    ensures Dropped(links0, links, i, pruned, links0[i])
  {
    var gone := links0[i];
    links := links0[i := []];
    var k := 0;
    while k < |gone|
      invariant k <= |gone| && Dropped(links0, links, i, pruned, gone[..k])
    {
      assert gone[..k + 1] == gone[..k] + [gone[k]];
      assert gone[k] in links0[i];
      if gone[k] !in pruned {
        WithoutTwice(links0[gone[k]], i);
        links := links[gone[k] := Without(links[gone[k]], i)];
      }
      k := k + 1;
    }
    assert gone[..k] == gone;
  }

  lemma WithoutTwice(list: seq<nat>, node: nat)
    ensures Without(Without(list, node), node) == Without(list, node)
  {
    WithoutMembers(list, node);
    WithoutMembers(Without(list, node), node);
  }

  /** After the first `k` new neighbours have been visited. */
  ghost predicate Raised(links0: seq<seq<nat>>, links: seq<seq<nat>>, i: nat, pruned: seq<nat>, k: nat)
    requires i < |links0| && k <= |pruned|
  {
    && |links| == |links0|
    && forall v :: 0 <= v < |links0| && v != i ==>
         links[v] == if v in pruned && v !in pruned[..k] then links0[v] else RefinedList(links0, i, pruned, v)
  }

  method Raise(links0: seq<seq<nat>>, dropped: seq<seq<nat>>, i: nat, pruned: seq<nat>) returns (links: seq<seq<nat>>)
    requires i < |links0| && NodeOk(|links0|, i, pruned) && Dropped(links0, dropped, i, pruned, links0[i])
    ensures Raised(links0, links, i, pruned, |pruned|)
  {
    links := dropped;
    var k := 0;
    while k < |pruned|
      invariant k <= |pruned| && Raised(links0, links, i, pruned, k)
    {
      var kept := pruned[k];
      assert pruned[..k + 1] == pruned[..k] + [kept];
      assert kept in pruned && kept !in pruned[..k];
      if kept != i && i !in links[kept] {
        links := links[kept := links[kept] + [i]];
      }
      k := k + 1;
    }
    assert pruned[..k] == pruned;
  }

  /** What re-selecting node `i` can make of a graph: a search, the old neighbours, and a robust prune of both. */
  ghost function Reselections(rule: Rule, links: seq<seq<nat>>, i: nat, entries: set<nat>, l: nat): iset<seq<seq<nat>>>
    requires i < |links|
  {
    iset next: seq<seq<nat>> | Reselected(rule, links, i, entries, l, next)
  }

  ghost predicate Reselected(rule: Rule, links: seq<seq<nat>>, i: nat, entries: set<nat>, l: nat, next: seq<seq<nat>>)
    requires i < |links|
  {
    exists results, cands, pruned :: ReselectedBy(rule, links, i, entries, l, next, results, cands, pruned)
  }

  ghost predicate ReselectedBy(rule: Rule, links: seq<seq<nat>>, i: nat, entries: set<nat>, l: nat, next: seq<seq<nat>>,
                               results: seq<Cand>, cands: seq<nat>, pruned: seq<nat>)
    requires i < |links|
  {
    && results in Searches(Query(links, Key(rule.rate, i), l), entries)
    && Merged(Ids(results), links[i], cands)
    && Pruned(rule, i, cands, pruned) && next == Refined(links, i, pruned)
  }

  /** The found candidates first, then old neighbours that were not among them. */
  ghost predicate Merged(found: seq<nat>, list: seq<nat>, cands: seq<nat>) {
    Distinct(cands) && found <= cands && forall x :: x in cands <==> x in found || x in list
  }

  method MergeOld(found: seq<nat>, list: seq<nat>) returns (merged: seq<nat>)
    requires Distinct(found)
    ensures Merged(found, list, merged)
  {
    merged := found;
    for i := 0 to |list|
      invariant Distinct(merged) && found <= merged && forall x :: x in merged <==> x in found || x in list[..i]
    {
      assert list[..i + 1] == list[..i] + [list[i]];
      if list[i] !in merged {
        merged := merged + [list[i]];
      }
    }
    assert list[..|list|] == list;
  }

  lemma PrunedOk(rule: Rule, n: nat, i: nat, cands: seq<nat>, pruned: seq<nat>)
    requires Pruned(rule, i, cands, pruned) && forall x :: x in cands ==> x < n
    ensures NodeOk(n, i, pruned)
  {
    WithoutMembers(cands, i);
  }

  method RefineNode(rule: Rule, links: seq<seq<nat>>, i: nat, entry: nat, seeds: seq<nat>, l: nat,
                    visited: VisitedStamps)
    returns (links': seq<seq<nat>>)
    requires HalfMutual(links, i) && i < |links| && entry < |links| && forall v :: v in seeds ==> v < |links|
    requires visited.Valid() && !Collides(visited.begins + 1)
    modifies visited
    ensures visited.Valid() && visited.begins == old(visited.begins) + 1
    ensures |links'| == |links| && HalfMutual(links', i + 1)
    ensures links' in Reselections(rule, links, i, Entries(entry, i, seeds), l)
  {
    var q := Query(links, Key(rule.rate, i), l);
    var eps := [entry, if i > 0 then i - 1 else i];
    var results := BeamSearchMulti(q, eps, seeds, visited);
    IdsDistinct(q, results);
    var cands := MergeOld(Ids(results), links[i]);
    var pruned := RobustPrune(rule, i, cands);
    PrunedOk(rule, |links|, i, cands, pruned);
    links' := Rewire(links, i, pruned);
    RefinedMutual(links, i, pruned);
    assert ReselectedBy(rule, links, i, Entries(entry, i, seeds), l, links', results, cands, pruned);
  }

  /** Where the refinement of node `i` starts its search. */
  function Entries(entry: nat, i: nat, seeds: seq<nat>): set<nat> {
    Members([entry, if i > 0 then i - 1 else i]) + Members(seeds)
  }

  /** How one graph may follow another when node `j` is re-selected. */
  type Reselection = (nat, seq<seq<nat>>, seq<seq<nat>>) -> bool

  ghost function Reselecting(rule: Rule, entry: nat, seeds: seq<nat>, l: nat): Reselection {
    (j: nat, links: seq<seq<nat>>, next: seq<seq<nat>>) =>
      j < |links| && next in Reselections(rule, links, j, Entries(entry, j, seeds), l)
  }

  lemma ReselectedNow(rule: Rule, entry: nat, seeds: seq<nat>, l: nat, j: nat, links: seq<seq<nat>>,
                      next: seq<seq<nat>>)
    requires j < |links| && next in Reselections(rule, links, j, Entries(entry, j, seeds), l)
    ensures Reselecting(rule, entry, seeds, l)(j, links, next)
  {
  }

  /** The graphs of the first loop, one per node. */
  ghost predicate Refining(step: Reselection, trail: seq<seq<seq<nat>>>) {
    forall j, k :: 0 <= j < k < |trail| && k == j + 1 ==> step(j, trail[j], trail[k])
  }

  lemma RefiningOn(step: Reselection, trail: seq<seq<seq<nat>>>, i: nat, next: seq<seq<nat>>)
    requires Refining(step, trail) && |trail| == i + 1 && step(i, trail[i], next)
    ensures Refining(step, trail + [next])
  {
  }

  method FirstLoop(rule: Rule, links0: seq<seq<nat>>, entry: nat, seeds: seq<nat>, l: nat, visited: VisitedStamps)
    returns (links: seq<seq<nat>>, ghost trail: seq<seq<seq<nat>>>)
    requires InRange(links0) && (entry < |links0| || links0 == []) && forall v :: v in seeds ==> v < |links0|
    requires visited.Valid() && Room(visited.begins, |links0|)
    modifies visited
    ensures visited.Valid()
    ensures |trail| == |links0| + 1 && trail[0] == links0 && trail[|links0|] == links
    ensures Refining(Reselecting(rule, entry, seeds, l), trail)
    ensures |links| == |links0| && HalfMutual(links, |links|)
  {
    links, trail := links0, [links0];
    ghost var step := Reselecting(rule, entry, seeds, l);
    for i := 0 to |links0|
      invariant visited.Valid() && visited.begins == old(visited.begins) + i
      invariant |trail| == i + 1 && trail[0] == links0 && trail[i] == links && |links| == |links0|
      invariant Refining(step, trail)
      invariant HalfMutual(links, i)
    {
      var next := RefineNode(rule, links, i, entry, seeds, l, visited);
      ReselectedNow(rule, entry, seeds, l, i, links, next);
      RefiningOn(step, trail, i, next);
      links, trail := next, trail + [next];
    }
  }

  method SecondLoop(rule: Rule, links0: seq<seq<nat>>) returns (links: seq<seq<nat>>)
    requires forall v :: 0 <= v < |links0| ==> NodeOk(|links0|, v, links0[v])
    ensures |links| == |links0| && Bounded(links, rule.r)
    ensures forall v :: 0 <= v < |links0| ==> Fitted(rule, v, links0[v], links[v])
  {
    links := links0;
    for i := 0 to |links0|
      invariant |links| == |links0|
      invariant forall v :: i <= v < |links0| ==> links[v] == links0[v]
      invariant forall v :: 0 <= v < i ==> Fitted(rule, v, links0[v], links[v])
    {
      var out := Fit(rule, i, links[i]);
      links := links[i := out];
    }
    forall v | 0 <= v < |links| ensures NodeOk(|links|, v, links[v]) && |links[v]| <= rule.r {
      FittedOk(rule, |links|, v, links0[v], links[v]);
    }
  }

  // ----- The index -----

  /** An insertion beyond the first: its candidates are what a search found, its links what they lead to. */
  ghost predicate FoundAndLinked(rule: Rule, links0: seq<seq<nat>>, links: seq<seq<nat>>, id: nat, entries: set<nat>,
                                 l: nat, results: seq<Cand>, picks: seq<nat>)
  {
    && results in Searches(Query(links0, Key(rule.rate, id), l), entries)
    && Inserted(rule, links0, links, id, Ids(results), picks)
  }

  /** The searches and picks that explain how an insertion changed the graph. */
  ghost function Insertions(rule: Rule, links0: seq<seq<nat>>, links: seq<seq<nat>>, id: nat, entries: set<nat>, l: nat)
    : iset<(seq<Cand>, seq<nat>)>
  {
    iset p: (seq<Cand>, seq<nat>) | FoundAndLinked(rule, links0, links, id, entries, l, p.0, p.1)
  }

  function Starts(entry: nat, last: nat, seeds: seq<nat>): set<nat> {
    Members([entry, last]) + Members(seeds)
  }

  method SearchAndLink(rule: Rule, links0: seq<seq<nat>>, entry: nat, last: nat, seeds: seq<nat>, l: nat,
                       visited: VisitedStamps)
    returns (links: seq<seq<nat>>, ghost results: seq<Cand>, ghost picks: seq<nat>)
    requires Bounded(links0, rule.r)
    requires entry < |links0| && last < |links0| && forall v :: v in seeds ==> v < |links0|
    requires visited.Valid() && !Collides(visited.begins + 1)
    modifies visited
    ensures visited.Valid() && |links| == |links0| + 1 && Bounded(links, rule.r) && InRange(links)
    ensures (results, picks) in Insertions(rule, links0 + [[]], links, |links0|, Starts(entry, last, seeds), l)
  {
    var grown, id := links0 + [[]], |links0|;
    GrownInRange(links0, rule.r);
    var q := Query(grown, Key(rule.rate, id), l);
    var eps := [entry, last];
    var found := BeamSearchMulti(q, eps, seeds, visited);
    IdsDistinct(q, found);
    results := found;
    links, picks := Link(rule, grown, id, Ids(found));
    assert FoundAndLinked(rule, grown, links, id, Starts(entry, last, seeds), l, results, picks);
    GrownInRange(links, rule.r);
  }

  lemma GrownInRange(links: seq<seq<nat>>, r: nat)
    requires Bounded(links, r)
    ensures InRange(links) && InRange(links + [[]]) && (links + [[]])[..|links|] == links
  {
    forall v, w | 0 <= v < |links| && w in links[v] ensures w < |links| {
      assert NodeOk(|links|, v, links[v]);
    }
  }

  /** External ids and distances, in the order found. */
  function Labelled(ids: seq<nat>, chosen: seq<Cand>): seq<(nat, real)>
    requires forall c :: c in chosen ==> c.local < |ids|
  {
    seq(|chosen|, i requires 0 <= i < |chosen| => (assert chosen[i] in chosen; (ids[chosen[i].local], chosen[i].dist)))
  }

  /** Each pair is the id of the row found and its rating. */
  ghost predicate LabelledBy<V(!new)>(rating: (V, V) -> real, rows: seq<V>, query: V, ids: seq<nat>, nodes: seq<nat>,
                                      found: seq<(nat, real)>) {
    && |found| == |nodes|
    && forall k :: 0 <= k < |found| ==>
         nodes[k] < |rows| && nodes[k] < |ids| && found[k] == (ids[nodes[k]], rating(query, rows[nodes[k]]))
  }

  /**
   * The search returns the best of its sources but none of the others. If the width covers the rest of what is
   * reachable, no row of that was left out that is rated better than one that was found.
   */
  ghost predicate FromBest<V(!new)>(rating: (V, V) -> real, rows: seq<V>, query: V, links: seq<seq<nat>>,
                                    sources: set<nat>, width: nat, topK: nat, nodes: seq<nat>, best: nat) {
    && best in sources
    && (forall v :: v in sources ==>
          best < |rows| && v < |rows| && rating(query, rows[best]) <= rating(query, rows[v]))
    && var pool := ReachableSet(links, sources) - (sources - {best});
       |pool| <= (if width == 0 then 1 else width) ==>
         NoneNearer(rating, rows, query, (v: nat) => true, pool, topK, nodes)
  }

  lemma SearchedRows<V(!new)>(rating: (V, V) -> real, rows: seq<V>, query: V, ids: seq<nat>, q: Query,
                              sources: set<nat>, topK: nat, results: seq<Cand>, kept: seq<Cand>)
    returns (best: nat)
    requires Compares(q.dist, rating, rows, query) && |rows| == |ids| == |q.adj| && InRange(q.adj)
    requires results in Searches(q, sources) && forall v :: v in sources ==> v < |q.adj|
    requires Ordered(results) && Rated(q, results) && kept == Take(results, topK)
    ensures (forall c :: c in kept ==> c.local < |ids|) && |kept| <= topK
    ensures LabelledBy(rating, rows, query, ids, LocalsOf(kept), Labelled(ids, kept))
    ensures InOrder(rating, rows, query, (v: nat) => true, LocalsOf(kept))
    ensures FromBest(rating, rows, query, q.adj, sources, q.ef, topK, LocalsOf(kept), best)
  {
    best :| IsClosest(q, sources, best) && Settled(q, sources, sources - {best}, results);
    AnswerInOrder(rating, rows, query, q.dist, (v: nat) => true, kept);
    SearchedNearest(rating, rows, query, q, sources, topK, results, kept, best);
  }

  lemma SearchedNearest<V(!new)>(rating: (V, V) -> real, rows: seq<V>, query: V, q: Query, sources: set<nat>,
                                 topK: nat, results: seq<Cand>, kept: seq<Cand>, best: nat)
    requires Compares(q.dist, rating, rows, query) && |rows| == |q.adj| && InRange(q.adj)
    requires (forall v :: v in sources ==> v < |q.adj|) && kept == Take(results, topK)
    requires IsClosest(q, sources, best) && Settled(q, sources, sources - {best}, results)
    ensures FromBest(rating, rows, query, q.adj, sources, q.ef, topK, LocalsOf(kept), best)
  {
    var pool := ReachableSet(q.adj, sources) - (sources - {best});
    if |pool| <= Cap(q) {
      WideSettled(q, sources, best, results, topK);
      ReachableInside(q.adj, sources, Nodes(|q.adj|));
      EveryoneMay(pool);
      AnswerNearest(rating, rows, query, q.dist, (v: nat) => true, pool, topK, kept);
    }
  }

  lemma EveryoneMay(pool: set<nat>)
    ensures (set v | v in pool && ((v: nat) => true)(v)) == pool
  {
  }

  /** The search on the parts of the index. */
  method SearchRows<V(!new)>(rating: (V, V) -> real, rows: seq<V>, query: V, links: seq<seq<nat>>, ids: seq<nat>,
                             eps: seq<nat>, seeds: seq<nat>, width: nat, topK: nat, visited: VisitedStamps)
    returns (kept: seq<Cand>, ghost results: seq<Cand>, ghost best: nat)
    requires |rows| == |ids| == |links| && InRange(links)
    requires eps != [] && forall v :: v in eps || v in seeds ==> v < |links|
    requires visited.Valid() && !Collides(visited.begins + 1)
    modifies visited
    ensures visited.Valid() && kept == Take(results, topK) && forall c :: c in kept ==> c.local < |ids|
    ensures results in Searches(Query(links, Distances(rating, rows, query), width), Members(eps) + Members(seeds))
    ensures LabelledBy(rating, rows, query, ids, LocalsOf(kept), Labelled(ids, kept))
    ensures InOrder(rating, rows, query, (v: nat) => true, LocalsOf(kept))
    ensures FromBest(rating, rows, query, links, Members(eps) + Members(seeds), width, topK, LocalsOf(kept), best)
  {
    var q := Query(links, Distances(rating, rows, query), width);
    var all := BeamSearchMulti(q, eps, seeds, visited);
    results, kept := all, Take(all, topK);
    best := SearchedRows(rating, rows, query, ids, q, Members(eps) + Members(seeds), topK, results, kept);
  }

  /** The rule by which insertions and the refinement prune: distances and ratings of the stored rows. */
  ghost predicate RuleOver<V(!new)>(rule: Rule, distance: (V, V) -> real, rating: (V, V) -> real, rows: seq<V>,
                                    alpha: real, r: nat) {
    Measures(rule.between, distance, rows) && Measures(rule.rate, rating, rows) && rule.alpha == alpha && rule.r == r
  }

  class Vamana<V(!new)> {
    const distance: (V, V) -> real
    const rating: (V, V) -> real
    const r: nat
    const l: nat
    const alpha: real
    const visited: VisitedStamps
    var entry: int
    var last: nat
    var rows: seq<V>
    var ids: seq<nat>
    var links: seq<seq<nat>>
    var seeds: seq<nat>

    /** Enough to search; the graph itself may be any graph. */
    ghost predicate Usable()
      reads this, visited
    {
      && visited.Valid() && |rows| == |ids| == |links| && InRange(links)
      && (entry < 0 <==> links == []) && (links != [] ==> entry < |links| && last < |links|)
      && forall v :: v in seeds ==> v < |links|
    }

    ghost predicate Valid()
      reads this, visited
    {
      Usable() && Bounded(links, r)
    }

    constructor (r: nat, l: nat, alpha: real, distance: (V, V) -> real, rating: (V, V) -> real)
      ensures Valid() && rows == [] && fresh(visited)
      ensures this.r == (if r > 2 then r else 2) && this.l == (if l > 1 then l else 1)
      ensures this.alpha == if alpha < 1.0 then 1.0 else if alpha > 2.0 then 2.0 else alpha
      ensures this.distance == distance && this.rating == rating
    {
      this.distance, this.rating := distance, rating;
      this.r := if r > 2 then r else 2;
      this.l := if l > 1 then l else 1;
      this.alpha := if alpha < 1.0 then 1.0 else if alpha > 2.0 then 2.0 else alpha;
      entry, last, rows, ids, links, seeds := -1, 0, [], [], [], [];
      visited := new VisitedStamps();
    }

    function TheRule(): (rule: Rule)
      reads this`rows
      ensures RuleOver(rule, distance, rating, rows, alpha, r)
    {
      var items, d, q := rows, distance, rating;
      Rule((a: nat, b: nat) => if a < |items| && b < |items| then d(items[a], items[b]) else 0.0,
           (a: nat, b: nat) => if a < |items| && b < |items| then q(items[a], items[b]) else 0.0, alpha, r)
    }

    /** The first node: there is nothing to link it to. */
    method ExtendEmpty(gid: nat, row: V)
      requires Valid() && links == []
      modifies this`rows, this`ids, this`links, this`entry, this`last
      ensures Valid() && links == [[]] && entry == 0 && last == 0
      ensures rows == old(rows) + [row] && ids == old(ids) + [gid]
    {
      rows, ids := rows + [row], ids + [gid];
      links, entry, last := [[]], 0, 0;
    }

    method Store(gid: nat, row: V)
      modifies this`rows, this`ids
      ensures rows == old(rows) + [row] && ids == old(ids) + [gid]
    {
      rows, ids := rows + [row], ids + [gid];
    }

    /** The graph's part of a further insertion, once the row is stored. */
    method LinkLast(rule: Rule) returns (ghost results: seq<Cand>, ghost picks: seq<nat>)
      requires visited.Valid() && Room(visited.begins, 1) && Bounded(links, rule.r)
      requires 0 <= entry < |links| && last < |links| && forall v :: v in seeds ==> v < |links|
      modifies this`links, this`last, visited
      ensures visited.Valid() && |links| == |old(links)| + 1 && last == |old(links)|
      ensures InRange(links) && Bounded(links, rule.r)
      ensures (results, picks) in Insertions(rule, old(links) + [[]], links, |old(links)|,
                                             Starts(entry, old(last), seeds), if l > r then l else r)
    {
      var id := |links|;
      links, results, picks := SearchAndLink(rule, links, entry, last, seeds, if l > r then l else r, visited);
      last := id;
    }

    /** A further node: it is searched for and linked. */
    method ExtendMore(gid: nat, row: V) returns (ghost results: seq<Cand>, ghost picks: seq<nat>, ghost rule: Rule)
      requires Valid() && links != [] && Room(visited.begins, 1)
      modifies this`rows, this`ids, this`links, this`last, visited
      ensures Valid() && |links| == |old(links)| + 1 && last == |old(links)|
      ensures rows == old(rows) + [row] && ids == old(ids) + [gid]
      ensures RuleOver(rule, distance, rating, rows, alpha, r)
      ensures (results, picks) in Insertions(rule, old(links) + [[]], links, |old(links)|,
                                             Starts(old(entry), old(last), old(seeds)), if l > r then l else r)
    {
      Store(gid, row);
      var theRule := TheRule();
      rule := theRule;
      results, picks := LinkLast(theRule);
    }

    /** An insertion up to the point where the entry may move. */
    method Extend(gid: nat, row: V)
      returns (id: nat, ghost results: seq<Cand>, ghost picks: seq<nat>, ghost rule: Rule)
      requires Valid() && Room(visited.begins, 1)
      modifies this, visited
      ensures Valid() && id == old(|links|) && |links| == id + 1 && last == id && seeds == old(seeds)
      ensures rows == old(rows) + [row] && ids == old(ids) + [gid]
      ensures entry == if old(links) == [] then 0 else old(entry)
      ensures old(links) == [] ==> links == [[]]
      ensures RuleOver(rule, distance, rating, rows, alpha, r)
      ensures old(links) != [] ==>
                (results, picks) in Insertions(rule, old(links) + [[]], links, id,
                                               Starts(old(entry), old(last), old(seeds)), if l > r then l else r)
    {
      id, results, picks := |rows|, [], [];
      if entry < 0 {
        ExtendEmpty(gid, row);
        rule := TheRule();
      } else {
        results, picks, rule := ExtendMore(gid, row);
      }
    }

    /** `insert_id`; on every 4096th node the entry moves to the row closest to the mean, as `toMean` measures it. */
    method InsertId(gid: nat, row: V, toMean: seq<V> -> nat -> real)
      returns (id: nat, ghost results: seq<Cand>, ghost picks: seq<nat>, ghost rule: Rule)
      requires Valid() && Room(visited.begins, 1)
      modifies this, visited
      ensures Valid() && id == old(|links|) && last == id && seeds == old(seeds)
      ensures rows == old(rows) + [row] && ids == old(ids) + [gid]
      ensures old(links) == [] ==> links == [[]]
      ensures RuleOver(rule, distance, rating, rows, alpha, r)
      ensures old(links) != [] ==>
                (results, picks) in Insertions(rule, old(links) + [[]], links, id,
                                               Starts(old(entry), old(last), old(seeds)), if l > r then l else r)
      ensures if id == 0 then entry == 0
              else if id % 4096 == 0 then entry >= 0 && FirstSmallest(|rows|, toMean(rows), entry)
              else entry == old(entry)
    {
      id, results, picks, rule := Extend(gid, row);
      if id > 0 && id % 4096 == 0 {
        SetEntryMedoid(toMean);
      }
    }

    /** `set_entry_medoid`. */
    method SetEntryMedoid(toMean: seq<V> -> nat -> real)
      modifies this`entry
      ensures rows != [] ==> entry >= 0 && FirstSmallest(|rows|, toMean(rows), entry)
      ensures rows == [] ==> entry == old(entry)
    {
      if rows == [] {
        return;
      }
      var best := ArgMin(|rows|, toMean(rows));
      entry := best;
    }

    /** `seed_random_entries`, from the generator's next draws. */
    method SeedRandomEntries(k: nat, draws: seq<nat>)
      requires Usable() && |draws| >= k
      modifies this`seeds
      ensures Usable()
      ensures |links| == 0 ==> seeds == old(seeds)
      ensures |links| > 0 ==> |seeds| == if k < |links| then k else |links|
      ensures |links| > 0 ==> forall i :: 0 <= i < |seeds| ==> seeds[i] == draws[i] % |links|
    {
      var n := |links|;
      if n == 0 {
        return;
      }
      seeds := [];
      for i := 0 to if k < n then k else n
        invariant |seeds| == i && forall j :: 0 <= j < i ==> seeds[j] == draws[j] % n
      {
        seeds := seeds + [draws[i] % n];
      }
      forall v | v in seeds ensures v < n {
        var j :| 0 <= j < |seeds| && seeds[j] == v;
      }
    }

    /** `refine_alpha_pass`, from any graph at all. */
    method RefineAlphaPass() returns (ghost trail: seq<seq<seq<nat>>>, ghost rule: Rule)
      requires Usable() && Room(visited.begins, |links|)
      modifies this`links, visited
      ensures Valid()
      ensures |trail| == |old(links)| + 1 && trail[0] == old(links) && |trail[|old(links)|]| == |old(links)|
      ensures RuleOver(rule, distance, rating, rows, alpha, r)
      ensures Refining(Reselecting(rule, if entry < 0 then 0 else entry, seeds, if l > r then l else r), trail)
      ensures forall v, w :: 0 <= v < |old(links)| && 0 <= w < |old(links)| ==> Mutual(trail[|old(links)|], v, w)
      ensures |links| == |old(links)|
      ensures forall v :: 0 <= v < |links| ==> Fitted(rule, v, trail[|old(links)|][v], links[v])
    {
      var middle, theRule := links, TheRule();
      rule := theRule;
      middle, trail := FirstLoop(theRule, links, if entry < 0 then 0 else entry, seeds, if l > r then l else r,
                                 visited);
      links := SecondLoop(theRule, middle);
    }

    /** `search_with_l`. */
    method SearchWithL(query: V, topK: nat, l: nat)
      returns (found: seq<(nat, real)>, ghost results: seq<Cand>, ghost dist: nat -> real, ghost best: nat)
      requires Usable() && Room(visited.begins, 1)
      modifies visited
      ensures Usable() && (links == [] ==> found == [])
      ensures links != [] ==>
                var sources := Members([entry as nat] + seeds) + Members(seeds);
                var width, nodes := if l > topK then l else topK, LocalsOf(Take(results, topK));
                && Compares(dist, rating, rows, query) && results in Searches(Query(links, dist, width), sources)
                && LabelledBy(rating, rows, query, ids, nodes, found)
                && InOrder(rating, rows, query, (v: nat) => true, nodes)
                && FromBest(rating, rows, query, links, sources, width, topK, nodes, best)
    {
      results, dist, best := [], Distances(rating, rows, query), 0;
      if rows == [] {
        return [], results, dist, best;
      }
      var kept;
      kept, results, best := SearchRows(rating, rows, query, links, ids, [entry as nat] + seeds, seeds,
                                        if l > topK then l else topK, topK, visited);
      found := Labelled(ids, kept);
    }
  }
}
