/**
 * The beam search that the three graph indexes share: `search_layer_sketch` (`db/src/sketch_hnsw.rs`),
 * `search_layer_from` (`db/src/index/hnsw.rs`) and `beam_search_multi` (`db/src/index/vamana.rs`).
 */
module Beams {
  import opened Candidates
  import opened Graphs
  import opened Sorting
  import opened VisitedSets

  /** One layer's adjacency lists, the distance of every node to the query, and the beam width. */
  datatype Query = Query(adj: seq<seq<nat>>, dist: nat -> real, ef: nat)

  datatype Beam = Beam(frontier: seq<Cand>, results: seq<Cand>, seen: set<nat>, expanded: set<nat>)

  function At(q: Query, v: nat): Cand {
    Cand(v, q.dist(v))
  }

  /** A width of zero still keeps one result. */
  function Cap(q: Query): nat {
    if q.ef == 0 then 1 else q.ef
  }

  predicate Rated(q: Query, s: seq<Cand>) {
    forall c :: c in s ==> c.local < |q.adj| && c.dist == q.dist(c.local)
  }

  /** `v` is no better than the worst of a full set of results. */
  predicate Beaten(q: Query, results: seq<Cand>, v: nat) {
    |results| == Cap(q) && Worst(results).dist <= q.dist(v)
  }

  /**
   * What the search keeps. `sources` are the nodes it started from, `extra` those of them that may not be
   * returned, and `hand` the node whose neighbours are being read.
   */
  ghost predicate Kept(q: Query, sources: set<nat>, extra: set<nat>, hand: set<nat>, b: Beam) {
    && InRange(q.adj)
    && Ordered(b.frontier) && Rated(q, b.frontier)
    && Ordered(b.results) && Rated(q, b.results)
    && 1 <= |b.results| <= Cap(q)
    && sources <= b.seen <= ReachableSet(q.adj, sources)
    && extra <= sources
    && b.expanded + hand <= b.seen
    && (forall c :: c in b.frontier ==> c.local in b.seen && c.local !in b.expanded && c.local !in hand)
    && (forall c :: c in b.results ==> c.local in b.seen && c.local !in extra)
    && (forall v :: v in b.seen && v !in extra ==> At(q, v) in b.results || Beaten(q, b.results, v))
    && (forall v :: v in b.seen && (v in extra || At(q, v) in b.results) ==>
          v in b.expanded || v in hand || At(q, v) in b.frontier)
    && (forall v, w :: v in b.expanded && w in q.adj[v] ==> w in b.seen)
  }

  // ----- One neighbour -----

  /** Adds a result and, beyond the width, drops the worst: what is dropped, the full set beats. */
  function AddResult(q: Query, results: seq<Cand>, c: Cand): (r: seq<Cand>)
    requires Ordered(results) && c !in results && 1 <= |results| <= Cap(q)
    requires |results| < q.ef || c.dist < Worst(results).dist
    ensures Ordered(r) && 1 <= |r| <= Cap(q)
    ensures forall x :: x in r ==> x == c || x in results
    ensures forall x :: x in results || x == c ==> x in r || (|r| == Cap(q) && Worst(r).dist <= x.dist)
    ensures |results| == Cap(q) ==> |r| == Cap(q) && Worst(r).dist <= Worst(results).dist
  {
    var more := Push(results, c);
    WorstBoundsAll(more);
    if |more| > q.ef then
      PopWorst(more);
      assert Worst(more[..|more| - 1]) in more;
      more[..|more| - 1]
    else more
  }

  /** A first visit to `w`: it joins frontier and results if there is room or it beats the worst result. */
  function Offer(q: Query, b: Beam, w: nat): Beam
    requires Ordered(b.frontier) && Ordered(b.results) && 1 <= |b.results| <= Cap(q)
    requires At(q, w) !in b.frontier && At(q, w) !in b.results
  {
    var c := At(q, w);
    if |b.results| < q.ef || c.dist < Worst(b.results).dist then
      Beam(Push(b.frontier, c), AddResult(q, b.results, c), b.seen + {w}, b.expanded)
    else
      b.(seen := b.seen + {w})
  }

  lemma OfferCovers(q: Query, extra: set<nat>, b: Beam, w: nat)
    requires Ordered(b.frontier) && Ordered(b.results) && 1 <= |b.results| <= Cap(q)
    requires At(q, w) !in b.frontier && At(q, w) !in b.results
    requires forall v :: v in b.seen && v !in extra ==> At(q, v) in b.results || Beaten(q, b.results, v)
    ensures var n := Offer(q, b, w);
            forall v :: v in n.seen && v !in extra ==> At(q, v) in n.results || Beaten(q, n.results, v)
  {
    var n := Offer(q, b, w);
    if |b.results| < q.ef || At(q, w).dist < Worst(b.results).dist {
      forall v | v in n.seen && v !in extra ensures At(q, v) in n.results || Beaten(q, n.results, v) {
        if v != w && At(q, v) !in b.results {
          assert Beaten(q, b.results, v);
        }
      }
    }
  }

  lemma OfferKeeps(q: Query, sources: set<nat>, extra: set<nat>, hand: set<nat>, b: Beam, w: nat)
    requires Kept(q, sources, extra, hand, b)
    requires w in ReachableSet(q.adj, sources) && w !in b.seen
    ensures At(q, w) !in b.frontier && At(q, w) !in b.results
    ensures Kept(q, sources, extra, hand, Offer(q, b, w))
  {
    var c := At(q, w);
    var n := Offer(q, b, w);
    OfferCovers(q, extra, b, w);
    if |b.results| < q.ef || c.dist < Worst(b.results).dist {
      assert Rated(q, n.results) && Rated(q, n.frontier);
    }
  }

  // ----- The loop -----

  /** The closest frontier node is taken in hand. */
  lemma TakeKeeps(q: Query, sources: set<nat>, extra: set<nat>, b: Beam)
    requires Kept(q, sources, extra, {}, b) && b.frontier != []
    ensures Kept(q, sources, extra, {b.frontier[0].local}, b.(frontier := b.frontier[1..]))
  {
    PopBest(b.frontier);
    var c := b.frontier[0];
    assert c == At(q, c.local);
    forall x | x in b.frontier[1..] ensures x.local != c.local {
      assert x == At(q, x.local);
    }
  }

  /** Once every neighbour in hand has been seen, the node is expanded. */
  lemma PutDownKeeps(q: Query, sources: set<nat>, extra: set<nat>, v: nat, b: Beam)
    requires Kept(q, sources, extra, {v}, b)
    requires ReadUpTo(q.adj[v], |q.adj[v]|, b.seen)
    ensures Kept(q, sources, extra, {}, b.(expanded := b.expanded + {v}))
  {
  }

  /** The loop's exit: nothing left to expand, or the closest frontier node is worse than a full set of results. */
  predicate Stops(q: Query, b: Beam)
    requires b.results != []
  {
    b.frontier == [] || (|b.results| >= q.ef && b.frontier[0].dist > Worst(b.results).dist)
  }

  /**
   * What a search promises. Every returned node and every source has been accounted for, with all its
   * neighbours: each is returned, or excluded, or at least as far as the farthest of a full set of results.
   * If the width covers everything that may be returned, exactly that is returned.
   */
  ghost predicate Settled(q: Query, sources: set<nat>, extra: set<nat>, results: seq<Cand>) {
    && Ordered(results) && Rated(q, results) && 1 <= |results| <= Cap(q)
    && Locals(results) <= ReachableSet(q.adj, sources) - extra
    && (forall v :: v in sources ==> Answered(q, extra, results, v))
    && (forall v, w :: v in Locals(results) && w in q.adj[v] ==> Answered(q, extra, results, w))
    && (|ReachableSet(q.adj, sources) - extra| <= Cap(q) ==> Locals(results) == ReachableSet(q.adj, sources) - extra)
  }

  predicate Answered(q: Query, extra: set<nat>, results: seq<Cand>, v: nat) {
    v in Locals(results) || v in extra || Beaten(q, results, v)
  }

  /** At the exit every returned node has been expanded. */
  lemma ResultsExpanded(q: Query, sources: set<nat>, extra: set<nat>, b: Beam)
    requires Kept(q, sources, extra, {}, b) && Stops(q, b)
    ensures Locals(b.results) <= b.expanded
  {
    forall i | 0 <= i < |b.frontier| ensures b.frontier[i].dist > Worst(b.results).dist {
      assert i == 0 || Before(b.frontier[0], b.frontier[i]);
    }
    forall c | c in b.results ensures c.local in b.expanded {
      assert c == At(q, c.local);
      WorstBounds(b.results, c);
    }
  }

  lemma LocalsSize(q: Query, s: seq<Cand>)
    requires Ordered(s) && Rated(q, s)
    ensures |Locals(s)| == |s|
  {
    if s != [] {
      var last := Worst(s);
      var init := s[..|s| - 1];
      PopWorst(s);
      LocalsSize(q, init);
      forall c | c in init ensures c.local != last.local {
      }
      assert Locals(s) == Locals(init) + {last.local} by {
        assert s == init + [last];
      }
    }
  }

  /** A search that ends short of its width has expanded all it saw, and returns all of it that it may. */
  lemma ShortSeesAll(q: Query, sources: set<nat>, extra: set<nat>, b: Beam)
    requires Kept(q, sources, extra, {}, b) && Stops(q, b) && |b.results| < Cap(q)
    ensures b.seen == b.expanded == ReachableSet(q.adj, sources)
    ensures Locals(b.results) == b.seen - extra
  {
    forall v | v in b.seen - extra ensures v in Locals(b.results) {
      assert At(q, v) in b.results;
    }
    assert b.seen <= b.expanded;
    ReachableInside(q.adj, sources, b.seen);
  }

  lemma Complete(q: Query, sources: set<nat>, extra: set<nat>, b: Beam)
    requires Kept(q, sources, extra, {}, b) && Stops(q, b)
    requires |ReachableSet(q.adj, sources) - extra| <= Cap(q)
    ensures Locals(b.results) == ReachableSet(q.adj, sources) - extra
  {
    var all := ReachableSet(q.adj, sources);
    LocalsSize(q, b.results);
    if |b.results| == Cap(q) {
      SubsetSize(Locals(b.results), all - extra);
    } else {
      ShortSeesAll(q, sources, extra, b);
    }
  }

  lemma StopSettles(q: Query, sources: set<nat>, extra: set<nat>, b: Beam)
    requires Kept(q, sources, extra, {}, b) && Stops(q, b)
    ensures Settled(q, sources, extra, b.results)
  {
    ResultsExpanded(q, sources, extra, b);
    if |ReachableSet(q.adj, sources) - extra| <= Cap(q) {
      Complete(q, sources, extra, b);
    }
    forall v | v in b.seen ensures Answered(q, extra, b.results, v) {
      if At(q, v) in b.results {
        assert At(q, v).local in Locals(b.results);
      }
    }
  }

  /** The first `i` neighbours have been seen. */
  predicate ReadUpTo(neighbours: seq<nat>, i: nat, seen: set<nat>)
    requires i <= |neighbours|
  {
    forall j :: 0 <= j < i ==> neighbours[j] in seen
  }

  lemma ReadOne(neighbours: seq<nat>, i: nat, seen: set<nat>)
    requires i < |neighbours| && ReadUpTo(neighbours, i, seen)
    ensures ReadUpTo(neighbours, i + 1, seen + {neighbours[i]})
  {
  }

  method Visit(q: Query, visited: VisitedStamps, v: nat, w: nat, frontier: seq<Cand>, results: seq<Cand>,
               ghost sources: set<nat>, ghost extra: set<nat>, ghost expanded: set<nat>)
    returns (frontier': seq<Cand>, results': seq<Cand>)
    requires visited.Searching(|q.adj|) && v < |q.adj| && w in q.adj[v]
    requires Kept(q, sources, extra, {v}, Beam(frontier, results, visited.seen, expanded))
    modifies visited
    ensures visited.Searching(|q.adj|) && visited.begins == old(visited.begins)
    ensures visited.seen == old(visited.seen) + {w}
    ensures Kept(q, sources, extra, {v}, Beam(frontier', results', visited.seen, expanded))
    ensures w in old(visited.seen) ==> frontier' == frontier
  {
    frontier', results' := frontier, results;
    ghost var b := Beam(frontier', results', visited.seen, expanded);
    StepReachable(q.adj, sources, v, w);
    var accepted := visited.TryVisit(w);
    if accepted {
      OfferKeeps(q, sources, extra, {v}, b, w);
      var c := At(q, w);
      if |results'| < q.ef || c.dist < Worst(results').dist {
        frontier' := Push(frontier', c);
        results' := AddResult(q, results', c);
      }
      assert Beam(frontier', results', visited.seen, expanded) == Offer(q, b, w);
    } else {
      assert b.seen == visited.seen;
    }
  }

  /** The inner loop: the neighbours of the node in hand. */
  method Scan(q: Query, visited: VisitedStamps, v: nat, frontier: seq<Cand>, results: seq<Cand>,
              ghost sources: set<nat>, ghost extra: set<nat>, ghost expanded: set<nat>)
    returns (frontier': seq<Cand>, results': seq<Cand>)
    requires visited.Searching(|q.adj|)
    requires Kept(q, sources, extra, {v}, Beam(frontier, results, visited.seen, expanded))
    modifies visited
    ensures visited.Searching(|q.adj|) && visited.begins == old(visited.begins) && old(visited.seen) <= visited.seen
    ensures Kept(q, sources, extra, {}, Beam(frontier', results', visited.seen, expanded + {v}))
    ensures frontier' == frontier || visited.seen != old(visited.seen)
  {
    frontier', results' := frontier, results;
    var i := 0;
    while i < |q.adj[v]|
      invariant i <= |q.adj[v]|
      invariant visited.Searching(|q.adj|) && visited.begins == old(visited.begins) && old(visited.seen) <= visited.seen
      invariant Kept(q, sources, extra, {v}, Beam(frontier', results', visited.seen, expanded))
      invariant ReadUpTo(q.adj[v], i, visited.seen)
      invariant frontier' == frontier || visited.seen != old(visited.seen)
    {
      ReadOne(q.adj[v], i, visited.seen);
      frontier', results' := Visit(q, visited, v, q.adj[v][i], frontier', results', sources, extra, expanded);
      i := i + 1;
    }
    PutDownKeeps(q, sources, extra, v, Beam(frontier', results', visited.seen, expanded));
  }

  /** The outer loop. */
  method Explore(q: Query, visited: VisitedStamps, frontier0: seq<Cand>, results0: seq<Cand>,
                 ghost sources: set<nat>, ghost extra: set<nat>)
    returns (results: seq<Cand>)
    requires visited.Searching(|q.adj|)
    requires Kept(q, sources, extra, {}, Beam(frontier0, results0, visited.seen, {}))
    modifies visited
    ensures visited.Valid() && visited.begins == old(visited.begins)
    ensures Settled(q, sources, extra, results)
  {
    var frontier := frontier0;
    results := results0;
    ghost var expanded: set<nat> := {};
    while frontier != [] && !(|results| >= q.ef && frontier[0].dist > Worst(results).dist)
      invariant visited.Searching(|q.adj|) && visited.begins == old(visited.begins)
      invariant Kept(q, sources, extra, {}, Beam(frontier, results, visited.seen, expanded))
      decreases |ReachableSet(q.adj, sources)| - |visited.seen|, |frontier|
    {
      ghost var before := visited.seen;
      TakeKeeps(q, sources, extra, Beam(frontier, results, visited.seen, expanded));
      var c := frontier[0];
      frontier, results := Scan(q, visited, c.local, frontier[1..], results, sources, extra, expanded);
      expanded := expanded + {c.local};
      SubsetSize(before, visited.seen);
      SubsetSize(visited.seen, ReachableSet(q.adj, sources));
    }
    StopSettles(q, sources, extra, Beam(frontier, results, visited.seen, expanded));
  }
}
