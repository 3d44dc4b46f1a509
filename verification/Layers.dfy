/**
 * The layered graph under `SketchHnsw` (`db/src/sketch_hnsw.rs`) and `Hnsw` (`db/src/index/hnsw.rs`): what its
 * adjacency lists keep, greedy descent through the upper layers, and the search of one layer.
 */
module Layers {
  import opened Beams
  import opened Candidates
  import opened Graphs
  import opened Sorting
  import opened VisitedSets

  // ----- Structure -----

  /** `links[v][lc]` lists the neighbours of node `v` on layer `lc`; a node owns the layers it has lists for. */
  function Heights(links: seq<seq<seq<nat>>>): (r: seq<nat>)
    ensures |r| == |links| && forall v :: 0 <= v < |links| ==> r[v] == |links[v]|
  {
    seq(|links|, v requires 0 <= v < |links| => |links[v]|)
  }

  /** A list of node `v` on layer `lc`: distinct owners of the layer, not `v` itself, at most `cap` of them. */
  predicate ListOk(heights: seq<nat>, v: nat, lc: nat, list: seq<nat>, cap: nat) {
    && |list| <= cap && Distinct(list)
    && forall w :: w in list ==> w < |heights| && w != v && lc < heights[w]
  }

  predicate Structured(links: seq<seq<seq<nat>>>, cap: nat -> nat) {
    forall v, lc :: 0 <= v < |links| && 0 <= lc < |links[v]| ==> ListOk(Heights(links), v, lc, links[v][lc], cap(lc))
  }

  /** The entry owns every layer there is. */
  predicate EntryOk(links: seq<seq<seq<nat>>>, entry: int, maxLevel: nat) {
    && (entry < 0 <==> links == [])
    && (links != [] ==> entry < |links| && |links[entry]| == maxLevel + 1)
    && forall v :: 0 <= v < |links| ==> 1 <= |links[v]| <= maxLevel + 1
  }

  function SetList(links: seq<seq<seq<nat>>>, v: nat, lc: nat, list: seq<nat>): (r: seq<seq<seq<nat>>>)
    requires v < |links| && lc < |links[v]|
    ensures Heights(r) == Heights(links)
  {
    links[v := links[v][lc := list]]
  }

  /** Replacing one list can break the structure only through that list. */
  lemma SetListKeeps(links: seq<seq<seq<nat>>>, cap: nat -> nat, v: nat, lc: nat, list: seq<nat>)
    requires Structured(links, cap) && v < |links| && lc < |links[v]|
    requires ListOk(Heights(links), v, lc, list, cap(lc))
    ensures Structured(SetList(links, v, lc, list), cap)
  {
    var next := SetList(links, v, lc, list);
    forall x, y | 0 <= x < |next| && 0 <= y < |next[x]| ensures ListOk(Heights(next), x, y, next[x][y], cap(y)) {
      if x != v || y != lc {
        assert ListOk(Heights(links), x, y, links[x][y], cap(y));
      }
    }
  }

  /** One layer's adjacency: nodes that do not own the layer have no neighbours on it. */
  function Layer(links: seq<seq<seq<nat>>>, lc: nat): (adj: seq<seq<nat>>)
    ensures |adj| == |links|
    ensures forall v :: 0 <= v < |links| ==> adj[v] == if lc < |links[v]| then links[v][lc] else []
  {
    seq(|links|, v requires 0 <= v < |links| => if lc < |links[v]| then links[v][lc] else [])
  }

  lemma LayerInRange(links: seq<seq<seq<nat>>>, cap: nat -> nat, lc: nat)
    requires Structured(links, cap)
    ensures InRange(Layer(links, lc))
  {
    forall v, w | 0 <= v < |links| && w in Layer(links, lc)[v] ensures w < |links| {
      assert ListOk(Heights(links), v, lc, links[v][lc], cap(lc));
    }
  }

  /** Everything a layer's edges lead to owns the layer. */
  lemma ReachedOwns(links: seq<seq<seq<nat>>>, cap: nat -> nat, lc: nat, ep: nat, v: nat)
    requires Structured(links, cap) && ep < |links| && lc < |links[ep]|
    requires v in ReachableSet(Layer(links, lc), {ep})
    ensures v < |links| && lc < |links[v]|
  {
    var owners := set x: nat | x in Nodes(|links|) && lc < |links[x]|;
    forall x, w | x in owners && x < |links| && w in Layer(links, lc)[x] ensures w in owners {
      assert ListOk(Heights(links), x, lc, links[x][lc], cap(lc));
    }
    ReachableInside(Layer(links, lc), {ep}, owners);
  }

  // ----- Greedy descent -----

  /** A node none of whose neighbours on the layer is closer. */
  predicate LocalMinimum(adj: seq<seq<nat>>, dist: nat -> real, v: nat)
    requires v < |adj|
  {
    forall w :: w in adj[v] ==> dist(v) <= dist(w)
  }

  /** Where greedy descent on one layer may stop when started at `ep`. */
  ghost predicate StopsAt(adj: seq<seq<nat>>, dist: nat -> real, ep: nat, stop: nat) {
    && stop in ReachableSet(adj, {ep})
    && dist(stop) <= dist(ep)
    && LocalMinimum(adj, dist, stop)
  }

  /** Descent through the layers `top`, `top - 1`, … down to `bottom`, one stop each. */
  ghost predicate Descends(links: seq<seq<seq<nat>>>, dist: nat -> real, top: int, bottom: nat, ep: nat, stop: nat)
    decreases top - bottom
  {
    if top < bottom then stop == ep
    else exists mid :: Descends(links, dist, top, bottom + 1, ep, mid) && StopsAt(Layer(links, bottom), dist, mid, stop)
  }

  ghost function Closer(n: nat, dist: nat -> real, v: nat): (r: set<nat>)
    ensures forall x: nat :: x in r <==> x < n && dist(x) < dist(v)
  {
    set x: nat | x in Nodes(n) && dist(x) < dist(v)
  }

  lemma CloserShrinks(n: nat, dist: nat -> real, v: nat, w: nat)
    requires w < n && dist(w) < dist(v)
    ensures |Closer(n, dist, w)| < |Closer(n, dist, v)|
  {
    assert w in Closer(n, dist, v) - Closer(n, dist, w);
    SubsetSize(Closer(n, dist, w), Closer(n, dist, v));
  }

  /** One pass over the neighbours of `ep0`: the closest of them if it improves. */
  method Pass(adj: seq<seq<nat>>, dist: nat -> real, ep0: nat) returns (ep: nat, improved: bool)
    requires InRange(adj) && ep0 < |adj|
    ensures improved ==> ep in adj[ep0] && dist(ep) < dist(ep0)
    ensures !improved ==> ep == ep0
    ensures forall w :: w in adj[ep0] ==> dist(ep) <= dist(w)
  {
    ep, improved := ep0, false;
    var epDist := dist(ep0);
    for i := 0 to |adj[ep0]|
      invariant epDist == dist(ep)
      invariant if improved then ep in adj[ep0] && dist(ep) < dist(ep0) else ep == ep0
      invariant forall j :: 0 <= j < i ==> dist(ep) <= dist(adj[ep0][j])
    {
      var nd := dist(adj[ep0][i]);
      if nd < epDist {
        epDist, ep, improved := nd, adj[ep0][i], true;
      }
    }
  }

  /** Greedy descent on one layer: each pass shrinks the set of strictly closer nodes. */
  method Descend(adj: seq<seq<nat>>, dist: nat -> real, ep0: nat) returns (ep: nat)
    requires InRange(adj) && ep0 < |adj|
    ensures StopsAt(adj, dist, ep0, ep)
  {
    ep := ep0;
    var improved := true;
    SourceReachable(adj, {ep0}, ep0);
    while improved
      invariant ep in ReachableSet(adj, {ep0}) && dist(ep) <= dist(ep0)
      invariant !improved ==> LocalMinimum(adj, dist, ep)
      decreases |Closer(|adj|, dist, ep)|, improved
    {
      ghost var was := ep;
      ep, improved := Pass(adj, dist, ep);
      if improved {
        StepReachable(adj, {ep0}, was, ep);
        CloserShrinks(|adj|, dist, was, ep);
      }
    }
  }

  method DescendLayer(links: seq<seq<seq<nat>>>, dist: nat -> real, ep0: nat, lc: nat, ghost cap: nat -> nat)
    returns (ep: nat)
    requires Structured(links, cap) && ep0 < |links| && lc < |links[ep0]|
    ensures ep < |links| && lc < |links[ep]| && StopsAt(Layer(links, lc), dist, ep0, ep)
  {
    LayerInRange(links, cap, lc);
    ep := Descend(Layer(links, lc), dist, ep0);
    ReachedOwns(links, cap, lc, ep0, ep);
  }

  lemma DescendsOn(links: seq<seq<seq<nat>>>, dist: nat -> real, top: int, lc: nat, ep: nat, mid: nat, stop: nat)
    requires lc <= top && Descends(links, dist, top, lc + 1, ep, mid) && StopsAt(Layer(links, lc), dist, mid, stop)
    ensures Descends(links, dist, top, lc, ep, stop)
  {
  }

  method DescendTo(links: seq<seq<seq<nat>>>, dist: nat -> real, ep0: nat, top: int, bottom: nat, ghost cap: nat -> nat)
    returns (ep: nat)
    requires Structured(links, cap) && ep0 < |links| && top < |links[ep0]| && top + 1 >= bottom
    ensures ep < |links| && Descends(links, dist, top, bottom, ep0, ep)
    ensures if top < bottom then ep == ep0 else bottom < |links[ep]|
  {
    ep := ep0;
    var lc := top;
    while lc >= bottom
      invariant bottom <= lc + 1 <= top + 1
      invariant ep < |links| && (if lc == top then ep == ep0 else lc + 1 < |links[ep]|)
      invariant Descends(links, dist, top, lc + 1, ep0, ep)
    {
      ghost var was := ep;
      ep := DescendLayer(links, dist, ep, lc, cap);
      DescendsOn(links, dist, top, lc, ep0, was, ep);
      lc := lc - 1;
    }
  }

  // ----- Searching one layer -----

  /** The distance of a query to every stored item. */
  function Distances<S>(distance: (S, S) -> real, items: seq<S>, query: S): nat -> real {
    (v: nat) => if v < |items| then distance(query, items[v]) else 0.0
  }

  method SearchLayer(q: Query, ep: nat, visited: VisitedStamps) returns (results: seq<Cand>)
    requires InRange(q.adj) && ep < |q.adj|
    requires visited.Valid() && !Collides(visited.begins + 1)
    modifies visited
    ensures visited.Valid() && visited.begins == old(visited.begins) + 1
    ensures Settled(q, {ep}, {}, results)
  {
    visited.Begin(|q.adj|);
    var _ := visited.TryVisit(ep);
    var start := At(q, ep);
    SourceReachable(q.adj, {ep}, ep);
    assert Kept(q, {ep}, {}, {}, Beam([start], [start], {ep}, {}));
    results := Explore(q, visited, [start], [start], {ep}, {});
  }

  /** The closest `k` of a set of nodes, in order. */
  predicate NearestOf(dist: nat -> real, pool: set<nat>, k: nat, chosen: seq<Cand>) {
    && Ordered(chosen) && |chosen| == (if k < |pool| then k else |pool|)
    && (forall c :: c in chosen ==> c.local in pool && c.dist == dist(c.local))
    && forall v, c :: v in pool && v !in Locals(chosen) && c in chosen ==> Before(c, Cand(v, dist(v)))
  }

  function Filter(s: seq<Cand>, keep: nat -> bool): (r: seq<Cand>) {
    if s == [] then [] else (if keep(s[0].local) then [s[0]] else []) + Filter(s[1..], keep)
  }

  lemma {:induction false} FilterMembers(s: seq<Cand>, keep: nat -> bool)
    requires Ordered(s)
    ensures Ordered(Filter(s, keep))
    ensures forall c :: c in Filter(s, keep) <==> c in s && keep(c.local)
  {
    if s != [] {
      FilterMembers(s[1..], keep);
      assert s == [s[0]] + s[1..];
    }
  }

  lemma TakenFirst(s: seq<Cand>, k: nat, c: Cand, x: Cand)
    requires Ordered(s) && c in Take(s, k) && x in s && x !in Take(s, k)
    ensures Before(c, x)
  {
    var i :| 0 <= i < |s| && s[i] == x;
    assert forall j :: 0 <= j < |Take(s, k)| ==> Take(s, k)[j] == s[j];
  }

  /** Filtering a complete ordered list and taking a prefix gives the nearest that pass the filter. */
  lemma FilterTakesNearest(q: Query, results: seq<Cand>, pool: set<nat>, keep: nat -> bool, k: nat)
    requires Ordered(results) && Rated(q, results) && Locals(results) == pool
    ensures NearestOf(q.dist, (set v | v in pool && keep(v)), k, Take(Filter(results, keep), k))
  {
    var kept := Filter(results, keep);
    var passing := set v | v in pool && keep(v);
    FilterMembers(results, keep);
    assert Locals(kept) == passing;
    LocalsSize(q, kept);
    var chosen := Take(kept, k);
    assert Ordered(chosen) && forall c :: c in chosen ==> c in kept;
    forall v, c | v in passing && v !in Locals(chosen) && c in chosen ensures Before(c, Cand(v, q.dist(v))) {
      var x :| x in kept && x.local == v;
      TakenFirst(kept, k, c, x);
    }
  }

  /**
   * A search descends to `ep`, settles layer 0 from there and keeps the first `topK` live results; if its width
   * covers what is reachable from `ep`, they are the nearest `topK` of all live reachable nodes.
   */
  ghost predicate SearchedFrom(links: seq<seq<seq<nat>>>, dist: nat -> real, entry: nat, maxLevel: nat, ef: nat,
                               topK: nat, live: nat -> bool, ep: nat, chosen: seq<Cand>)
  {
    var q := Query(Layer(links, 0), dist, ef);
    && Descends(links, dist, maxLevel, 1, entry, ep)
    && (exists results :: Settled(q, {ep}, {}, results) && chosen == Take(Filter(results, live), topK))
    && (|ReachableSet(q.adj, {ep})| <= Cap(q) ==>
          NearestOf(dist, (set v | v in ReachableSet(q.adj, {ep}) && live(v)), topK, chosen))
  }

  lemma SearchMade(links: seq<seq<seq<nat>>>, dist: nat -> real, entry: nat, maxLevel: nat, ef: nat, topK: nat,
                   live: nat -> bool, ep: nat, results: seq<Cand>)
    requires Descends(links, dist, maxLevel, 1, entry, ep)
    requires Settled(Query(Layer(links, 0), dist, ef), {ep}, {}, results)
    ensures SearchedFrom(links, dist, entry, maxLevel, ef, topK, live, ep, Take(Filter(results, live), topK))
    ensures forall c :: c in Take(Filter(results, live), topK) ==> c.local < |links|
  {
    var q := Query(Layer(links, 0), dist, ef);
    var all := ReachableSet(q.adj, {ep});
    assert all - {} == all;
    FilterMembers(results, live);
    if |all| <= Cap(q) {
      FilterTakesNearest(q, results, all, live, topK);
    }
  }

  lemma {:induction false} FilterNothing(s: seq<Cand>, keep: nat -> bool)
    requires forall c :: c in s ==> keep(c.local)
    ensures Filter(s, keep) == s
  {
    if s != [] {
      FilterNothing(s[1..], keep);
      assert s == [s[0]] + s[1..];
    }
  }

  /** Descent through the upper layers, then a search of layer 0. */
  method SearchGraph(links: seq<seq<seq<nat>>>, dist: nat -> real, entry: nat, maxLevel: nat, ef: nat,
                     visited: VisitedStamps, ghost caps: nat -> nat)
    returns (ep: nat, results: seq<Cand>)
    requires Structured(links, caps) && EntryOk(links, entry, maxLevel)
    requires visited.Valid() && !Collides(visited.begins + 1)
    modifies visited
    ensures visited.Valid() && ep < |links|
    ensures Descends(links, dist, maxLevel, 1, entry, ep)
    ensures Settled(Query(Layer(links, 0), dist, ef), {ep}, {}, results)
  {
    ep := DescendTo(links, dist, entry, maxLevel, 1, caps);
    LayerInRange(links, caps, 0);
    results := SearchLayer(Query(Layer(links, 0), dist, ef), ep, visited);
  }
}
