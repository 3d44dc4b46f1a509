/** `db/src/sketch_hnsw.rs`: the layered graph over sketches that serves a collection's recall. */
module SketchHnsws {
  import opened Answers
  import opened Beams
  import opened Candidates
  import opened Graphs
  import opened Joining
  import opened Layers
  import opened Linking
  import opened Neighbours
  import opened Sorting
  import opened VisitedSets

  /** Global ids and scores, in the order found. */
  function Scored(ids: seq<nat>, chosen: seq<Cand>): (r: seq<(nat, real)>)
    requires forall i :: 0 <= i < |chosen| ==> chosen[i].local < |ids|
    ensures |r| == |chosen| && forall i :: 0 <= i < |r| ==> r[i] == (ids[chosen[i].local], 1.0 - chosen[i].dist)
  {
    seq(|chosen|, i requires 0 <= i < |chosen| => (ids[chosen[i].local], 1.0 - chosen[i].dist))
  }

  /** Each pair is the id of the item chosen and one minus the item's distance to the query. */
  ghost predicate ScoredBy<S(!new)>(distance: (S, S) -> real, items: seq<S>, q: S, ids: seq<nat>, chosen: seq<Cand>,
                                    found: seq<(nat, real)>) {
    && |found| == |chosen|
    && forall k :: 0 <= k < |found| ==>
         && chosen[k].local < |items| && chosen[k].local < |ids|
         && found[k] == (ids[chosen[k].local], 1.0 - distance(q, items[chosen[k].local]))
  }

  lemma ScoredIs<S(!new)>(distance: (S, S) -> real, items: seq<S>, q: S, ids: seq<nat>, chosen: seq<Cand>)
    requires |ids| == |items| && forall k :: 0 <= k < |chosen| ==>
               chosen[k].local < |items| && chosen[k].dist == distance(q, items[chosen[k].local])
    ensures ScoredBy(distance, items, q, ids, chosen, Scored(ids, chosen))
  {
  }

  class SketchHnsw<S(!new)> {
    const distance: (S, S) -> real
    const m: nat
    const m0: nat
    const visited: VisitedStamps
    var efSearch: nat
    var entry: int
    var maxLevel: nat
    var sketches: seq<S>
    var ids: seq<nat>
    var links: seq<seq<seq<nat>>>

    /** The degree bound of a layer. */
    ghost function Caps(): nat -> nat {
      (lc: nat) => if lc == 0 then m0 else m
    }

    /** The structure of the graph. */
    ghost predicate GraphOk()
      reads this`links, this`entry, this`maxLevel, visited
    {
      && visited.Valid() && m > 0 && m0 > 0
      && Structured(links, Caps()) && EntryOk(links, entry, maxLevel) && maxLevel <= 63
    }

    ghost predicate Valid()
      reads this, visited
    {
      |sketches| == |ids| == |links| && GraphOk()
    }

    constructor (distance: (S, S) -> real)
      ensures Valid() && sketches == [] && m == 8 && m0 == 16 && efSearch == 64 && fresh(visited)
    {
      this.distance, m, m0, efSearch := distance, 8, 16, 64;
      entry, maxLevel, sketches, ids, links := -1, 0, [], [], [];
      visited := new VisitedStamps();
    }

    function Between(): (between: (nat, nat) -> real)
      reads this`sketches
      ensures Measures(between, distance, sketches)
    {
      var items, d := sketches, distance;
      (a: nat, b: nat) => if a < |items| && b < |items| then d(items[a], items[b]) else 0.0
    }

    /** The same for a graph that is not empty. */
    method GrowMore(level: nat, between: (nat, nat) -> real)
      returns (ghost stop: nat, ghost trail: seq<Step>)
      requires GraphOk() && level <= 63 && links != [] && Room(visited.begins, level + 1)
      modifies this`links, this`entry, this`maxLevel, visited
      ensures GraphOk() && |links| == old(|links|) + 1
      ensures (entry, maxLevel) == if level > old(maxLevel) then (old(|links|), level) else old((entry, maxLevel))
      ensures (stop, trail) in Insertions(Grown(old(links), level), links, old(|links|), level, old(entry),
                                          old(maxLevel), efSearch, Geometry(OverSketches, between, between), Caps())
    {
      var id := |links|;
      links, stop, trail := InsertNode(links, level, entry, maxLevel, efSearch,
                                       Geometry(OverSketches, between, between), m, m0, visited, Caps());
      if level > maxLevel {
        maxLevel, entry := level, id;
      }
    }

    /** The graph's part of an insertion, once the new item is stored. */
    method Grow(level: nat, between: (nat, nat) -> real) returns (ghost stop: nat, ghost trail: seq<Step>)
      requires GraphOk() && level <= 63 && Room(visited.begins, level + 1)
      modifies this`links, this`entry, this`maxLevel, visited
      ensures GraphOk() && |links| == old(|links|) + 1
      ensures (entry, maxLevel) ==
              if old(links) == [] || level > old(maxLevel) then (old(|links|), level) else old((entry, maxLevel))
      ensures old(links) == [] ==> links == Grown([], level)
      ensures old(links) != [] ==>
                (stop, trail) in Insertions(Grown(old(links), level), links, old(|links|), level, old(entry),
                                            old(maxLevel), efSearch, Geometry(OverSketches, between, between), Caps())
    {
      var local := |links|;
      stop, trail := 0, [];
      if entry < 0 {
        FirstNode(level, Caps());
        links, entry, maxLevel := Grown(links, level), local, level;
        return;
      }
      stop, trail := GrowMore(level, between);
    }

    method Store(gid: nat, sk: S) returns (local: nat)
      modifies this`sketches, this`ids
      ensures local == |old(sketches)| && sketches == old(sketches) + [sk] && ids == old(ids) + [gid]
    {
      local := |sketches|;
      sketches, ids := sketches + [sk], ids + [gid];
    }

    method Insert(gid: nat, sk: S, level: nat)
      returns (local: nat, ghost stop: nat, ghost trail: seq<Step>, ghost between: (nat, nat) -> real)
      requires Valid() && level <= 63 && Room(visited.begins, level + 1)
      modifies this, visited
      ensures Valid() && local == old(|links|)
      ensures sketches == old(sketches) + [sk] && ids == old(ids) + [gid] && efSearch == old(efSearch)
      ensures (entry, maxLevel) == if old(links) == [] || level > old(maxLevel) then (local, level)
              else old((entry, maxLevel))
      ensures old(links) == [] ==> links == Grown([], level)
      ensures Measures(between, distance, sketches)
      ensures old(links) != [] ==>
                (stop, trail) in Insertions(Grown(old(links), level), links, old(|links|), level,
                                            old(entry), old(maxLevel),
                                            efSearch, Geometry(OverSketches, between, between), Caps())
    {
      local := Store(gid, sk);
      var d := Between();
      between := d;
      stop, trail := Grow(level, d);
    }

    /**
     * Every pair found is the id of a stored sketch that is alive and its score, one minus its distance; the best
     * come first. If the width covers what is reachable where the descent stops, no live reachable sketch that was
     * left out is nearer to the query than one that was found.
     */
    method Search(q: S, topK: nat, alive: nat -> bool) returns (found: seq<(nat, real)>, ghost a: Answer)
      requires Valid() && Room(visited.begins, 1)
      modifies visited
      ensures Valid() && (links == [] ==> found == [])
      ensures forall v: nat :: a.may(v) <==> v < |ids| && alive(ids[v])
      ensures ScoredBy(distance, sketches, q, ids, a.chosen, found)
      ensures links != [] ==>
                NearestAnswer(distance, sketches, q, links, entry, maxLevel,
                              if efSearch > topK * 2 then efSearch else topK * 2, topK, a)
    {
      var gids := ids;
      var live := (v: nat) => v < |gids| && alive(gids[v]);
      if sketches == [] || entry < 0 {
        return [], Answer(0, _ => 0.0, live, []);
      }
      var kept;
      kept, a := AnswerQuery(distance, sketches, q, links, entry, maxLevel,
                             if efSearch > topK * 2 then efSearch else topK * 2, topK, live, visited, Caps());
      found := Scored(ids, kept);
      ScoredIs(distance, sketches, q, ids, kept);
    }
  }
}
