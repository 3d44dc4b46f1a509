/**
 * `db/src/index/hnsw.rs`: the layered graph over dense vectors. Stored vectors are compared by `distance`; a search
 * rates them by `rating`, which differs from it under the cosine metric only.
 */
module Hnsws {
  import opened Answers
  import opened Beams
  import opened Candidates
  import opened Graphs
  import opened Joining
  import opened Layers
  import opened Linking
  import opened Neighbours
  import opened Sorting
  import opened VisitedSets

  class Hnsw<V(!new)> {
    const distance: (V, V) -> real
    const rating: (V, V) -> real
    const m: nat
    const m0: nat
    const visited: VisitedStamps
    var efSearch: nat
    var entry: int
    var maxLevel: nat
    var rows: seq<V>
    var links: seq<seq<seq<nat>>>

    /** The degree bound of a layer. */
    ghost function Caps(): nat -> nat {
      (lc: nat) => if lc == 0 then m0 else m
    }

    /** The structure of the graph. */
    ghost predicate GraphOk()
      reads this`links, this`entry, this`maxLevel, visited
    {
      && visited.Valid() && m > 0 && m0 > 0
      && Structured(links, Caps()) && EntryOk(links, entry, maxLevel) && maxLevel <= 63
    }

    ghost predicate Valid()
      reads this, visited
    {
      |rows| == |links| && GraphOk()
    }

    constructor (m: nat, efSearch: nat, distance: (V, V) -> real, rating: (V, V) -> real)
      ensures Valid() && rows == [] && fresh(visited)
      ensures this.distance == distance && this.rating == rating
      ensures this.m == (if m > 2 then m else 2) && this.m0 == 2 * this.m
      ensures this.efSearch == (if efSearch > 1 then efSearch else 1)
    {
      var m' := if m > 2 then m else 2;
      this.distance, this.rating, this.m, this.m0 := distance, rating, m', 2 * m';
      this.efSearch := if efSearch > 1 then efSearch else 1;
      entry, maxLevel, rows, links := -1, 0, [], [];
      visited := new VisitedStamps();
    }

    function Between(): (between: (nat, nat) -> real)
      reads this`rows
      ensures Measures(between, distance, rows)
    {
      var items, d := rows, distance;
      (a: nat, b: nat) => if a < |items| && b < |items| then d(items[a], items[b]) else 0.0
    }

    function Rate(): (rate: (nat, nat) -> real)
      reads this`rows
      ensures Measures(rate, rating, rows)
    {
      var items, d := rows, rating;
      (a: nat, b: nat) => if a < |items| && b < |items| then d(items[a], items[b]) else 0.0
    }

    /** The same for a graph that is not empty. */
    method GrowMore(level: nat, between: (nat, nat) -> real, rate: (nat, nat) -> real)
      returns (ghost stop: nat, ghost trail: seq<Step>)
      requires GraphOk() && level <= 63 && links != [] && Room(visited.begins, level + 1)
      modifies this`links, this`entry, this`maxLevel, visited
      ensures GraphOk() && |links| == old(|links|) + 1
      ensures (entry, maxLevel) == if level > old(maxLevel) then (old(|links|), level) else old((entry, maxLevel))
      ensures (stop, trail) in Insertions(Grown(old(links), level), links, old(|links|), level, old(entry),
                                          old(maxLevel), if efSearch > m * 2 then efSearch else m * 2,
                                          Geometry(Dense, between, rate), Caps())
    {
      var id := |links|;
      links, stop, trail := InsertNode(links, level, entry, maxLevel, if efSearch > m * 2 then efSearch else m * 2,
                                       Geometry(Dense, between, rate), m, m0, visited, Caps());
      if level > maxLevel {
        maxLevel, entry := level, id;
      }
    }

    /** The graph's part of an insertion, once the new item is stored. */
    method Grow(level: nat, between: (nat, nat) -> real, rate: (nat, nat) -> real)
      returns (ghost stop: nat, ghost trail: seq<Step>)
      requires GraphOk() && level <= 63 && Room(visited.begins, level + 1)
      modifies this`links, this`entry, this`maxLevel, visited
      ensures GraphOk() && |links| == old(|links|) + 1
      ensures (entry, maxLevel) ==
              if old(links) == [] || level > old(maxLevel) then (old(|links|), level) else old((entry, maxLevel))
      ensures old(links) == [] ==> links == Grown([], level)
      ensures old(links) != [] ==>
                (stop, trail) in Insertions(Grown(old(links), level), links, old(|links|), level, old(entry),
                                            old(maxLevel), if efSearch > m * 2 then efSearch else m * 2,
                                            Geometry(Dense, between, rate), Caps())
    {
      var id := |links|;
      stop, trail := 0, [];
      if entry < 0 {
        FirstNode(level, Caps());
        links, entry, maxLevel := Grown(links, level), id, level;
        return;
      }
      stop, trail := GrowMore(level, between, rate);
    }

    method Insert(row: V, level: nat)
      returns (id: nat, ghost stop: nat, ghost trail: seq<Step>, ghost between: (nat, nat) -> real,
               ghost rate: (nat, nat) -> real)
      requires Valid() && level <= 63 && Room(visited.begins, level + 1)
      modifies this, visited
      ensures Valid() && id == old(|links|)
      ensures rows == old(rows) + [row] && efSearch == old(efSearch)
      ensures (entry, maxLevel) == if old(links) == [] || level > old(maxLevel) then (id, level)
              else old((entry, maxLevel))
      ensures old(links) == [] ==> links == Grown([], level)
      ensures Measures(between, distance, rows) && Measures(rate, rating, rows)
      ensures old(links) != [] ==>
                (stop, trail) in Insertions(Grown(old(links), level), links, id, level, old(entry), old(maxLevel),
                                            if efSearch > m * 2 then efSearch else m * 2,
                                            Geometry(Dense, between, rate), Caps())
    {
      id, stop, trail := |rows|, 0, [];
      rows := rows + [row];
      var d, q := Between(), Rate();
      between, rate := d, q;
      stop, trail := Grow(level, d, q);
    }

    /**
     * Every pair found is a stored row and its rating, best first. If the width covers what is reachable where the
     * descent stops, no reachable row that was left out is rated better than one that was found.
     */
    method Search(query: V, topK: nat) returns (found: seq<(nat, real)>, ghost a: Answer)
      requires Valid() && Room(visited.begins, 1)
      modifies visited
      ensures Valid() && (links == [] ==> found == [])
      ensures forall v: nat :: v < |rows| ==> a.may(v)
      ensures |found| == |a.chosen|
      ensures forall k :: 0 <= k < |found| ==>
                var v := a.chosen[k].local; v < |rows| && found[k] == (v, rating(query, rows[v]))
      ensures links != [] ==>
                NearestAnswer(rating, rows, query, links, entry, maxLevel, if efSearch > topK then efSearch else topK,
                              topK, a)
    {
      var n := |rows|;
      if rows == [] {
        return [], Answer(0, _ => 0.0, v => v < n, []);
      }
      var kept;
      kept, a := AnswerQuery(rating, rows, query, links, entry, maxLevel, if efSearch > topK then efSearch else topK,
                             topK, v => v < n, visited, Caps());
      found := seq(|kept|, k requires 0 <= k < |kept| => (kept[k].local, kept[k].dist));
    }
  }
}
