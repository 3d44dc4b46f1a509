/**
 * `db/src/index/mod.rs`: candidates ordered by distance and then by node, and the two binary heaps, each
 * held as the sequence of its elements in order: the min-heap pops the front, the max-heap the back.
 */
module Candidates {

  datatype Cand = Cand(local: nat, dist: real)

  predicate Before(a: Cand, b: Cand) {
    a.dist < b.dist || (a.dist == b.dist && a.local < b.local)
  }

  predicate Ordered(s: seq<Cand>) {
    forall i, j :: 0 <= i < j < |s| ==> Before(s[i], s[j])
  }

  function Worst(s: seq<Cand>): Cand
    requires s != []
  {
    s[|s| - 1]
  }

  /** Heap insertion. */
  function {:induction false} Push(s: seq<Cand>, c: Cand): (r: seq<Cand>)
    requires Ordered(s) && c !in s
    ensures Ordered(r) && |r| == |s| + 1
    ensures forall x :: x in r <==> x == c || x in s
  {
    if s == [] || Before(c, s[0]) then [c] + s
    else
      var rest := Push(s[1..], c);
      assert forall x :: x in s[1..] ==> Before(s[0], x);
      assert s == [s[0]] + s[1..];
      [s[0]] + rest
  }

  /** The worst of a heap is an upper bound. */
  lemma WorstBounds(s: seq<Cand>, c: Cand)
    requires Ordered(s) && c in s
    ensures c == Worst(s) || Before(c, Worst(s))
    ensures c.dist <= Worst(s).dist
  {
  }

  lemma WorstBoundsAll(s: seq<Cand>)
    requires Ordered(s) && s != []
    ensures forall c :: c in s ==> c.dist <= Worst(s).dist
  {
    forall c | c in s ensures c.dist <= Worst(s).dist {
      WorstBounds(s, c);
    }
  }

  /** Popping the worst loses only the worst. */
  lemma PopWorst(s: seq<Cand>)
    requires Ordered(s) && s != []
    ensures Ordered(s[..|s| - 1])
    ensures forall x :: x in s[..|s| - 1] <==> x in s && x != Worst(s)
  {
    forall x | x in s && x != Worst(s) ensures x in s[..|s| - 1] {
      var i :| 0 <= i < |s| && s[i] == x;
      assert s[..|s| - 1][i] == x;
    }
    var kept := s[..|s| - 1];
    forall x | x in kept ensures x != Worst(s) {
      var i :| 0 <= i < |s| - 1 && s[i] == x;
      assert Before(s[i], Worst(s));
    }
  }

  /** Popping the best loses only the best. */
  lemma PopBest(s: seq<Cand>)
    requires Ordered(s) && s != []
    ensures Ordered(s[1..])
    ensures forall x :: x in s[1..] <==> x in s && x != s[0]
  {
    assert s == [s[0]] + s[1..];
  }

  function Locals(s: seq<Cand>): (r: set<nat>)
  {
    set c | c in s :: c.local
  }
}
