/**
 * How a new node of a layered graph picks its neighbours and how they link back to it: `greedy_select` and
 * `prune_by_dist` (`db/src/sketch_hnsw.rs`), `select_neighbors_heuristic` and `prune_links`
 * (`db/src/index/hnsw.rs`).
 */
module Neighbours {
  import opened Candidates
  import opened Sorting

  // ----- Sorting what is sorted -----

  lemma {:induction false} SortOfSorted<T>(s: seq<T>, key: T -> real)
    requires SortedBy(s, key)
    ensures SortBy(s, key) == s
  {
    if s != [] {
      SortOfSorted(s[1..], key);
      assert s == [s[0]] + s[1..];
      if |s| > 1 {
        assert s[1..][0] == s[1];
      }
    }
  }

  lemma OrderedSorts(s: seq<Cand>)
    requires Ordered(s)
    ensures SortBy(s, (c: Cand) => c.dist) == s
  {
    SortOfSorted(s, (c: Cand) => c.dist);
  }

  // ----- Diverse selection -----

  /** Some earlier pick is at least as close to `c` as the node that is picking. */
  predicate Shadowed(between: (nat, nat) -> real, out: seq<Cand>, c: Cand) {
    exists s :: s in out && Before(s, c) && between(s.local, c.local) <= c.dist
  }

  /**
   * A greedy selection from the candidates that `may` be picked: no pick is shadowed by an earlier one, and
   * what is passed over is shadowed or comes after `cap` picks.
   */
  predicate Diverse(between: (nat, nat) -> real, sorted: seq<Cand>, may: nat -> bool, cap: nat, out: seq<Cand>) {
    && Ordered(out) && |out| <= cap
    && (forall c :: c in out ==> c in sorted && may(c.local) && !Shadowed(between, out, c))
    && forall c :: c in sorted && may(c.local) && c !in out ==>
         Shadowed(between, out, c) || (|out| == cap && forall s :: s in out ==> Before(s, c))
  }

  /** The closest candidate is always picked, first. */
  lemma ClosestPicked(between: (nat, nat) -> real, sorted: seq<Cand>, may: nat -> bool, cap: nat, out: seq<Cand>,
                      c: Cand)
    requires Diverse(between, sorted, may, cap, out) && cap > 0 && c in sorted && may(c.local)
    ensures out != [] && (c == out[0] || Before(out[0], c))
  {
    if c !in out && Shadowed(between, out, c) {
      var s :| s in out && Before(s, c) && between(s.local, c.local) <= c.dist;
      assert s == out[0] || Before(out[0], s);
    }
  }

  /** A later pick shadows nothing that comes before it. */
  lemma ShadowGrows(between: (nat, nat) -> real, out: seq<Cand>, c: Cand)
    requires forall s :: s in out ==> Before(s, c)
    ensures forall x :: Shadowed(between, out, x) ==> Shadowed(between, out + [c], x)
    ensures forall x :: x == c || x in out ==> (Shadowed(between, out + [c], x) <==> Shadowed(between, out, x))
  {
    forall x | Shadowed(between, out, x) ensures Shadowed(between, out + [c], x) {
      var s :| s in out && Before(s, x) && between(s.local, x.local) <= x.dist;
      assert s in out + [c];
    }
    forall x | (x == c || x in out) && Shadowed(between, out + [c], x) ensures Shadowed(between, out, x) {
      var s :| s in out + [c] && Before(s, x) && between(s.local, x.local) <= x.dist;
      assert s != c;
    }
  }

  /** The selection so far, from the candidates looked at. */
  ghost predicate Picking(between: (nat, nat) -> real, done: seq<Cand>, may: nat -> bool, out: seq<Cand>) {
    && Ordered(out)
    && (forall c :: c in out ==> c in done && may(c.local) && !Shadowed(between, out, c))
    && (forall c :: c in done && may(c.local) && c !in out ==> Shadowed(between, out, c))
  }

  lemma PickingOn(between: (nat, nat) -> real, sorted: seq<Cand>, i: nat, may: nat -> bool, out: seq<Cand>)
    requires Ordered(sorted) && i < |sorted| && Picking(between, sorted[..i], may, out)
    ensures (forall s :: s in out ==> between(s.local, sorted[i].local) > sorted[i].dist) <==>
            !Shadowed(between, out, sorted[i])
    ensures Picking(between, sorted[..i + 1], may,
                    if may(sorted[i].local) && !Shadowed(between, out, sorted[i]) then out + [sorted[i]] else out)
  {
    var c := sorted[i];
    assert sorted[..i + 1] == sorted[..i] + [c];
    forall s | s in out ensures Before(s, c) {
      assert s in sorted[..i];
    }
    ShadowGrows(between, out, c);
  }

  method PickDiverse(between: (nat, nat) -> real, sorted: seq<Cand>, may: nat -> bool, cap: nat)
    returns (out: seq<Cand>)
    requires Ordered(sorted)
    ensures Diverse(between, sorted, may, cap, out)
  {
    out := [];
    var i := 0;
    while i < |sorted| && |out| < cap
      invariant i <= |sorted| && |out| <= cap && Picking(between, sorted[..i], may, out)
    {
      PickingOn(between, sorted, i, may, out);
      if may(sorted[i].local) && forall s :: s in out ==> between(s.local, sorted[i].local) > sorted[i].dist {
        out := out + [sorted[i]];
      }
      i := i + 1;
    }
    PassedOver(between, sorted, may, cap, out, i);
  }

  lemma PassedOver(between: (nat, nat) -> real, sorted: seq<Cand>, may: nat -> bool, cap: nat, out: seq<Cand>, i: nat)
    requires Ordered(sorted) && i <= |sorted| && |out| <= cap
    requires Picking(between, sorted[..i], may, out)
    requires i == |sorted| || |out| == cap
    ensures Diverse(between, sorted, may, cap, out)
  {
    forall c | c in sorted && c !in sorted[..i] ensures forall s :: s in out ==> Before(s, c) {
      assert sorted == sorted[..i] + sorted[i..];
      var k :| 0 <= k < |sorted[i..]| && sorted[i..][k] == c;
    }
    if i == |sorted| {
      assert sorted[..i] == sorted;
    }
  }

  /** The first candidate other than `base`, if there is one. */
  method FirstOther(sorted: seq<Cand>, base: nat) returns (out: seq<Cand>)
    ensures out == [] ==> forall c :: c in sorted ==> c.local == base
    ensures out != [] ==> exists i :: 0 <= i < |sorted| && FirstAt(sorted, base, i) && out == [sorted[i]]
  {
    out := [];
    var i := 0;
    while i < |sorted| && out == []
      invariant i <= |sorted|
      invariant forall j :: 0 <= j < (if out == [] then i else i - 1) ==> sorted[j].local == base
      invariant out != [] ==> i > 0 && FirstAt(sorted, base, i - 1) && out == [sorted[i - 1]]
    {
      if sorted[i].local != base {
        out := [sorted[i]];
      }
      i := i + 1;
    }
  }

  predicate FirstAt(sorted: seq<Cand>, base: nat, i: nat)
    requires i < |sorted|
  {
    sorted[i].local != base && forall j :: 0 <= j < i ==> sorted[j].local == base
  }

  /** `greedy_select`: with room for none, the closest candidate is still picked. */
  method GreedySelect(between: (nat, nat) -> real, base: nat, cands: seq<Cand>, cap: nat) returns (out: seq<Cand>)
    requires Ordered(cands)
    ensures cap > 0 ==> Diverse(between, cands, v => v != base, cap, out)
    ensures cap == 0 ==> |out| <= 1
    ensures forall c :: c in out ==> c in cands && c.local != base
    ensures forall c :: c in cands && c.local != base ==> out != [] && (c == out[0] || Before(out[0], c))
  {
    OrderedSorts(cands);
    var sorted := SortBy(cands, (c: Cand) => c.dist);
    out := PickDiverse(between, sorted, v => v != base, cap);
    ghost var picked := out;
    if out == [] {
      out := FirstOther(sorted, base);
    }
    if cap > 0 {
      forall c | c in cands && c.local != base ensures picked != [] && (c == picked[0] || Before(picked[0], c)) {
        ClosestPicked(between, cands, v => v != base, cap, picked, c);
      }
    }
  }

  /** `more` are the first candidates, in order, that `first` left over, as many as fit. */
  predicate FillsUp(cands: seq<Cand>, first: seq<Cand>, more: seq<Cand>, cap: nat) {
    && |first| + |more| == (if cap < |cands| then cap else |cands|)
    && Ordered(more) && (forall c :: c in more ==> c in cands && c !in first)
    && forall c, x :: c in cands && c !in first && c !in more && x in more ==> Before(x, c)
  }

  /** A diverse selection, topped up in order of distance to as many as there are or fit. */
  ghost predicate ToppedUp(between: (nat, nat) -> real, cands: seq<Cand>, cap: nat, picks: seq<Cand>) {
    exists k :: 0 <= k <= |picks| && Diverse(between, cands, v => true, cap, picks[..k]) &&
                FillsUp(cands, picks[..k], picks[k..], cap)
  }

  // ----- Linking back -----

  /** The `cap` members of a list with the smallest keys. */
  predicate Trimmed(key: nat -> real, list: seq<nat>, cap: nat, out: seq<nat>) {
    && |out| == (if cap < |list| then cap else |list|) && Distinct(out)
    && (forall x :: x in out ==> x in list)
    && forall x, y :: x in list && x !in out && y in out ==> key(y) <= key(x)
  }

  lemma {:induction false} WithoutNothing(list: seq<nat>, node: nat)
    requires node !in list
    ensures Without(list + [node], node) == list
  {
    if list == [] {
      assert Without([], node) == [];
    } else {
      WithoutNothing(list[1..], node);
      assert (list + [node])[1..] == list[1..] + [node];
    }
  }

  lemma TakenSmallest(key: nat -> real, sorted: seq<nat>, cap: nat, x: nat, y: nat)
    requires SortedBy(sorted, key) && x in sorted && x !in Take(sorted, cap) && y in Take(sorted, cap)
    ensures key(y) <= key(x)
  {
    var i :| 0 <= i < |sorted| && sorted[i] == x;
    assert forall h :: 0 <= h < |Take(sorted, cap)| ==> Take(sorted, cap)[h] == sorted[h];
  }

  lemma SortTrims(key: nat -> real, list: seq<nat>, cap: nat)
    requires Distinct(list)
    ensures Trimmed(key, list, cap, Take(SortBy(list, key), cap))
  {
    var sorted := SortBy(list, key);
    SortBySorts(list, key);
    PermutationDistinct(list, sorted);
    forall x, y | x in list && x !in Take(sorted, cap) && y in Take(sorted, cap) ensures key(y) <= key(x) {
      TakenSmallest(key, sorted, cap, x, y);
    }
  }

  /** What `local` does to the list of a neighbour: appended, and trimmed if the list overflows. */
  predicate LinkedBack(key: nat -> real, list: seq<nat>, local: nat, cap: nat, out: seq<nat>) {
    if |list| < cap then out == list + [local] else Trimmed(key, list + [local], cap, out)
  }

  /** Trimming never lengthens and never invents. */
  lemma LinkedBackOk(key: nat -> real, list: seq<nat>, local: nat, cap: nat, out: seq<nat>)
    requires LinkedBack(key, list, local, cap, out) && Distinct(list) && local !in list && |list| <= cap
    ensures Distinct(out) && |out| <= cap && forall x :: x in out ==> x == local || x in list
  {
  }

  /** `prune_by_dist`: the pool may list the node itself, which is left out. */
  method PruneByDist(key: nat -> real, node: nat, pool: seq<nat>, cap: nat) returns (out: seq<nat>)
    requires Distinct(Without(pool, node))
    ensures Trimmed(key, Without(pool, node), cap, out)
  {
    var others := Without(pool, node);
    SortTrims(key, others, cap);
    out := Take(SortBy(others, key), cap);
  }

  /** `prune_links`. */
  method PruneLinks(key: nat -> real, list: seq<nat>, cap: nat) returns (out: seq<nat>)
    requires Distinct(list)
    ensures Trimmed(key, list, cap, out)
  {
    SortTrims(key, list, cap);
    out := Take(SortBy(list, key), cap);
  }

  // ----- Topping up -----

  /** No two candidates for the same node. */
  predicate Named(s: seq<Cand>) {
    forall a, b :: a in s && b in s && a.local == b.local ==> a == b
  }

  /** `more` are exactly the members of `done` that `first` left over. */
  ghost predicate LeftOver(done: seq<Cand>, first: seq<Cand>, more: seq<Cand>) {
    Ordered(more) && forall c :: c in more <==> c in done && c !in first
  }

  lemma LeftOverOn(sorted: seq<Cand>, i: nat, first: seq<Cand>, more: seq<Cand>)
    requires Ordered(sorted) && i < |sorted| && LeftOver(sorted[..i], first, more)
    ensures sorted[i] !in more
    ensures LeftOver(sorted[..i + 1], first, if sorted[i] in first then more else more + [sorted[i]])
  {
    assert sorted[..i + 1] == sorted[..i] + [sorted[i]];
    forall c | c in more ensures Before(c, sorted[i]) {
      assert c in sorted[..i];
    }
  }

  lemma OrderedSize(s: seq<Cand>, members: set<Cand>)
    requires Ordered(s) && forall c :: c in s <==> c in members
    ensures |s| == |members|
  {
    DistinctSize(s, members);
  }

  function Elements(s: seq<Cand>): (r: set<Cand>)
    ensures forall c :: c in s <==> c in r
  {
    set c | c in s
  }

  lemma LeftOverParts(sorted: seq<Cand>, i: nat, first: seq<Cand>, more: seq<Cand>)
    requires i <= |sorted| && LeftOver(sorted[..i], first, more) && forall c :: c in first ==> c in sorted
    ensures Elements(first) !! Elements(more) && Elements(first) + Elements(more) <= Elements(sorted)
    ensures i == |sorted| ==> Elements(first) + Elements(more) == Elements(sorted)
  {
    if i == |sorted| {
      assert sorted[..i] == sorted;
    }
  }

  lemma LeftOverCount(sorted: seq<Cand>, i: nat, first: seq<Cand>, more: seq<Cand>)
    requires Ordered(sorted) && i <= |sorted| && LeftOver(sorted[..i], first, more)
    requires Ordered(first) && forall c :: c in first ==> c in sorted
    ensures |first| + |more| <= |sorted|
    ensures i == |sorted| ==> |first| + |more| == |sorted|
  {
    OrderedSize(sorted, Elements(sorted));
    OrderedSize(first, Elements(first));
    OrderedSize(more, Elements(more));
    LeftOverParts(sorted, i, first, more);
    DisjointCount(Elements(first), Elements(more), Elements(sorted));
  }

  lemma DisjointCount(one: set<Cand>, two: set<Cand>, all: set<Cand>)
    requires one !! two && one + two <= all
    ensures |one| + |two| <= |all|
    ensures one + two == all ==> |one| + |two| == |all|
  {
    SubsetSize(one + two, all);
  }

  lemma LeftOverFills(sorted: seq<Cand>, i: nat, first: seq<Cand>, more: seq<Cand>, cap: nat)
    requires Ordered(sorted) && i <= |sorted| && LeftOver(sorted[..i], first, more)
    requires Ordered(first) && forall c :: c in first ==> c in sorted
    requires |first| + |more| <= cap && (i == |sorted| || |first| + |more| == cap)
    ensures FillsUp(sorted, first, more, cap)
  {
    LeftOverCount(sorted, i, first, more);
    forall c, x | c in sorted && c !in first && c !in more && x in more ensures Before(x, c) {
      assert c !in sorted[..i] && x in sorted[..i];
      assert sorted == sorted[..i] + sorted[i..];
      var k :| 0 <= k < |sorted[i..]| && sorted[i..][k] == c;
    }
  }

  method TopUp(sorted: seq<Cand>, first: seq<Cand>, cap: nat) returns (more: seq<Cand>)
    requires Ordered(sorted) && Named(sorted) && Ordered(first) && |first| <= cap
    requires forall c :: c in first ==> c in sorted
    ensures FillsUp(sorted, first, more, cap)
  {
    more := [];
    var i := 0;
    while i < |sorted| && |first| + |more| < cap
      invariant i <= |sorted| && |first| + |more| <= cap
      invariant LeftOver(sorted[..i], first, more)
    {
      LeftOverOn(sorted, i, first, more);
      if forall s :: s in first + more ==> s.local != sorted[i].local {
        assert sorted[i] !in first;
        more := more + [sorted[i]];
      } else {
        assert sorted[i] in first;
      }
      i := i + 1;
    }
    LeftOverFills(sorted, i, first, more, cap);
  }

  lemma ToppedUpDistinct(between: (nat, nat) -> real, cands: seq<Cand>, cap: nat, first: seq<Cand>, more: seq<Cand>)
    requires Diverse(between, cands, v => true, cap, first) && FillsUp(cands, first, more, cap)
    ensures ToppedUp(between, cands, cap, first + more) && Distinct(first + more)
    ensures |first + more| == (if cap < |cands| then cap else |cands|)
    ensures forall c :: c in first + more ==> c in cands
  {
    var picks := first + more;
    assert picks[..|first|] == first && picks[|first|..] == more;
  }

  /** `select_neighbors_heuristic`. */
  method SelectHeuristic(between: (nat, nat) -> real, cands: seq<Cand>, cap: nat) returns (out: seq<Cand>)
    requires Ordered(cands) && Named(cands)
    ensures ToppedUp(between, cands, cap, out) && Distinct(out)
    ensures |out| == (if cap < |cands| then cap else |cands|)
    ensures forall c :: c in out ==> c in cands
  {
    OrderedSorts(cands);
    var sorted := SortBy(cands, (c: Cand) => c.dist);
    out := PickDiverse(between, sorted, v => true, cap);
    ghost var first := out;
    var more: seq<Cand> := [];
    if |out| < cap {
      more := TopUp(sorted, out, cap);
      out := out + more;
    } else {
      FullIsFilled(sorted, first, cap);
      assert first + more == out;
    }
    ToppedUpDistinct(between, cands, cap, first, more);
  }

  lemma FullIsFilled(sorted: seq<Cand>, first: seq<Cand>, cap: nat)
    requires Ordered(sorted) && Ordered(first) && |first| == cap && forall c :: c in first ==> c in sorted
    ensures FillsUp(sorted, first, [], cap)
  {
    LeftOverCount(sorted, 0, first, []);
  }
}
