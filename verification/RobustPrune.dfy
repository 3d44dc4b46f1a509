/** `robust_prune` (`db/src/index/vamana.rs`): which candidates a node of the single-layer graph keeps. */
module RobustPruning {
  import opened Linking
  import opened Neighbours
  import opened Sorting

  /**
   * The distance between two nodes that pruning goes by, how a search for one node rates another, which
   * under the dot product has the opposite sign, and how much slack the pruning allows.
   */
  datatype Rule = Rule(between: (nat, nat) -> real, rate: (nat, nat) -> real, alpha: real, r: nat)

  /** A kept node is close enough to `c` to make the edge to it redundant. */
  predicate Dominated(rule: Rule, point: nat, kept: seq<nat>, c: nat) {
    exists x :: x in kept && rule.between(x, c) * rule.alpha < rule.between(point, c)
  }

  /**
   * A greedy prefix of `k` nodes in order of distance, none dominated by the ones before it; every other
   * candidate is dominated by them or comes after a full list.
   */
  ghost predicate GreedyPrefix(rule: Rule, point: nat, others: seq<nat>, kept: seq<nat>) {
    && SortedBy(kept, Key(rule.between, point))
    && (forall j :: 0 <= j < |kept| ==> !Dominated(rule, point, kept[..j], kept[j]))
    && forall c :: c in others && c !in kept ==>
         Dominated(rule, point, kept, c) ||
         (|kept| == rule.r && forall x :: x in kept ==> rule.between(point, x) <= rule.between(point, c))
  }

  /** The rest of the list: the closest of the dominated candidates, in order. */
  ghost predicate Topping(rule: Rule, point: nat, others: seq<nat>, kept: seq<nat>, more: seq<nat>) {
    && SortedBy(more, Key(rule.between, point))
    && (forall x :: x in more ==> Dominated(rule, point, kept, x))
    && forall c, x :: c in others && c !in kept && c !in more && x in more ==>
         rule.between(point, x) <= rule.between(point, c)
  }

  /** What a pruned list is: few candidates are kept as they are, many are selected. */
  ghost predicate Pruned(rule: Rule, point: nat, cands: seq<nat>, out: seq<nat>) {
    var others := Without(cands, point);
    && Distinct(out) && |out| == (if rule.r < |others| then rule.r else |others|)
    && (forall x :: x in out ==> x in others)
    && if |cands| <= rule.r then out == others
       else exists k :: 0 <= k <= |out| && GreedyPrefix(rule, point, others, out[..k]) &&
                        Topping(rule, point, others, out[..k], out[k..])
  }

  lemma {:induction false} WithoutMembers(list: seq<nat>, node: nat)
    ensures forall x :: x in Without(list, node) <==> x in list && x != node
    ensures |Without(list, node)| <= |list|
    ensures node !in list ==> Without(list, node) == list
  {
    if list != [] {
      WithoutMembers(list[1..], node);
      assert list == [list[0]] + list[1..];
    }
  }

  lemma {:induction false} WithoutDistinct(list: seq<nat>, node: nat)
    requires Distinct(list)
    ensures Distinct(Without(list, node))
  {
    if list != [] {
      var head, rest := list[0], list[1..];
      assert Distinct(rest) && head !in rest;
      WithoutDistinct(rest, node);
      WithoutMembers(rest, node);
      PrependDistinct(head, Without(rest, node));
    }
  }

  lemma PrependDistinct(x: nat, s: seq<nat>)
    requires Distinct(s) && x !in s
    ensures Distinct([x] + s) && [] + s == s
  {
  }

  // ----- The greedy loop -----

  /** The first candidates, split into kept and discarded. */
  ghost predicate Split(rule: Rule, point: nat, done: seq<nat>, kept: seq<nat>, discarded: seq<nat>) {
    && |kept| + |discarded| == |done| && Distinct(kept + discarded)
    && (forall x :: x in done <==> x in kept || x in discarded)
    && SortedBy(kept, Key(rule.between, point)) && SortedBy(discarded, Key(rule.between, point))
    && (forall j :: 0 <= j < |kept| ==> !Dominated(rule, point, kept[..j], kept[j]))
    && (forall x :: x in discarded ==> Dominated(rule, point, kept, x))
  }

  lemma KeepOn(rule: Rule, point: nat, sorted: seq<nat>, i: nat, kept: seq<nat>, discarded: seq<nat>)
    requires i < |sorted| && Distinct(sorted) && SortedBy(sorted, Key(rule.between, point))
    requires Split(rule, point, sorted[..i], kept, discarded) && !Dominated(rule, point, kept, sorted[i])
    ensures Split(rule, point, sorted[..i + 1], kept + [sorted[i]], discarded)
  {
    AppendFresh(sorted, i, Key(rule.between, point), kept, discarded);
    StillUndominated(rule, point, kept, sorted[i]);
    forall x | x in discarded ensures Dominated(rule, point, kept + [sorted[i]], x) {
      StillDominated(rule, point, kept, sorted[i], x);
    }
  }

  lemma StillUndominated(rule: Rule, point: nat, kept: seq<nat>, c: nat)
    requires forall j :: 0 <= j < |kept| ==> !Dominated(rule, point, kept[..j], kept[j])
    requires !Dominated(rule, point, kept, c)
    ensures forall j :: 0 <= j <= |kept| ==> !Dominated(rule, point, (kept + [c])[..j], (kept + [c])[j])
  {
    forall j | 0 <= j <= |kept| ensures !Dominated(rule, point, (kept + [c])[..j], (kept + [c])[j]) {
      assert (kept + [c])[..j] == kept[..j];
      assert kept[..|kept|] == kept;
    }
  }

  lemma StillDominated(rule: Rule, point: nat, kept: seq<nat>, c: nat, x: nat)
    requires Dominated(rule, point, kept, x)
    ensures Dominated(rule, point, kept + [c], x)
  {
    var y :| y in kept && rule.between(y, x) * rule.alpha < rule.between(point, x);
    assert y in kept + [c];
  }

  lemma DiscardOn(rule: Rule, point: nat, sorted: seq<nat>, i: nat, kept: seq<nat>, discarded: seq<nat>)
    requires i < |sorted| && Distinct(sorted) && SortedBy(sorted, Key(rule.between, point))
    requires Split(rule, point, sorted[..i], kept, discarded) && Dominated(rule, point, kept, sorted[i])
    ensures Split(rule, point, sorted[..i + 1], kept, discarded + [sorted[i]])
  {
    AppendFresh(sorted, i, Key(rule.between, point), kept, discarded);
  }

  /** The next candidate is new and at least as far as all before it. */
  lemma AppendFresh(sorted: seq<nat>, i: nat, key: nat -> real, kept: seq<nat>, discarded: seq<nat>)
    requires i < |sorted| && Distinct(sorted) && SortedBy(sorted, key)
    requires Distinct(kept + discarded) && SortedBy(kept, key) && SortedBy(discarded, key)
    requires forall x :: x in sorted[..i] <==> x in kept || x in discarded
    ensures SortedBy(kept + [sorted[i]], key) && SortedBy(discarded + [sorted[i]], key)
    ensures Distinct(kept + [sorted[i]] + discarded) && Distinct(kept + (discarded + [sorted[i]]))
    ensures forall x :: x in sorted[..i + 1] <==> x == sorted[i] || x in kept || x in discarded
  {
    var c := sorted[i];
    assert sorted[..i + 1] == sorted[..i] + [c];
    assert c !in sorted[..i];
    forall x | x in kept || x in discarded ensures x != c && key(x) <= key(c) {
      var h :| 0 <= h < |sorted[..i]| && sorted[..i][h] == x;
    }
    SplitDistinct(kept, discarded);
    JoinDistinct(kept + [c], discarded);
    JoinDistinct(kept, discarded + [c]);
  }

  lemma SplitDistinct(a: seq<nat>, b: seq<nat>)
    requires Distinct(a + b)
    ensures Distinct(a) && Distinct(b) && forall x :: x in a ==> x !in b
  {
    var s := a + b;
    forall i, j | 0 <= i < j < |a| ensures a[i] != a[j] {
      assert s[i] != s[j];
    }
    forall i, j | 0 <= i < j < |b| ensures b[i] != b[j] {
      assert s[|a| + i] != s[|a| + j];
    }
    forall i, j | 0 <= i < |a| && 0 <= j < |b| ensures a[i] != b[j] {
      assert s[i] != s[|a| + j];
    }
  }

  /** When the loop ends the kept nodes are a greedy prefix, and the first discarded ones top it up. */
  lemma SplitPrunes(rule: Rule, point: nat, cands: seq<nat>, others: seq<nat>, sorted: seq<nat>, i: nat,
                    kept: seq<nat>, discarded: seq<nat>, more: seq<nat>)
    requires |cands| > rule.r && others == Without(cands, point) && multiset(sorted) == multiset(others)
    requires i <= |sorted| && Distinct(sorted) && SortedBy(sorted, Key(rule.between, point))
    requires Split(rule, point, sorted[..i], kept, discarded)
    requires |kept| <= rule.r && (|kept| == rule.r || i == |sorted|)
    requires more == Take(discarded, rule.r - |kept|)
    ensures Pruned(rule, point, cands, kept + more)
  {
    var out := kept + more;
    SplitDistinct(kept, discarded);
    assert forall x :: x in more ==> x in discarded;
    JoinDistinct(kept, more);
    assert out[..|kept|] == kept && out[|kept|..] == more;
    LaterFarther(rule, point, others, sorted, i, kept, discarded);
    TakenFirst(rule, point, others, sorted, i, kept, discarded, more);
    SplitSize(rule, point, others, sorted, i, kept, discarded);
    assert GreedyPrefix(rule, point, others, out[..|kept|]) &&
           Topping(rule, point, others, out[..|kept|], out[|kept|..]);
  }

  lemma SplitSize(rule: Rule, point: nat, others: seq<nat>, sorted: seq<nat>, i: nat, kept: seq<nat>,
                  discarded: seq<nat>)
    requires i <= |sorted| && multiset(sorted) == multiset(others) && |kept| <= rule.r
    requires Split(rule, point, sorted[..i], kept, discarded) && (|kept| == rule.r || i == |sorted|)
    ensures |kept| + |Take(discarded, rule.r - |kept|)| == if rule.r < |others| then rule.r else |others|
    ensures forall x :: x in kept || x in discarded ==> x in others
  {
    PermutationDistinct(sorted, others);
    assert sorted == sorted[..i] + sorted[i..];
    forall x | x in kept || x in discarded ensures x in others {
      assert x in sorted[..i];
    }
  }

  lemma LaterFarther(rule: Rule, point: nat, others: seq<nat>, sorted: seq<nat>, i: nat, kept: seq<nat>,
                     discarded: seq<nat>)
    requires i <= |sorted| && SortedBy(sorted, Key(rule.between, point)) && multiset(sorted) == multiset(others)
    requires Split(rule, point, sorted[..i], kept, discarded) && (|kept| == rule.r || i == |sorted|)
    ensures GreedyPrefix(rule, point, others, kept)
  {
    forall c | c in others && c !in kept && !Dominated(rule, point, kept, c)
      ensures |kept| == rule.r && forall x :: x in kept ==> rule.between(point, x) <= rule.between(point, c)
    {
      assert c in multiset(others) && c in multiset(sorted);
      assert c !in sorted[..i];
      assert sorted == sorted[..i] + sorted[i..];
      var h :| 0 <= h < |sorted[i..]| && sorted[i..][h] == c;
      forall x | x in kept ensures rule.between(point, x) <= rule.between(point, c) {
        var g :| 0 <= g < |sorted[..i]| && sorted[..i][g] == x;
        assert Key(rule.between, point)(sorted[g]) <= Key(rule.between, point)(sorted[i + h]);
      }
    }
  }

  lemma TakenFirst(rule: Rule, point: nat, others: seq<nat>, sorted: seq<nat>, i: nat, kept: seq<nat>,
                   discarded: seq<nat>, more: seq<nat>)
    requires i <= |sorted| && multiset(sorted) == multiset(others) && |kept| <= rule.r
    requires Split(rule, point, sorted[..i], kept, discarded) && (|kept| == rule.r || i == |sorted|)
    requires more == Take(discarded, rule.r - |kept|)
    ensures Topping(rule, point, others, kept, more)
  {
    forall c, x | c in others && c !in kept && c !in more && x in more
      ensures rule.between(point, x) <= rule.between(point, c)
    {
      assert i == |sorted| && sorted[..i] == sorted;
      assert c in multiset(others) && c in multiset(sorted);
      assert c in discarded;
      var a :| 0 <= a < |discarded| && discarded[a] == c;
      var b :| 0 <= b < |more| && more[b] == x;
      assert forall h :: 0 <= h < |more| ==> more[h] == discarded[h];
      assert Key(rule.between, point)(discarded[b]) <= Key(rule.between, point)(discarded[a]);
    }
  }

  method RobustPrune(rule: Rule, point: nat, cands: seq<nat>) returns (out: seq<nat>)
    requires Distinct(cands)
    ensures Pruned(rule, point, cands, out)
  {
    WithoutMembers(cands, point);
    WithoutDistinct(cands, point);
    var others := Without(cands, point);
    if |cands| <= rule.r {
      return others;
    }
    var sorted := SortBy(others, Key(rule.between, point));
    SortBySorts(others, Key(rule.between, point));
    PermutationDistinct(others, sorted);
    var kept, discarded;
    ghost var i;
    kept, discarded, i := KeepGreedily(rule, point, sorted);
    out := TopUpFrom(kept, discarded, rule.r);
    SplitPrunes(rule, point, cands, others, sorted, i, kept, discarded, Take(discarded, rule.r - |kept|));
  }

  lemma Undominated(rule: Rule, point: nat, kept: seq<nat>, c: nat)
    ensures (forall x :: x in kept ==> rule.between(x, c) * rule.alpha >= rule.between(point, c)) <==>
            !Dominated(rule, point, kept, c)
  {
  }

  method KeepGreedily(rule: Rule, point: nat, sorted: seq<nat>)
    returns (kept: seq<nat>, discarded: seq<nat>, ghost seen: nat)
    requires Distinct(sorted) && SortedBy(sorted, Key(rule.between, point))
    ensures seen <= |sorted| && |kept| <= rule.r && (|kept| == rule.r || seen == |sorted|)
    ensures Split(rule, point, sorted[..seen], kept, discarded)
  {
    kept, discarded := [], [];
    var i := 0;
    while i < |sorted| && |kept| < rule.r
      invariant i <= |sorted| && |kept| <= rule.r
      invariant Split(rule, point, sorted[..i], kept, discarded)
    {
      var c := sorted[i];
      var dc := rule.between(point, c);
      var good := forall x :: x in kept ==> rule.between(x, c) * rule.alpha >= dc;
      Undominated(rule, point, kept, c);
      if good {
        KeepOn(rule, point, sorted, i, kept, discarded);
        kept := kept + [c];
      } else {
        DiscardOn(rule, point, sorted, i, kept, discarded);
        discarded := discarded + [c];
      }
      i := i + 1;
    }
    seen := i;
  }

  method TopUpFrom(kept: seq<nat>, discarded: seq<nat>, r: nat) returns (out: seq<nat>)
    requires |kept| <= r
    ensures out == kept + Take(discarded, r - |kept|)
  {
    out := kept;
    var di := 0;
    while |out| < r && di < |discarded|
      invariant di <= |discarded| && out == kept + discarded[..di] && |out| <= r
    {
      assert discarded[..di + 1] == discarded[..di] + [discarded[di]];
      out := out + [discarded[di]];
      di := di + 1;
    }
    assert discarded[..di] == Take(discarded, r - |kept|);
  }
}
