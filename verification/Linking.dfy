/** Joining a new node to one layer of a layered graph: its own list, and its place in the lists of its picks. */
module Linking {
  import opened Candidates
  import opened Graphs
  import opened Layers
  import opened Neighbours
  import opened Sorting

  function Key(between: (nat, nat) -> real, v: nat): nat -> real {
    (x: nat) => between(v, x)
  }

  function LocalsOf(picks: seq<Cand>): (r: seq<nat>)
    ensures |r| == |picks| && forall i :: 0 <= i < |picks| ==> r[i] == picks[i].local
  {
    seq(|picks|, i requires 0 <= i < |picks| => picks[i].local)
  }

  /** The new node lists its picks; the first `i` of them link back to it; nobody else's list changes. */
  ghost predicate LinkedUpTo(adj0: seq<seq<nat>>, adj1: seq<seq<nat>>, local: nat, between: (nat, nat) -> real,
                             cap: nat, picks: seq<nat>, i: nat)
    requires i <= |picks|
  {
    && |adj1| == |adj0| && local < |adj0| && adj1[local] == picks
    && forall v :: 0 <= v < |adj0| && v != local ==>
         if v in picks[..i] then LinkedBack(Key(between, v), adj0[v], local, cap, adj1[v]) else adj1[v] == adj0[v]
  }

  ghost predicate Linked(adj0: seq<seq<nat>>, adj1: seq<seq<nat>>, local: nat, between: (nat, nat) -> real, cap: nat,
                         picks: seq<nat>)
  {
    LinkedUpTo(adj0, adj1, local, between, cap, picks, |picks|)
  }

  lemma LinkedOn(adj0: seq<seq<nat>>, adj1: seq<seq<nat>>, local: nat, between: (nat, nat) -> real, cap: nat,
                 picks: seq<nat>, i: nat, out: seq<nat>)
    requires i < |picks| && Distinct(picks) && picks[i] < |adj0| && picks[i] != local
    requires LinkedUpTo(adj0, adj1, local, between, cap, picks, i)
    requires LinkedBack(Key(between, picks[i]), adj1[picks[i]], local, cap, out)
    ensures LinkedUpTo(adj0, adj1[picks[i] := out], local, between, cap, picks, i + 1)
  {
    assert picks[..i + 1] == picks[..i] + [picks[i]];
    assert picks[i] !in picks[..i];
  }

  lemma SetListLayers(links: seq<seq<seq<nat>>>, v: nat, lc: nat, list: seq<nat>)
    requires v < |links| && lc < |links[v]|
    ensures Layer(SetList(links, v, lc, list), lc) == Layer(links, lc)[v := list]
    ensures forall l: nat :: l != lc ==> Layer(SetList(links, v, lc, list), l) == Layer(links, l)
  {
  }

  /** A node that links back, and the new node, keep the structure. */
  ghost predicate Joinable(links: seq<seq<seq<nat>>>, lc: nat, local: nat, picks: seq<nat>) {
    && local < |links| && lc < |links[local]| && Distinct(picks)
    && forall c :: c in picks ==> c < |links| && c != local && lc < |links[c]|
  }

  /** Nobody points at the new node yet, nor does it point at anyone. */
  ghost predicate Isolated(adj: seq<seq<nat>>, local: nat) {
    local < |adj| && adj[local] == [] && forall v :: 0 <= v < |adj| ==> local !in adj[v]
  }

  ghost predicate NewNode(links: seq<seq<seq<nat>>>, local: nat) {
    forall lc: nat :: Isolated(Layer(links, lc), local)
  }

  lemma IsolatedUnreached(adj: seq<seq<nat>>, local: nat, ep: nat)
    requires Isolated(adj, local) && InRange(adj) && ep < |adj| && ep != local
    ensures local !in ReachableSet(adj, {ep})
  {
    ReachableInside(adj, {ep}, Nodes(|adj|) - {local});
  }

  method LinkOne(links: seq<seq<seq<nat>>>, lc: nat, local: nat, between: (nat, nat) -> real, v: nat,
                 ghost cap: nat -> nat, out: seq<nat>)
    returns (links': seq<seq<seq<nat>>>)
    requires Structured(links, cap) && v < |links| && lc < |links[v]| && local < |links| && lc < |links[local]| &&
             v != local
    requires local !in links[v][lc] && LinkedBack(Key(between, v), links[v][lc], local, cap(lc), out)
    ensures Structured(links', cap) && Heights(links') == Heights(links)
    ensures Layer(links', lc) == Layer(links, lc)[v := out]
    ensures forall l: nat :: l != lc ==> Layer(links', l) == Layer(links, l)
  {
    assert ListOk(Heights(links), v, lc, links[v][lc], cap(lc));
    LinkedBackOk(Key(between, v), links[v][lc], local, cap(lc), out);
    SetListKeeps(links, cap, v, lc, out);
    SetListLayers(links, v, lc, out);
    links' := SetList(links, v, lc, out);
  }
}
