/** Adjacency lists and reachability, shared by the three graph indexes. */
module Graphs {

  predicate InRange(adj: seq<seq<nat>>) {
    forall v, w :: 0 <= v < |adj| && w in adj[v] ==> w < |adj|
  }

  ghost predicate IsPath(adj: seq<seq<nat>>, p: seq<nat>) {
    && p != []
    && (forall i :: 0 <= i < |p| ==> p[i] < |adj|)
    && (forall i, j :: 0 <= i < j < |p| && j == i + 1 ==> p[j] in adj[p[i]])
  }

  ghost predicate Reachable(adj: seq<seq<nat>>, sources: set<nat>, v: nat) {
    exists p :: IsPath(adj, p) && p[0] in sources && p[|p| - 1] == v
  }

  ghost function ReachableSet(adj: seq<seq<nat>>, sources: set<nat>): set<nat> {
    set v: nat | v < |adj| && Reachable(adj, sources, v)
  }

  ghost predicate Closed(adj: seq<seq<nat>>, s: set<nat>) {
    forall v, w :: v in s && v < |adj| && w in adj[v] ==> w in s
  }

  lemma SourceReachable(adj: seq<seq<nat>>, sources: set<nat>, v: nat)
    requires v in sources && v < |adj|
    ensures v in ReachableSet(adj, sources)
  {
    assert IsPath(adj, [v]) && [v][0] in sources;
  }

  lemma StepReachable(adj: seq<seq<nat>>, sources: set<nat>, v: nat, w: nat)
    requires v in ReachableSet(adj, sources) && w in adj[v] && InRange(adj)
    ensures w in ReachableSet(adj, sources)
  {
    var p :| IsPath(adj, p) && p[0] in sources && p[|p| - 1] == v;
    var longer := p + [w];
    assert IsPath(adj, longer) && longer[0] in sources && longer[|longer| - 1] == w;
  }

  lemma {:induction false} PathStaysInside(adj: seq<seq<nat>>, s: set<nat>, p: seq<nat>)
    requires Closed(adj, s) && IsPath(adj, p) && p[0] in s
    ensures p[|p| - 1] in s
  {
    if |p| > 1 {
      var q := p[..|p| - 1];
      PathStaysInside(adj, s, q);
      assert q[|q| - 1] == p[|p| - 2];
    }
  }

  /** The reachable set is the least closed set around its sources. */
  lemma ReachableInside(adj: seq<seq<nat>>, sources: set<nat>, s: set<nat>)
    requires Closed(adj, s) && sources <= s
    ensures ReachableSet(adj, sources) <= s
  {
    forall v | v in ReachableSet(adj, sources) ensures v in s {
      var p :| IsPath(adj, p) && p[0] in sources && p[|p| - 1] == v;
      PathStaysInside(adj, s, p);
    }
  }

  function {:induction false} Nodes(n: nat): (r: set<nat>)
    ensures |r| == n && forall v: nat :: v in r <==> v < n
  {
    if n == 0 then {} else Nodes(n - 1) + {n - 1}
  }
}
