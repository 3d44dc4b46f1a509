/**
 * How a layered graph takes a new node: the `insert` of `SketchHnsw` (`db/src/sketch_hnsw.rs`) and of `Hnsw`
 * (`db/src/index/hnsw.rs`), which differ in how neighbours are picked, how overfull lists are pruned and how the
 * beam widens from layer to layer.
 */
module Joining {
  import opened Beams
  import opened Candidates
  import opened Graphs
  import opened Layers
  import opened Linking
  import opened Neighbours
  import opened Sorting
  import opened VisitedSets
  import opened Wrappers

  datatype Variant = OverSketches | Dense

  /**
   * Which of the two graphs, the distance between two of its nodes, and how a search for one node rates
   * another, which under the cosine metric is on a different scale.
   */
  datatype Geometry = Geometry(variant: Variant, between: (nat, nat) -> real, rate: (nat, nat) -> real)

  /** A search rates the node it starts from as its caller did, every other node by itself. */
  function Rating(g: Geometry, local: nat, ep: nat, epDist: real): nat -> real {
    match g.variant
    case OverSketches => Key(g.between, local)
    case Dense => (x: nat) => if x == ep then epDist else g.rate(local, x)
  }

  // ----- Picking -----

  /** How a graph may pick neighbours from what a search found. */
  ghost predicate Chosen(g: Geometry, local: nat, cap: nat, cands: seq<Cand>, picks: seq<Cand>) {
    match g.variant
    case OverSketches => Diverse(g.between, cands, v => v != local, cap, picks)
    case Dense => ToppedUp(g.between, cands, cap, picks)
  }

  method Select(g: Geometry, local: nat, cands: seq<Cand>, cap: nat) returns (picks: seq<Cand>)
    requires Ordered(cands) && Named(cands) && cap > 0 && cands != [] && forall c :: c in cands ==> c.local != local
    ensures Chosen(g, local, cap, cands, picks) && picks != [] && |picks| <= cap && Distinct(picks)
    ensures forall c :: c in picks ==> c in cands
  {
    assert cands[0] in cands;
    match g.variant
    case OverSketches =>
      picks := GreedySelect(g.between, local, cands, cap);
    case Dense =>
      picks := SelectHeuristic(g.between, cands, cap);
  }

  // ----- Linking back -----

  /** One pick takes the new node into its list, which is pruned if it overflows. */
  method AddLink(g: Geometry, node: nat, list: seq<nat>, local: nat, cap: nat) returns (out: seq<nat>)
    requires Distinct(list) && local !in list && node !in list && local != node
    ensures LinkedBack(Key(g.between, node), list, local, cap, out)
  {
    out := list + [local];
    if |out| > cap {
      match g.variant
      case OverSketches =>
        WithoutNothing(out, node);
        out := PruneByDist(Key(g.between, node), node, out + [node], cap);
      case Dense =>
        out := PruneLinks(Key(g.between, node), out, cap);
    }
  }

  /** The width of the next layer's search: doubled in 64-bit arithmetic, or kept. */
  function Widened(variant: Variant, ef: nat): nat {
    match variant
    case OverSketches => ef * 2 % TWO_64
    case Dense => ef
  }

  // ----- Rounds -----

  /** One layer of an insertion: where its search started, how wide it was, what it found and what was picked. */
  datatype Step = Step(ep: nat, epDist: real, ef: nat, cands: seq<Cand>, picks: seq<Cand>)

  /** The search for the new node goes by the distance to it, or over vectors by the rating, the start excepted. */
  ghost predicate RatesFor(g: Geometry, local: nat, ep: nat, epDist: real, rated: nat -> real) {
    forall x: nat :: rated(x) ==
      if g.variant == OverSketches then g.between(local, x) else if x == ep then epDist else g.rate(local, x)
  }

  /** The picks of one layer come from a settled search of the layer as it was before the insertion. */
  ghost predicate StepOk(adj: seq<seq<nat>>, local: nat, g: Geometry, cap: nat, step: Step) {
    && step.picks != []
    && (exists rated :: RatesFor(g, local, step.ep, step.epDist, rated) &&
                        Settled(Query(adj, rated, step.ef), {step.ep}, {}, step.cands))
    && Chosen(g, local, cap, step.cands, step.picks)
  }

  /** The rounds that can have taken a layer from `adj0` to `adj1`: a settled search, and the links it led to. */
  ghost function Rounds(adj0: seq<seq<nat>>, adj1: seq<seq<nat>>, local: nat, g: Geometry, cap: nat): iset<Step> {
    iset step: Step | StepOk(adj0, local, g, cap, step) &&
      Linked(adj0, adj1, local, g.between, cap, LocalsOf(step.picks))
  }

  /** Each layer below starts at the first, closest pick, and widens. */
  ghost predicate Chained(variant: Variant, trail: seq<Step>) {
    && (forall k :: 0 <= k < |trail| ==> trail[k].picks != [])
    && forall j, k :: 0 <= j < k < |trail| && k == j + 1 ==>
         Follows(variant, trail[j], trail[k])
  }

  predicate Follows(variant: Variant, step: Step, next: Step) {
    && step.picks != []
    && next.ep == step.picks[0].local && next.epDist == step.picks[0].dist
    && next.ef == if variant == OverSketches then 2 * step.ef % TWO_64 else step.ef
  }

  /** What counts as a round on layer `lc`: how the layer may change, and the step that explains it. */
  type Relation = (nat, seq<seq<nat>>, seq<seq<nat>>, Step) -> bool

  ghost function Round(local: nat, g: Geometry, cap: nat -> nat): Relation {
    (lc: nat, adj0: seq<seq<nat>>, adj1: seq<seq<nat>>, step: Step) => step in Rounds(adj0, adj1, local, g, cap(lc))
  }

  /** A relation that holds at least of the rounds of an insertion. */
  ghost predicate Allows(round: Relation, local: nat, g: Geometry, cap: nat -> nat) {
    forall lc, adj0, adj1, step {:trigger step in Rounds(adj0, adj1, local, g, cap(lc))} ::
      step in Rounds(adj0, adj1, local, g, cap(lc)) ==> round(lc, adj0, adj1, step)
  }

  /** Every round of the trail took its layer from `before` to `links`. */
  ghost predicate RoundsDone(before: seq<seq<seq<nat>>>, links: seq<seq<seq<nat>>>, top: nat, round: Relation,
                             trail: seq<Step>)
    requires |trail| <= top + 1
  {
    forall k :: 0 <= k < |trail| ==> round(top - k, Layer(before, top - k), Layer(links, top - k), trail[k])
  }

  ghost predicate SameOutside(before: seq<seq<seq<nat>>>, links: seq<seq<seq<nat>>>, lo: int, hi: int) {
    forall l: nat :: l > hi || l < lo ==> Layer(links, l) == Layer(before, l)
  }

  /** Layers `top` down to `top + 1 - |trail|` have been joined as the trail says, the others are as before. */
  ghost predicate Joined(variant: Variant, before: seq<seq<seq<nat>>>, links: seq<seq<seq<nat>>>, top: nat,
                         round: Relation, trail: seq<Step>)
  {
    && Heights(links) == Heights(before) && |trail| <= top + 1 && Chained(variant, trail)
    && RoundsDone(before, links, top, round, trail)
    && SameOutside(before, links, top + 1 - |trail|, top)
  }

  /** Part way through the picks of one layer. */
  ghost predicate PicksLinked(links0: seq<seq<seq<nat>>>, links: seq<seq<seq<nat>>>, lc: nat, local: nat,
                              between: (nat, nat) -> real, caps: nat -> nat, picks: seq<nat>, i: nat)
    requires i <= |picks|
  {
    && Structured(links, caps) && Heights(links) == Heights(links0)
    && LinkedUpTo(Layer(links0, lc), Layer(links, lc), local, between, caps(lc), picks, i)
    && forall l: nat :: l != lc ==> Layer(links, l) == Layer(links0, l)
  }

  lemma PickReady(links0: seq<seq<seq<nat>>>, links: seq<seq<seq<nat>>>, lc: nat, local: nat,
                  between: (nat, nat) -> real, caps: nat -> nat, picks: seq<nat>, i: nat)
    requires Joinable(links0, lc, local, picks) && Isolated(Layer(links0, lc), local)
    requires i < |picks| && PicksLinked(links0, links, lc, local, between, caps, picks, i)
    ensures picks[i] < |links| && lc < |links[picks[i]]| && picks[i] != local
    ensures local < |links| && lc < |links[local]|
    ensures local !in links[picks[i]][lc] && picks[i] !in links[picks[i]][lc] && Distinct(links[picks[i]][lc])
    ensures links[picks[i]][lc] == Layer(links, lc)[picks[i]]
  {
    var c := picks[i];
    assert c !in picks[..i] && c in picks;
    assert |links[c]| == Heights(links)[c] == Heights(links0)[c] == |links0[c]|;
    assert |links[local]| == Heights(links)[local] == Heights(links0)[local] == |links0[local]|;
    assert links[c][lc] == Layer(links, lc)[c] == Layer(links0, lc)[c];
    assert ListOk(Heights(links), c, lc, links[c][lc], caps(lc));
  }

  lemma PickLinked(links0: seq<seq<seq<nat>>>, links: seq<seq<seq<nat>>>, links': seq<seq<seq<nat>>>,
                   adj: seq<seq<nat>>, lc: nat, local: nat, between: (nat, nat) -> real, caps: nat -> nat,
                   picks: seq<nat>, i: nat)
    requires i < |picks| && PicksLinked(links0, links, lc, local, between, caps, picks, i)
    requires LinkedUpTo(Layer(links0, lc), adj, local, between, caps(lc), picks, i + 1) && adj == Layer(links', lc)
    requires Structured(links', caps) && Heights(links') == Heights(links)
    requires forall l: nat :: l != lc ==> Layer(links', l) == Layer(links, l)
    ensures PicksLinked(links0, links', lc, local, between, caps, picks, i + 1)
  {
  }

  method LinkPick(links0: seq<seq<seq<nat>>>, links: seq<seq<seq<nat>>>, lc: nat, local: nat,
                  g: Geometry, picks: seq<nat>, i: nat, cap: nat, ghost caps: nat -> nat)
    returns (links': seq<seq<seq<nat>>>)
    requires Joinable(links0, lc, local, picks) && Isolated(Layer(links0, lc), local)
    requires caps(lc) == cap && i < |picks| && PicksLinked(links0, links, lc, local, g.between, caps, picks, i)
    ensures PicksLinked(links0, links', lc, local, g.between, caps, picks, i + 1)
  {
    PickReady(links0, links, lc, local, g.between, caps, picks, i);
    var c := picks[i];
    var out := AddLink(g, c, links[c][lc], local, cap);
    LinkedOn(Layer(links0, lc), Layer(links, lc), local, g.between, cap, picks, i, out);
    ghost var adj := Layer(links, lc)[c := out];
    links' := LinkOne(links, lc, local, g.between, c, caps, out);
    PickLinked(links0, links, links', adj, lc, local, g.between, caps, picks, i);
  }

  method LinkPicks(links0: seq<seq<seq<nat>>>, lc: nat, local: nat, g: Geometry, picks: seq<nat>,
                   cap: nat, ghost caps: nat -> nat)
    returns (links: seq<seq<seq<nat>>>)
    requires Structured(links0, caps) && Joinable(links0, lc, local, picks) && Isolated(Layer(links0, lc), local)
    requires caps(lc) == cap && |picks| <= cap
    ensures PicksLinked(links0, links, lc, local, g.between, caps, picks, |picks|)
  {
    SetListKeeps(links0, caps, local, lc, picks);
    SetListLayers(links0, local, lc, picks);
    links := SetList(links0, local, lc, picks);
    var i := 0;
    while i < |picks|
      invariant i <= |picks| && PicksLinked(links0, links, lc, local, g.between, caps, picks, i)
    {
      links := LinkPick(links0, links, lc, local, g, picks, i, cap, caps);
      i := i + 1;
    }
  }

  // ----- One insertion -----

  /** The graph with a node that owns layers 0 to `level` and has no links yet. */
  function Grown(links: seq<seq<seq<nat>>>, level: nat): seq<seq<seq<nat>>> {
    links + [seq(level + 1, _ => [])]
  }

  lemma NewNodeKeeps(links: seq<seq<seq<nat>>>, level: nat, next: seq<seq<seq<nat>>>, caps: nat -> nat)
    requires Structured(links, caps) && next == Grown(links, level)
    ensures Structured(next, caps) && NewNode(next, |links|)
  {
    forall v, lc | 0 <= v < |next| && 0 <= lc < |next[v]| ensures ListOk(Heights(next), v, lc, next[v][lc], caps(lc)) {
      if v < |links| {
        assert ListOk(Heights(links), v, lc, links[v][lc], caps(lc));
      }
    }
    forall lc: nat ensures Isolated(Layer(next, lc), |links|) {
      forall v | 0 <= v < |next| ensures |links| !in Layer(next, lc)[v] {
        if v < |links| && lc < |links[v]| {
          assert ListOk(Heights(links), v, lc, links[v][lc], caps(lc));
        }
      }
    }
  }

  /** What a settled search of a layer finds owns the layer, and the new node is not among it. */
  lemma FoundOwns(links: seq<seq<seq<nat>>>, caps: nat -> nat, lc: nat, local: nat, q: Query, ep: nat, cands: seq<Cand>)
    requires Structured(links, caps) && Isolated(Layer(links, lc), local) && q.adj == Layer(links, lc)
    requires ep < |links| && ep != local && lc < |links[ep]| && Settled(q, {ep}, {}, cands)
    ensures cands != [] && forall c :: c in cands ==> c.local < |links| && c.local != local && lc < |links[c.local]|
  {
    LayerInRange(links, caps, lc);
    IsolatedUnreached(q.adj, local, ep);
    forall c | c in cands ensures c.local < |links| && c.local != local && lc < |links[c.local]| {
      assert c.local in Locals(cands);
      ReachedOwns(links, caps, lc, ep, c.local);
    }
  }

  lemma PicksJoinable(links: seq<seq<seq<nat>>>, lc: nat, local: nat, q: Query, cands: seq<Cand>, picks: seq<Cand>)
    requires local < |links| && lc < |links[local]|
    requires forall c :: c in cands ==> c.local < |links| && c.local != local && lc < |links[c.local]|
    requires Distinct(picks) && Rated(q, cands) && forall c :: c in picks ==> c in cands
    ensures Joinable(links, lc, local, LocalsOf(picks))
  {
    var nodes := LocalsOf(picks);
    forall i, j | 0 <= i < j < |nodes| ensures nodes[i] != nodes[j] {
      assert picks[i] in cands && picks[j] in cands && picks[i] != picks[j];
    }
  }

  lemma RoundMade(links0: seq<seq<seq<nat>>>, links: seq<seq<seq<nat>>>, lc: nat, local: nat, g: Geometry,
                  cap: nat, caps: nat -> nat, q: Query, step: Step)
    requires caps(lc) == cap && q == Query(Layer(links0, lc), Rating(g, local, step.ep, step.epDist), step.ef)
    requires Settled(q, {step.ep}, {}, step.cands) && step.picks != []
    requires Chosen(g, local, cap, step.cands, step.picks)
    requires PicksLinked(links0, links, lc, local, g.between, caps, LocalsOf(step.picks), |step.picks|)
    ensures Structured(links, caps) && Heights(links) == Heights(links0) && SameOutside(links0, links, lc, lc)
    ensures step in Rounds(Layer(links0, lc), Layer(links, lc), local, g, cap)
  {
    assert RatesFor(g, local, step.ep, step.epDist, q.dist);
    assert q == Query(Layer(links0, lc), q.dist, step.ef);
  }

  /** One round of the insertion loop: search the layer, pick, link. */
  method JoinLayer(links0: seq<seq<seq<nat>>>, lc: nat, local: nat, g: Geometry, ep: nat, epDist: real, ef: nat,
                   cap: nat, visited: VisitedStamps, ghost caps: nat -> nat, ghost round: Relation)
    returns (links: seq<seq<seq<nat>>>, picks: seq<Cand>, ghost step: Step)
    requires Structured(links0, caps) && Isolated(Layer(links0, lc), local) && caps(lc) == cap && cap > 0
    requires local < |links0| && lc < |links0[local]| && ep < |links0| && ep != local && lc < |links0[ep]|
    requires visited.Valid() && !Collides(visited.begins + 1) && Allows(round, local, g, caps)
    modifies visited
    ensures visited.Valid() && visited.begins == old(visited.begins) + 1
    ensures Structured(links, caps) && Heights(links) == Heights(links0) && SameOutside(links0, links, lc, lc)
    ensures step.ep == ep && step.epDist == epDist && step.ef == ef && step.picks == picks && picks != []
    ensures round(lc, Layer(links0, lc), Layer(links, lc), step)
    ensures picks[0].local < |links0| && picks[0].local != local && lc < |links0[picks[0].local]|
  {
    var q := Query(Layer(links0, lc), Rating(g, local, ep, epDist), ef);
    LayerInRange(links0, caps, lc);
    var cands := SearchLayer(q, ep, visited);
    FoundOwns(links0, caps, lc, local, q, ep, cands);
    picks := Select(g, local, cands, cap);
    assert picks[0] in cands;
    PicksJoinable(links0, lc, local, q, cands, picks);
    links := LinkPicks(links0, lc, local, g, LocalsOf(picks), cap, caps);
    step := Step(ep, epDist, ef, cands, picks);
    RoundMade(links0, links, lc, local, g, cap, caps, q, step);
    RoundCounts(links0, links, lc, local, g, caps, round, step);
  }

  lemma ChainedOn(variant: Variant, trail: seq<Step>, step: Step)
    requires Chained(variant, trail) && step.picks != []
    requires trail != [] ==> Follows(variant, trail[|trail| - 1], step)
    ensures Chained(variant, trail + [step])
  {
  }

  lemma OutsideOn(before: seq<seq<seq<nat>>>, links: seq<seq<seq<nat>>>, links': seq<seq<seq<nat>>>, lc: nat, top: nat)
    requires SameOutside(before, links, lc + 1, top) && SameOutside(links, links', lc, lc) && lc <= top
    ensures SameOutside(before, links', lc, top) && Layer(links, lc) == Layer(before, lc)
  {
    forall l: nat | l > top || l < lc ensures Layer(links', l) == Layer(before, l) {
      assert Layer(links, l) == Layer(before, l);
    }
  }

  /** Finished rounds are not touched by the layers below. */
  lemma RoundsOn(before: seq<seq<seq<nat>>>, links: seq<seq<seq<nat>>>, links': seq<seq<seq<nat>>>, top: nat,
                 round: Relation, trail: seq<Step>, step: Step, lc: nat)
    requires lc == top - |trail| && RoundsDone(before, links, top, round, trail)
    requires round(lc, Layer(before, lc), Layer(links', lc), step)
    requires SameOutside(links, links', lc, lc)
    ensures RoundsDone(before, links', top, round, trail + [step])
  {
    forall k: nat | k < |trail| ensures round(top - k, Layer(before, top - k), Layer(links', top - k), trail[k]) {
      assert Layer(links', top - k) == Layer(links, top - k);
    }
  }

  lemma JoinedOn(variant: Variant, before: seq<seq<seq<nat>>>, links: seq<seq<seq<nat>>>, links': seq<seq<seq<nat>>>,
                 top: nat, round: Relation, trail: seq<Step>, step: Step, lc: nat)
    requires Joined(variant, before, links, top, round, trail) && lc == top - |trail|
    requires step.picks != [] && round(lc, Layer(links, lc), Layer(links', lc), step)
    requires Heights(links') == Heights(links) && SameOutside(links, links', lc, lc)
    requires trail != [] ==> Follows(variant, trail[|trail| - 1], step)
    ensures Joined(variant, before, links', top, round, trail + [step])
  {
    ChainedOn(variant, trail, step);
    OutsideOn(before, links, links', lc, top);
    RoundsOn(before, links, links', top, round, trail, step, lc);
  }

  /** Where the next round starts, and how wide. */
  ghost predicate NextRound(variant: Variant, before: seq<seq<seq<nat>>>, local: nat, top: nat, first: Start,
                            trail: seq<Step>, next: Start)
    requires |trail| <= top + 1 && Chained(variant, trail)
  {
    && next.ep < |before| && next.ep != local && (|trail| <= top ==> top - |trail| < |before[next.ep]|)
    && if trail == [] then next == first
       else StartOf(trail[0]) == first && next == StartAfter(variant, trail[|trail| - 1])
  }

  /** Where a search starts, how that node is rated, and how wide the search is. */
  datatype Start = Start(ep: nat, epDist: real, ef: nat)

  function StartOf(step: Step): Start {
    Start(step.ep, step.epDist, step.ef)
  }

  function StartAfter(variant: Variant, step: Step): Start
    requires step.picks != []
  {
    Start(step.picks[0].local, step.picks[0].dist, Widened(variant, step.ef))
  }

  lemma RoundReady(variant: Variant, before: seq<seq<seq<nat>>>, links: seq<seq<seq<nat>>>, local: nat, top: nat,
                   round: Relation, trail: seq<Step>, ep: nat, lc: nat)
    requires Joined(variant, before, links, top, round, trail) && |trail| <= top && lc == top - |trail|
    requires NewNode(before, local) && local < |before| && top < |before[local]|
    requires ep < |before| && lc < |before[ep]|
    ensures Isolated(Layer(links, lc), local)
    ensures local < |links| && lc < |links[local]| && ep < |links| && lc < |links[ep]|
    ensures |links| == |before| && |links[local]| == |before[local]| && |links[ep]| == |before[ep]|
  {
    assert Layer(links, lc) == Layer(before, lc);
    assert |links[local]| == Heights(links)[local] && |links[ep]| == Heights(links)[ep];
  }

  lemma RoundOver(variant: Variant, before: seq<seq<seq<nat>>>, links: seq<seq<seq<nat>>>, local: nat, top: nat,
                  first: Start, trail: seq<Step>, next: Start, step: Step)
    requires |trail| <= top && Chained(variant, trail) && Chained(variant, trail + [step])
    requires NextRound(variant, before, local, top, first, trail, next) && StartOf(step) == next && step.picks != []
    requires Heights(links) == Heights(before)
    requires var p := step.picks[0].local; p < |links| && p != local && top - |trail| < |links[p]|
    ensures NextRound(variant, before, local, top, first, trail + [step], StartAfter(variant, step))
  {
    assert |links[step.picks[0].local]| == Heights(links)[step.picks[0].local];
  }

  lemma StepFollows(variant: Variant, before: seq<seq<seq<nat>>>, local: nat, top: nat, first: Start, trail: seq<Step>,
                    next: Start, step: Step)
    requires |trail| <= top && Chained(variant, trail) && NextRound(variant, before, local, top, first, trail, next)
    requires StartOf(step) == next
    ensures trail != [] ==> Follows(variant, trail[|trail| - 1], step)
  {
  }

  lemma RoundCounts(links: seq<seq<seq<nat>>>, links': seq<seq<seq<nat>>>, lc: nat, local: nat, g: Geometry,
                    caps: nat -> nat, round: Relation, step: Step)
    requires Allows(round, local, g, caps)
    requires step in Rounds(Layer(links, lc), Layer(links', lc), local, g, caps(lc))
    ensures round(lc, Layer(links, lc), Layer(links', lc), step)
  {
  }

  /** What one layer adds to the trail, and where the layer below starts. */
  lemma RoundAdded(variant: Variant, before: seq<seq<seq<nat>>>, links: seq<seq<seq<nat>>>, links': seq<seq<seq<nat>>>,
                   local: nat, top: nat, round: Relation, first: Start, trail: seq<Step>, start: Start, step: Step,
                   lc: nat)
    requires Joined(variant, before, links, top, round, trail) && lc == top - |trail|
    requires NextRound(variant, before, local, top, first, trail, start) && StartOf(step) == start
    requires step.picks != [] && round(lc, Layer(links, lc), Layer(links', lc), step)
    requires Heights(links') == Heights(links) && SameOutside(links, links', lc, lc)
    requires var p := step.picks[0].local; p < |links| && p != local && lc < |links[p]|
    ensures Joined(variant, before, links', top, round, trail + [step])
    ensures NextRound(variant, before, local, top, first, trail + [step], StartAfter(variant, step))
  {
    StepFollows(variant, before, local, top, first, trail, start, step);
    JoinedOn(variant, before, links, links', top, round, trail, step, lc);
    RoundOver(variant, before, links, local, top, first, trail, start, step);
  }

  method JoinRound(before: seq<seq<seq<nat>>>, links: seq<seq<seq<nat>>>, local: nat, top: nat, lc: nat,
                   g: Geometry, start: Start, cap: nat, visited: VisitedStamps,
                   ghost caps: nat -> nat, ghost round: Relation, ghost first: Start, ghost trail: seq<Step>)
    returns (links': seq<seq<seq<nat>>>, next: Start, ghost step: Step)
    requires Structured(links, caps) && NewNode(before, local) && cap > 0 && caps(lc) == cap
    requires local < |before| && top < |before[local]| && lc == top - |trail|
    requires Joined(g.variant, before, links, top, round, trail) && Allows(round, local, g, caps)
    requires NextRound(g.variant, before, local, top, first, trail, start)
    requires visited.Valid() && !Collides(visited.begins + 1)
    modifies visited
    ensures visited.Valid() && visited.begins == old(visited.begins) + 1
    ensures Structured(links', caps) && Joined(g.variant, before, links', top, round, trail + [step])
    ensures NextRound(g.variant, before, local, top, first, trail + [step], next)
  {
    RoundReady(g.variant, before, links, local, top, round, trail, start.ep, lc);
    var picks;
    links', picks, step := JoinLayer(links, lc, local, g, start.ep, start.epDist, start.ef, cap, visited, caps,
                                      round);
    RoundAdded(g.variant, before, links, links', local, top, round, first, trail, start, step, lc);
    next := Start(picks[0].local, picks[0].dist, Widened(g.variant, start.ef));
  }

  /**
   * The insertion loop over the layers the new node joins. The source leaves it early if nothing was picked, but
   * there is always something to pick.
   */
  method JoinLayers(before: seq<seq<seq<nat>>>, local: nat, top: nat, g: Geometry, first: Start,
                    m: nat, m0: nat, visited: VisitedStamps, ghost caps: nat -> nat, ghost round: Relation)
    returns (links: seq<seq<seq<nat>>>, ghost trail: seq<Step>)
    requires Structured(before, caps) && NewNode(before, local) && m > 0 && m0 > 0
    requires forall lc: nat :: caps(lc) == if lc == 0 then m0 else m
    requires local < |before| && top < |before[local]|
    requires first.ep < |before| && first.ep != local && top < |before[first.ep]|
    requires visited.Valid() && Room(visited.begins, top + 1) && Allows(round, local, g, caps)
    modifies visited
    ensures visited.Valid() && visited.begins == old(visited.begins) + top + 1
    ensures Structured(links, caps) && Joined(g.variant, before, links, top, round, trail)
    ensures |trail| == top + 1 && StartOf(trail[0]) == first
  {
    links, trail := before, [];
    var start, lc := first, top as int;
    ghost var step;
    while lc >= 0
      invariant lc == top - |trail| && |trail| <= top + 1
      invariant visited.Valid() && visited.begins == old(visited.begins) + |trail|
      invariant Structured(links, caps) && Joined(g.variant, before, links, top, round, trail)
      invariant NextRound(g.variant, before, local, top, first, trail, start)
    {
      links, start, step :=
        JoinRound(before, links, local, top, lc, g, start, if lc == 0 then m0 else m, visited, caps, round, first,
                  trail);
      trail := trail + [step];
      lc := lc - 1;
    }
  }

  /** The insertions beyond the first: descent to a stop, then a trail of joined layers. */
  ghost function Insertions(before: seq<seq<seq<nat>>>, links: seq<seq<seq<nat>>>, local: nat, level: nat, entry: nat,
                            maxLevel: nat, efSearch: nat, g: Geometry, cap: nat -> nat)
    : iset<(nat, seq<Step>)>
  {
    var top := if level < maxLevel then level else maxLevel;
    iset p: (nat, seq<Step>) |
      && Descends(before, Key(g.between, local), maxLevel, top + 1, entry, p.0)
      && |p.1| == top + 1 && StartOf(p.1[0]) == Start(p.0, g.between(local, p.0), efSearch)
      && Joined(g.variant, before, links, top, Round(local, g, cap), p.1)
  }

  lemma RoundAllows(local: nat, g: Geometry, cap: nat -> nat)
    ensures Allows(Round(local, g, cap), local, g, cap)
  {
  }

  lemma InsertionMade(before: seq<seq<seq<nat>>>, links: seq<seq<seq<nat>>>, local: nat, level: nat, entry: nat,
                      maxLevel: nat, efSearch: nat, g: Geometry, cap: nat -> nat, top: nat,
                      round: Relation, stop: nat, trail: seq<Step>)
    requires top == (if level < maxLevel then level else maxLevel) && round == Round(local, g, cap)
    requires Descends(before, Key(g.between, local), maxLevel, top + 1, entry, stop)
    requires |trail| == top + 1 && StartOf(trail[0]) == Start(stop, g.between(local, stop), efSearch)
    requires Joined(g.variant, before, links, top, round, trail)
    ensures (stop, trail) in Insertions(before, links, local, level, entry, maxLevel, efSearch, g, cap)
    ensures Heights(links) == Heights(before)
  {
  }

  lemma StopAvoids(links: seq<seq<seq<nat>>>, caps: nat -> nat, local: nat, dist: nat -> real, lc: nat, mid: nat,
                   stop: nat)
    requires Structured(links, caps) && NewNode(links, local) && mid != local
    requires StopsAt(Layer(links, lc), dist, mid, stop)
    ensures stop != local
  {
    var adj := Layer(links, lc);
    LayerInRange(links, caps, lc);
    assert Isolated(adj, local);
    ReachableInside(adj, {mid}, Nodes(|adj|) - {local} + {mid});
  }

  /** Descent never arrives at the new node. */
  lemma DescentAvoids(links: seq<seq<seq<nat>>>, caps: nat -> nat, local: nat, dist: nat -> real, top: int, bottom: nat,
                      ep: nat, stop: nat)
    requires Structured(links, caps) && NewNode(links, local) && ep != local
    requires Descends(links, dist, top, bottom, ep, stop)
    ensures stop != local
    decreases top - bottom
  {
    if top >= bottom {
      var mid :| Descends(links, dist, top, bottom + 1, ep, mid) && StopsAt(Layer(links, bottom), dist, mid, stop);
      DescentAvoids(links, caps, local, dist, top, bottom + 1, ep, mid);
      StopAvoids(links, caps, local, dist, bottom, mid, stop);
    }
  }

  /** The new node becomes the entry if it is the first or the tallest. */
  lemma EntryAfter(links: seq<seq<seq<nat>>>, level: nat, entry: int, maxLevel: nat, next: seq<seq<seq<nat>>>)
    requires EntryOk(links, entry, maxLevel) && Heights(next) == Heights(Grown(links, level))
    ensures var first := links == [] || level > maxLevel;
            EntryOk(next, if first then |links| else entry, if first then level else maxLevel)
  {
    var grown := Grown(links, level);
    forall v | 0 <= v < |next| ensures |next[v]| == |grown[v]| {
      assert |next[v]| == Heights(next)[v];
    }
  }

  lemma FirstNode(level: nat, caps: nat -> nat)
    ensures Structured(Grown([], level), caps) && EntryOk(Grown([], level), 0, level)
  {
    NewNodeKeeps([], level, Grown([], level), caps);
  }

  /** Descent to where the new node's first search starts. */
  method Approach(links0: seq<seq<seq<nat>>>, before: seq<seq<seq<nat>>>, level: nat, entry: nat, maxLevel: nat,
                  top: nat, dist: nat -> real, ghost caps: nat -> nat)
    returns (ep: nat)
    requires Structured(links0, caps) && EntryOk(links0, entry, maxLevel) && before == Grown(links0, level)
    requires top == if level < maxLevel then level else maxLevel
    ensures Structured(before, caps) && NewNode(before, |links0|) && |before| == |links0| + 1
    ensures |before[|links0|]| == level + 1 && ep < |links0| && top < |before[ep]|
    ensures Descends(before, dist, maxLevel, top + 1, entry, ep)
  {
    NewNodeKeeps(links0, level, before, caps);
    ep := DescendTo(before, dist, entry, maxLevel, top + 1, caps);
    DescentAvoids(before, caps, |links0|, dist, maxLevel, top + 1, entry, ep);
  }

  /** The body of `insert` for a graph that is not empty. */
  method InsertNode(links0: seq<seq<seq<nat>>>, level: nat, entry: nat, maxLevel: nat, efSearch: nat,
                    g: Geometry, m: nat, m0: nat, visited: VisitedStamps, ghost caps: nat -> nat)
    returns (links: seq<seq<seq<nat>>>, ghost stop: nat, ghost trail: seq<Step>)
    requires Structured(links0, caps) && EntryOk(links0, entry, maxLevel) && m > 0 && m0 > 0
    requires forall lc: nat :: caps(lc) == if lc == 0 then m0 else m
    requires visited.Valid() && Room(visited.begins, level + 1)
    modifies visited
    ensures visited.Valid() && Structured(links, caps) && |links| == |links0| + 1
    ensures if level > maxLevel then EntryOk(links, |links0|, level) else EntryOk(links, entry, maxLevel)
    ensures (stop, trail) in
              Insertions(Grown(links0, level), links, |links0|, level, entry, maxLevel, efSearch, g, caps)
  {
    var before, local := Grown(links0, level), |links0|;
    var top := if level < maxLevel then level else maxLevel;
    var ep := Approach(links0, before, level, entry, maxLevel, top, Key(g.between, local), caps);
    stop := ep;
    ghost var round := Round(local, g, caps);
    RoundAllows(local, g, caps);
    links, trail := JoinLayers(before, local, top, g, Start(ep, g.between(local, ep), efSearch), m, m0, visited, caps,
                               round);
    InsertionMade(before, links, local, level, entry, maxLevel, efSearch, g, caps, top, round, stop, trail);
    EntryAfter(links0, level, entry, maxLevel, links);
  }
}
