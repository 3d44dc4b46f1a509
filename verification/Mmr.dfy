/** `db/src/recall.rs`: greedy selection of recall results by maximal marginal relevance under a token budget. */
module Mmr {
  import opened Sorting

  const TOKEN_CHARS_PER_TOKEN := 4

  datatype Hit = Hit(doc: nat, base: real, chars: nat)

  /** `estimate_tokens_by`: every four characters, begun or full, are one token. */
  function Tokens(chars: nat): (tokens: nat)
    ensures 4 * tokens >= chars && 4 * tokens < chars + 4
  {
    (chars + TOKEN_CHARS_PER_TOKEN - 1) / TOKEN_CHARS_PER_TOKEN
  }

  // ----- Penalties -----

  /** The penalty for some similarities: the largest of them, but never negative. */
  function Penalty(sims: seq<real>): (p: real)
    ensures p >= 0.0 && (forall s :: s in sims ==> s <= p) && (p == 0.0 || p in sims)
  {
    if sims == [] then 0.0
    else
      var n := |sims| - 1;
      assert sims == sims[..n] + [sims[n]];
      var p := Penalty(sims[..n]);
      if sims[n] > p then sims[n] else p
  }

  /** The same kept up to date one similarity at a time, where a penalty of 1 or more is not looked at again. */
  function Tracked(sims: seq<real>): real {
    if sims == [] then 0.0
    else
      var n := |sims| - 1;
      var p := Tracked(sims[..n]);
      if p < 1.0 && sims[n] > p then sims[n] else p
  }

  /** At every step, no similarity exceeds a penalty that has already reached 1. */
  predicate NeverExceeded(sims: seq<real>) {
    if sims == [] then true
    else
      var n := |sims| - 1;
      NeverExceeded(sims[..n]) && (Penalty(sims[..n]) < 1.0 || sims[n] <= Penalty(sims[..n]))
  }

  /** At every step, the tracked penalty is the penalty. */
  predicate AlwaysExact(sims: seq<real>) {
    if sims == [] then true else AlwaysExact(sims[..|sims| - 1]) && Tracked(sims) == Penalty(sims)
  }

  /** The shortcut keeps every penalty exact if and only if no similarity exceeds a penalty that has reached 1. */
  lemma {:induction false} ShortcutExact(sims: seq<real>)
    ensures AlwaysExact(sims) <==> NeverExceeded(sims)
  {
    if sims != [] {
      var n := |sims| - 1;
      ShortcutExact(sims[..n]);
      if AlwaysExact(sims[..n]) {
        assert n == 0 ==> sims[..n] == [];
        assert Tracked(sims[..n]) == Penalty(sims[..n]);
      }
    }
  }

  /** In particular if similarities are at most 1. */
  lemma {:induction false} TrackedIsPenalty(sims: seq<real>)
    requires forall s :: s in sims ==> s <= 1.0
    ensures Tracked(sims) == Penalty(sims)
  {
    if sims != [] {
      var n := |sims| - 1;
      forall x | x in sims[..n] ensures x in sims {
      }
      TrackedIsPenalty(sims[..n]);
      assert sims[n] in sims;
    }
  }

  /** Beyond 1 the shortcut loses the larger similarity. */
  lemma ShortcutLoses()
    ensures Tracked([1.0, 1.5]) == 1.0 && Penalty([1.0, 1.5]) == 1.5
  {
    assert [1.0, 1.5][..1] == [1.0] && [1.0][..0] == [];
    assert Tracked([1.0]) == 1.0;
    assert Penalty([1.0]) == 1.0;
  }

  // ----- Selection -----

  /** The hits to select from, best base score first, and how they are scored. */
  datatype Slate = Slate(hits: seq<Hit>, budget: nat, discount: real -> real, sim: (nat, nat) -> real)

  /** A penalty counts in proportion to the wanted diversity. */
  function Discount(diversity: real): real -> real {
    p => diversity * p
  }

  function Similarity(t: Slate, j: nat, i: nat): real {
    if i < |t.hits| && j < |t.hits| then t.sim(t.hits[j].doc, t.hits[i].doc) else 0.0
  }

  /** Similarities of hit `j` to the hits chosen so far. */
  function Sims(t: Slate, chosen: seq<nat>, j: nat): seq<real> {
    if chosen == [] then []
    else Sims(t, chosen[..|chosen| - 1], j) + [Similarity(t, j, chosen[|chosen| - 1])]
  }

  lemma {:induction false} SimsAtMostOne(t: Slate, chosen: seq<nat>, j: nat)
    requires forall a, b :: t.sim(a, b) <= 1.0
    ensures forall s :: s in Sims(t, chosen, j) ==> s <= 1.0
  {
    if chosen != [] {
      SimsAtMostOne(t, chosen[..|chosen| - 1], j);
    }
  }

  function Used(t: Slate, chosen: seq<nat>): nat {
    if chosen == [] then 0
    else
      var i := chosen[|chosen| - 1];
      Used(t, chosen[..|chosen| - 1]) + if i < |t.hits| then Tokens(t.hits[i].chars) else 0
  }

  /** Hit `j` is untaken and still fits the budget. */
  predicate Fits(t: Slate, chosen: seq<nat>, j: nat) {
    j < |t.hits| && j !in chosen && Used(t, chosen) + Tokens(t.hits[j].chars) <= t.budget
  }

  /** Penalties as the loop keeps them, or as they are meant. */
  datatype Pricing = AsTracked | AsDefined

  function Price(pricing: Pricing, sims: seq<real>): real {
    match pricing
    case AsTracked => Tracked(sims)
    case AsDefined => Penalty(sims)
  }

  /** The score of a hit under some way of computing penalties. */
  function Score(t: Slate, pricing: Pricing, chosen: seq<nat>, j: nat): real
    requires j < |t.hits|
  {
    t.hits[j].base - t.discount(Price(pricing, Sims(t, chosen, j)))
  }

  /** `i` is the first fitting hit with the highest score. */
  ghost predicate FirstBest(t: Slate, pricing: Pricing, chosen: seq<nat>, i: nat) {
    && Fits(t, chosen, i)
    && forall j: nat :: Fits(t, chosen, j) ==>
         && Score(t, pricing, chosen, j) <= Score(t, pricing, chosen, i)
         && (j < i ==> Score(t, pricing, chosen, j) < Score(t, pricing, chosen, i))
  }

  /** A run of the greedy selection: every pick is the first best at its time. */
  ghost predicate Greedy(t: Slate, pricing: Pricing, chosen: seq<nat>) {
    forall k :: 0 <= k < |chosen| ==> FirstBest(t, pricing, chosen[..k], chosen[k])
  }

  /** What a selection promises: greedy picks, and an early end only if nothing fits any more. */
  ghost predicate Selected(t: Slate, pricing: Pricing, kMax: nat, chosen: seq<nat>) {
    && Greedy(t, pricing, chosen) && |chosen| <= kMax
    && (|chosen| < kMax ==> forall j: nat :: !Fits(t, chosen, j))
  }

  lemma GreedyShorter(t: Slate, pricing: Pricing, chosen: seq<nat>)
    requires Greedy(t, pricing, chosen) && chosen != []
    ensures var n := |chosen| - 1; Greedy(t, pricing, chosen[..n]) && FirstBest(t, pricing, chosen[..n], chosen[n])
  {
    var n := |chosen| - 1;
    var shorter := chosen[..n];
    forall k | 0 <= k < n ensures FirstBest(t, pricing, shorter[..k], shorter[k]) {
      assert shorter[..k] == chosen[..k] && shorter[k] == chosen[k];
    }
  }

  /** Picks are distinct and stay within the budget. */
  lemma {:induction false} GreedyWithinBudget(t: Slate, pricing: Pricing, chosen: seq<nat>)
    requires Greedy(t, pricing, chosen)
    ensures Distinct(chosen) && Used(t, chosen) <= t.budget
    ensures forall i :: i in chosen ==> i < |t.hits|
  {
    if chosen != [] {
      var n := |chosen| - 1;
      GreedyShorter(t, pricing, chosen);
      GreedyWithinBudget(t, pricing, chosen[..n]);
      assert Fits(t, chosen[..n], chosen[n]);
      assert chosen == chosen[..n] + [chosen[n]];
    }
  }

  lemma FirstBestSame(t: Slate, p: Pricing, p': Pricing, chosen: seq<nat>, i: nat)
    requires FirstBest(t, p, chosen, i)
    requires forall j: nat :: j < |t.hits| ==> Score(t, p', chosen, j) == Score(t, p, chosen, j)
    ensures FirstBest(t, p', chosen, i)
  {
  }

  lemma ScoreSame(t: Slate, chosen: seq<nat>, j: nat)
    requires j < |t.hits| && forall a, b :: t.sim(a, b) <= 1.0
    ensures Score(t, AsTracked, chosen, j) == Score(t, AsDefined, chosen, j)
  {
    assert Tracked(Sims(t, chosen, j)) == Penalty(Sims(t, chosen, j)) by {
      SimsAtMostOne(t, chosen, j);
      TrackedIsPenalty(Sims(t, chosen, j));
    }
  }

  /** With similarities of at most 1, selecting by tracked penalties is selecting by true ones. */
  lemma SelectedNaively(t: Slate, kMax: nat, chosen: seq<nat>)
    requires Selected(t, AsTracked, kMax, chosen) && forall a, b :: t.sim(a, b) <= 1.0
    ensures Selected(t, AsDefined, kMax, chosen)
  {
    forall k | 0 <= k < |chosen| ensures FirstBest(t, AsDefined, chosen[..k], chosen[k]) {
      forall j: nat | j < |t.hits| ensures Score(t, AsTracked, chosen[..k], j) == Score(t, AsDefined, chosen[..k], j) {
        ScoreSame(t, chosen[..k], j);
      }
      FirstBestSame(t, AsTracked, AsDefined, chosen[..k], chosen[k]);
    }
  }

  /** `pens` holds the tracked penalty of every hit not taken. */
  ghost predicate PensOk(t: Slate, chosen: seq<nat>, taken: seq<bool>, pens: seq<real>) {
    && |taken| == |pens| == |t.hits|
    && (forall j :: 0 <= j < |t.hits| ==> (taken[j] <==> j in chosen))
    && (forall j :: 0 <= j < |t.hits| && !taken[j] ==> pens[j] == Tracked(Sims(t, chosen, j)))
  }

  /** The first of the hits that may be picked with the highest score. */
  method ScanBest(n: nat, may: nat -> bool, score: nat -> real) returns (found: bool, best: nat)
    ensures found ==> best < n && may(best) && forall j: nat :: j < n && may(j) ==>
                        score(j) <= score(best) && (j < best ==> score(j) < score(best))
    ensures !found ==> forall j: nat :: j < n ==> !may(j)
  {
    found, best := false, 0;
    var bestScore := 0.0;
    for i := 0 to n
      invariant found ==> best < i && may(best) && bestScore == score(best)
      invariant forall j: nat :: j < i && may(j) ==>
                  found && score(j) <= bestScore && (j < best ==> score(j) < bestScore)
    {
      if may(i) {
        var s := score(i);
        if !found || s > bestScore {
          found, best, bestScore := true, i, s;
        }
      }
    }
  }

  /** The scan for the best fitting hit. */
  method FindBest(t: Slate, used: nat, taken: seq<bool>, pens: seq<real>, ghost chosen: seq<nat>)
    returns (found: bool, best: nat)
    requires PensOk(t, chosen, taken, pens) && used == Used(t, chosen)
    ensures found ==> FirstBest(t, AsTracked, chosen, best)
    ensures !found ==> forall j: nat :: !Fits(t, chosen, j)
  {
    var may := (i: nat) =>
      i < |t.hits| && i < |taken| && !taken[i] && used + Tokens(t.hits[i].chars) <= t.budget;
    var score := (i: nat) => if i < |t.hits| && i < |pens| then t.hits[i].base - t.discount(pens[i]) else 0.0;
    found, best := ScanBest(|t.hits|, may, score);
    forall j: nat ensures Fits(t, chosen, j) <==> j < |t.hits| && may(j) {
    }
    forall j: nat | Fits(t, chosen, j) ensures score(j) == Score(t, AsTracked, chosen, j) {
    }
  }

  /** One more pick, one more similarity. */
  lemma TrackedOn(t: Slate, chosen: seq<nat>, i: nat, j: nat)
    ensures var p, s := Tracked(Sims(t, chosen, j)), Similarity(t, j, i);
            Tracked(Sims(t, chosen + [i], j)) == if p < 1.0 && s > p then s else p
  {
    assert (chosen + [i])[..|chosen|] == chosen;
    var sims := Sims(t, chosen, j);
    assert (sims + [Similarity(t, j, i)])[..|sims|] == sims;
  }

  /** The update of the penalties after a pick. */
  method Penalize(t: Slate, taken: seq<bool>, pens0: seq<real>, i: nat, ghost chosen: seq<nat>)
    returns (pens: seq<real>)
    requires i < |t.hits| == |taken| && PensOk(t, chosen, taken[i := false], pens0) && taken[i] && i !in chosen
    ensures PensOk(t, chosen + [i], taken, pens)
  {
    pens := pens0;
    for j := 0 to |t.hits|
      invariant |pens| == |pens0|
      invariant forall k :: j <= k < |pens| ==> pens[k] == pens0[k]
      invariant forall k :: 0 <= k < j && !taken[k] ==> pens[k] == Tracked(Sims(t, chosen + [i], k))
    {
      TrackedOn(t, chosen, i, j);
      var s := t.sim(t.hits[j].doc, t.hits[i].doc);
      if !taken[j] && pens[j] < 1.0 && s > pens[j] {
        pens := pens[j := s];
      }
    }
  }

  /** The documents of the picked hits. */
  predicate DocsOf(t: Slate, chosen: seq<nat>, docs: seq<nat>) {
    && |docs| == |chosen|
    && forall k :: 0 <= k < |docs| ==> chosen[k] < |t.hits| && docs[k] == t.hits[chosen[k]].doc
  }

  lemma DocsOn(t: Slate, chosen: seq<nat>, docs: seq<nat>, i: nat)
    requires DocsOf(t, chosen, docs) && i < |t.hits|
    ensures DocsOf(t, chosen + [i], docs + [t.hits[i].doc])
  {
  }

  // ----- What a selection means -----

  /** The largest similarity of hit `j` to the hits picked before, but never negative. */
  ghost predicate PenaltyIs(hits: seq<Hit>, sim: (nat, nat) -> real, before: seq<nat>, j: nat, m: real)
    requires j < |hits|
  {
    && m >= 0.0
    && (forall c :: c in before && c < |hits| ==> sim(hits[j].doc, hits[c].doc) <= m)
    && (m == 0.0 || exists c :: c in before && c < |hits| && sim(hits[j].doc, hits[c].doc) == m)
  }

  /** The tokens of the hits picked. */
  ghost function TokensOf(hits: seq<Hit>, picked: seq<nat>): nat
    requires forall k :: 0 <= k < |picked| ==> picked[k] < |hits|
  {
    if picked == [] then 0
    else TokensOf(hits, picked[..|picked| - 1]) + Tokens(hits[picked[|picked| - 1]].chars)
  }

  /** A hit that has not been picked and is still within the budget. */
  ghost predicate Affordable(hits: seq<Hit>, budget: nat, before: seq<nat>, j: nat)
    requires forall k :: 0 <= k < |before| ==> before[k] < |hits|
  {
    j < |hits| && j !in before && TokensOf(hits, before) + Tokens(hits[j].chars) <= budget
  }

  /** Of all affordable hits, `i` is the first with the largest base score less `diversity` times its penalty. */
  ghost predicate MarginallyBest(hits: seq<Hit>, budget: nat, diversity: real, sim: (nat, nat) -> real,
                                 before: seq<nat>, i: nat)
    requires forall k :: 0 <= k < |before| ==> before[k] < |hits|
  {
    && Affordable(hits, budget, before, i) && (exists m :: PenaltyIs(hits, sim, before, i, m))
    && forall j: nat, m, n ::
         Affordable(hits, budget, before, j) && PenaltyIs(hits, sim, before, j, m) &&
         PenaltyIs(hits, sim, before, i, n) ==>
         && hits[j].base - diversity * m <= hits[i].base - diversity * n
         && (j < i ==> hits[j].base - diversity * m < hits[i].base - diversity * n)
  }

  lemma {:induction false} SimsMembers(t: Slate, before: seq<nat>, j: nat, s: real)
    requires j < |t.hits| && forall k :: 0 <= k < |before| ==> before[k] < |t.hits|
    ensures s in Sims(t, before, j) <==> exists c :: c in before && t.sim(t.hits[j].doc, t.hits[c].doc) == s
  {
    if before != [] {
      var n := |before| - 1;
      SimsMembers(t, before[..n], j, s);
      assert before == before[..n] + [before[n]];
    }
  }

  lemma PenaltyOfSims(t: Slate, before: seq<nat>, j: nat, m: real)
    requires j < |t.hits| && forall k :: 0 <= k < |before| ==> before[k] < |t.hits|
    ensures PenaltyIs(t.hits, t.sim, before, j, m) <==> m == Penalty(Sims(t, before, j))
  {
    var sims := Sims(t, before, j);
    forall s ensures s in sims <==> exists c :: c in before && t.sim(t.hits[j].doc, t.hits[c].doc) == s {
      SimsMembers(t, before, j, s);
    }
    forall c | c in before ensures c < |t.hits| {}
    forall c | c in before ensures t.sim(t.hits[j].doc, t.hits[c].doc) in sims {}
  }

  lemma {:induction false} UsedIsTokens(t: Slate, picked: seq<nat>)
    requires forall k :: 0 <= k < |picked| ==> picked[k] < |t.hits|
    ensures Used(t, picked) == TokensOf(t.hits, picked)
  {
    if picked != [] {
      UsedIsTokens(t, picked[..|picked| - 1]);
    }
  }

  lemma FitsIsAffordable(t: Slate, before: seq<nat>, j: nat)
    requires forall k :: 0 <= k < |before| ==> before[k] < |t.hits|
    ensures Fits(t, before, j) <==> Affordable(t.hits, t.budget, before, j)
  {
    UsedIsTokens(t, before);
  }

  lemma DiscountIs(diversity: real, p: real)
    ensures Discount(diversity)(p) == diversity * p
  {
  }

  lemma ScoreIs(t: Slate, diversity: real, before: seq<nat>, j: nat, m: real)
    requires j < |t.hits| && forall k :: 0 <= k < |before| ==> before[k] < |t.hits|
    requires t.discount == Discount(diversity) && PenaltyIs(t.hits, t.sim, before, j, m)
    ensures Score(t, AsDefined, before, j) == t.hits[j].base - diversity * m
  {
    PenaltyOfSims(t, before, j, m);
    DiscountIs(diversity, m);
    assert Score(t, AsDefined, before, j) == t.hits[j].base - t.discount(m);
  }

  lemma BestIsMarginal(t: Slate, diversity: real, before: seq<nat>, i: nat)
    requires FirstBest(t, AsDefined, before, i) && forall k :: 0 <= k < |before| ==> before[k] < |t.hits|
    requires t.discount == Discount(diversity)
    ensures MarginallyBest(t.hits, t.budget, diversity, t.sim, before, i)
  {
    FitsIsAffordable(t, before, i);
    PenaltyOfSims(t, before, i, Penalty(Sims(t, before, i)));
    forall j: nat, m, n |
      Affordable(t.hits, t.budget, before, j) && PenaltyIs(t.hits, t.sim, before, j, m) &&
      PenaltyIs(t.hits, t.sim, before, i, n)
      ensures t.hits[j].base - diversity * m <= t.hits[i].base - diversity * n
      ensures j < i ==> t.hits[j].base - diversity * m < t.hits[i].base - diversity * n
    {
      FitsIsAffordable(t, before, j);
      ScoreIs(t, diversity, before, j, m);
      ScoreIs(t, diversity, before, i, n);
    }
  }

  /** Each pick is the marginally best one at its time. */
  lemma SelectedMarginally(t: Slate, kMax: nat, diversity: real, chosen: seq<nat>, k: nat)
    requires Selected(t, AsTracked, kMax, chosen) && t.discount == Discount(diversity) && k < |chosen|
    requires (forall a, b :: t.sim(a, b) <= 1.0) && forall h :: 0 <= h < |chosen| ==> chosen[h] < |t.hits|
    ensures MarginallyBest(t.hits, t.budget, diversity, t.sim, chosen[..k], chosen[k])
  {
    SelectedNaively(t, kMax, chosen);
    BestIsMarginal(t, diversity, chosen[..k], chosen[k]);
  }

  /** `mmr_select`, returning the positions picked beside the documents. */
  method MmrSelect(hits: seq<Hit>, budget: nat, kMax: nat, diversity: real, sim: (nat, nat) -> real)
    returns (docs: seq<nat>, ghost t: Slate, ghost chosen: seq<nat>)
    ensures multiset(t.hits) == multiset(hits)
    ensures forall i, j :: 0 <= i < j < |t.hits| ==> t.hits[i].base >= t.hits[j].base
    ensures t.budget == budget && t.sim == sim && forall p :: t.discount(p) == diversity * p
    ensures Selected(t, AsTracked, kMax, chosen)
    ensures DocsOf(t, chosen, docs)
    ensures Distinct(chosen) && TokensOf(t.hits, chosen) <= budget
    ensures |chosen| < kMax ==> forall j: nat :: !Affordable(t.hits, budget, chosen, j)
    ensures (forall a, b :: sim(a, b) <= 1.0) ==>
              forall k :: 0 <= k < |chosen| ==>
                MarginallyBest(t.hits, budget, diversity, sim, chosen[..k], chosen[k])
  {
    docs, t, chosen := SelectGreedily(hits, budget, kMax, diversity, sim);
    SelectionMeans(t, kMax, diversity, chosen);
    SortedFalls(t.hits);
  }

  lemma SortedFalls(hits: seq<Hit>)
    requires SortedBy(hits, (h: Hit) => -h.base)
    ensures forall i, j :: 0 <= i < j < |hits| ==> hits[i].base >= hits[j].base
  {
    var key := (h: Hit) => -h.base;
    forall i, j | 0 <= i < j < |hits| ensures hits[i].base >= hits[j].base {
      assert key(hits[i]) <= key(hits[j]);
    }
  }

  lemma SelectionMeans(t: Slate, kMax: nat, diversity: real, chosen: seq<nat>)
    requires Selected(t, AsTracked, kMax, chosen) && t.discount == Discount(diversity)
    ensures Distinct(chosen) && forall h :: 0 <= h < |chosen| ==> chosen[h] < |t.hits|
    ensures TokensOf(t.hits, chosen) <= t.budget
    ensures |chosen| < kMax ==> forall j: nat :: !Affordable(t.hits, t.budget, chosen, j)
    ensures (forall a, b :: t.sim(a, b) <= 1.0) ==>
              forall k :: 0 <= k < |chosen| ==>
                MarginallyBest(t.hits, t.budget, diversity, t.sim, chosen[..k], chosen[k])
  {
    GreedyWithinBudget(t, AsTracked, chosen);
    forall h | 0 <= h < |chosen| ensures chosen[h] < |t.hits| {
      assert chosen[h] in chosen;
    }
    UsedIsTokens(t, chosen);
    forall j: nat | |chosen| < kMax ensures !Affordable(t.hits, t.budget, chosen, j) {
      FitsIsAffordable(t, chosen, j);
    }
    if forall a, b :: t.sim(a, b) <= 1.0 {
      forall k | 0 <= k < |chosen|
        ensures MarginallyBest(t.hits, t.budget, diversity, t.sim, chosen[..k], chosen[k])
      {
        SelectedMarginally(t, kMax, diversity, chosen, k);
      }
    }
  }

  /** The greedy loop. */
  method SelectGreedily(hits: seq<Hit>, budget: nat, kMax: nat, diversity: real, sim: (nat, nat) -> real)
    returns (docs: seq<nat>, ghost t: Slate, ghost chosen: seq<nat>)
    ensures multiset(t.hits) == multiset(hits) && SortedBy(t.hits, (h: Hit) => -h.base)
    ensures t.budget == budget && t.sim == sim && t.discount == Discount(diversity)
    ensures Selected(t, AsTracked, kMax, chosen) && DocsOf(t, chosen, docs)
  {
    var slate := Slate(SortBy(hits, (h: Hit) => -h.base), budget, Discount(diversity), sim);
    SortBySorts(hits, (h: Hit) => -h.base);
    t, chosen, docs := slate, [], [];
    var used: nat, taken, pens := 0, seq(|slate.hits|, _ => false), seq(|slate.hits|, _ => 0.0);
    var picks := 0;
    while picks < kMax
      invariant picks == |chosen| <= kMax && Selecting(t, chosen, docs, used, taken, pens)
    {
      var found, i := FindBest(slate, used, taken, pens, chosen);
      if !found {
        break;
      }
      ghost var before := taken;
      used := used + Tokens(slate.hits[i].chars);
      taken := taken[i := true];
      assert taken[i := false] == before;
      pens := Penalize(slate, taken, pens, i, chosen);
      SelectingOn(t, chosen, docs, i, taken, pens);
      chosen := chosen + [i];
      docs := docs + [slate.hits[i].doc];
      picks := picks + 1;
    }
  }

  /** What the loop keeps. */
  ghost predicate Selecting(t: Slate, chosen: seq<nat>, docs: seq<nat>, used: nat, taken: seq<bool>, pens: seq<real>) {
    && Greedy(t, AsTracked, chosen) && PensOk(t, chosen, taken, pens) && used == Used(t, chosen)
    && DocsOf(t, chosen, docs)
  }

  lemma SelectingOn(t: Slate, chosen: seq<nat>, docs: seq<nat>, i: nat, taken: seq<bool>, pens: seq<real>)
    requires Greedy(t, AsTracked, chosen) && FirstBest(t, AsTracked, chosen, i) && DocsOf(t, chosen, docs)
    requires PensOk(t, chosen + [i], taken, pens)
    ensures Selecting(t, chosen + [i], docs + [t.hits[i].doc], Used(t, chosen) + Tokens(t.hits[i].chars), taken, pens)
  {
    GreedyOn(t, AsTracked, chosen, i);
    DocsOn(t, chosen, docs, i);
  }

  lemma GreedyOn(t: Slate, pricing: Pricing, chosen: seq<nat>, i: nat)
    requires Greedy(t, pricing, chosen) && FirstBest(t, pricing, chosen, i)
    ensures Greedy(t, pricing, chosen + [i])
    ensures Used(t, chosen + [i]) == Used(t, chosen) + Tokens(t.hits[i].chars)
  {
    var next := chosen + [i];
    assert next[..|chosen|] == chosen;
    forall k | 0 <= k < |next| ensures FirstBest(t, pricing, next[..k], next[k]) {
      if k < |chosen| {
        assert next[..k] == chosen[..k] && next[k] == chosen[k];
      }
    }
  }
}
