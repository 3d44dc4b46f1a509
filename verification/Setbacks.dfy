/**
 * Two ways in which a directory can show less than memory held, and the session that opens it then: the
 * window in which an archiving checkpoint has moved the log away, and an operation that lacks its newline,
 * which the next append takes with it.
 */
module Setbacks {
  import opened Wrappers
  import opened Records
  import opened Replay
  import opened Absorb
  import opened FileNames
  import opened Disk
  import opened Invariants
  import opened Durability
  import opened Operations
  import opened Checkpoints
  import opened CheckpointSteps

  lemma SlotSingle(ops: seq<WalOp>, x: nat, s: Slot)
    requires s.Single() && LandsOn(ops, x, s)
    ensures SlotReplay(ops, x, s).Single()
  {
    if x in RememberedIds(ops) {
      CreatedSingle(ops, x, s);
    } else {
      ReplayClosedForm(ops, x, s);
    }
  }

  // ----- The window between the renames of an archiving checkpoint -----

  /** Only ids below the counter that is left are known to have been used. */
  function LostHistory(v: View, h: History): History {
    h.(base := if h.settled == 0 then h.base else v.snap,
       owners := map x | x in h.owners && x < v.snap.nextId :: h.owners[x],
       settled := 0)
  }

  lemma LostCounter(v: View, h: History)
    requires LogOk(v, h)
    ensures ReplayAll(v.arch, v.snap).nextId == v.snap.nextId
  {
    RememberedMentioned(v.arch);
    NextIdStays(v.arch, v.snap);
  }

  /** The image that is left is what base and archived logs lead to. */
  lemma LostExplained(v: View, h: History)
    requires LogOk(v, h)
    ensures var g, lost := LostHistory(v, h), ReplayAll(v.arch, v.snap);
            Explains(v.arch, g.base, lost, g.owners)
  {
    var g, lost := LostHistory(v, h), ReplayAll(v.arch, v.snap);
    LostDisjoint(v, h);
    RepeatableParts(v.arch, v.live, h.base);
    forall i | 0 <= i < |v.arch| ensures OpAgrees(v.arch[i], g.owners) {
      assert (v.arch + v.live)[i] == v.arch[i];
      assert OpAgrees((v.arch + v.live)[i], h.owners) && OpId(v.arch[i]) in IdsOf(v.arch);
    }
    if h.settled > 0 {
      forall x: nat ensures LandsOn([], x, SlotOf(g.base, x)) && StaysFiled([], x) {
      }
      ReplayFollows([], v.snap);
    }
  }

  lemma LostNoted(v: View, h: History)
    requires LogOk(v, h)
    ensures Noted(v.arch, LostHistory(v, h))
  {
    var g := LostHistory(v, h);
    IdsOfConcat(v.arch, v.live);
    forall x | x in FiledIds(v.arch) ensures x in h.filed {
      var i :| 0 <= i < |v.arch| && v.arch[i].Remember? && v.arch[i].row.archived && OpId(v.arch[i]) == x;
      assert (v.arch + v.live)[i] == v.arch[i];
      assert x in FiledIds(v.arch + v.live);
    }
    forall x | x in Stored(g.base) ensures x in h.known {
      if h.settled > 0 {
        SnapKnown(v, h, x);
      }
    }
    forall x: nat | x !in g.lost ensures LandsFrom(v.arch, x, g.base) {
      if h.settled == 0 {
        assert LandsFrom(v.arch + v.live, x, h.base);
        LandsSplit(v.arch, v.live, x, x in Stored(h.base));
      }
    }
  }

  lemma SnapKnown(v: View, h: History, x: nat)
    requires LogOk(v, h) && h.settled > 0 && x in Stored(v.snap)
    ensures x in h.known
  {
    var head := v.live[..h.settled];
    assert SettledSlot(v, h.settled, h.base, x);
    DisjointSlots(h.base, x);
    StoredAlike(v.snap, v.snap, x);
    if x in RememberedIds(head) {
      var i :| 0 <= i < |head| && head[i].Remember? && OpId(head[i]) == x;
      assert (v.arch + v.live)[i] == head[i];
      assert x in IdsOf(v.arch + v.live);
    } else {
      AbsentStays(head, x, SlotOf(h.base, x));
    }
  }

  lemma LostLogOk(v: View, h: History)
    requires LogOk(v, h)
    ensures LogOk(v.(live := []), LostHistory(v, h))
  {
    var w, g := v.(live := []), LostHistory(v, h);
    assert w.arch + w.live == v.arch;
    LostExplained(v, h);
    LostNoted(v, h);
    forall x | x in v.snap.docs || x in v.snap.archive ensures x in g.owners {
    }
    if h.settled > 0 {
      ReplayFollows([], v.snap);
    }
  }

  lemma LostKept(v: View, h: History)
    requires LogOk(v, h) && PrefixesKept(v, h)
    ensures Kept(ReplayAll(v.arch, v.snap), h)
  {
    if h.settled == 0 {
      assert Kept(RecoveredAt(v, 0), h);
      assert v.arch + v.live[..0] == v.arch;
    }
  }

  /** The session that opens such a directory is linked to it: only the log since the last checkpoint is gone. */
  lemma LostSafe(e: Directory, v: View, mem: Image, h: History)
    requires Shaped(e) && ViewOf(e) == Ok(v.(live := [])) && Linked(v, mem, h)
    ensures OpensWith(e, LostHistory(v, h))
  {
    var w, g := v.(live := []), LostHistory(v, h);
    var lost := ReplayAll(v.arch, v.snap);
    assert w.arch + w.live == v.arch;
    LostLogOk(v, h);
    LostCounter(v, h);
    LostKept(v, h);
    ReplayAgrees(v.arch, v.snap, g.owners);
    RecoveredCovered(v.arch, g.base, v.snap, g.owners);
    assert w.live[..0] == [];
    assert Kept(RecoveredAt(w, 0), g);
    SelfLinked(w, g);
    OpensAs(e, w, g);
  }

  // ----- An operation without its newline -----

  lemma FollowsMore(img: Image, base: Image, xs: seq<WalOp>, ys: seq<WalOp>)
    requires Disjoint(base) && Repeatable(xs + ys, base) && Follows(img, base, xs)
    ensures Follows(ReplayAll(ys, img), base, xs + ys)
  {
    forall x: nat
      ensures SlotGrows(SlotReplay(xs + ys, x, SlotOf(base, x)), SlotOf(ReplayAll(ys, img), x))
      ensures x in RememberedIds(xs + ys) ==>
                SlotReplay(xs + ys, x, SlotOf(base, x)) == SlotOf(ReplayAll(ys, img), x)
    {
      FollowsMoreAt(img, base, xs, ys, x);
    }
  }

  lemma FollowsMoreAt(img: Image, base: Image, xs: seq<WalOp>, ys: seq<WalOp>, x: nat)
    requires Disjoint(base) && Repeatable(xs + ys, base) && Follows(img, base, xs)
    ensures SlotGrows(SlotReplay(xs + ys, x, SlotOf(base, x)), SlotOf(ReplayAll(ys, img), x))
    ensures x in RememberedIds(xs + ys) ==>
              SlotReplay(xs + ys, x, SlotOf(base, x)) == SlotOf(ReplayAll(ys, img), x)
  {
    var s, t := SlotReplay(xs, x, SlotOf(base, x)), SlotOf(img, x);
    DisjointSlots(base, x);
    assert LandsOn(xs + ys, x, SlotOf(base, x));
    LandsParts(xs, ys, x, SlotOf(base, x));
    SlotSingle(xs, x, SlotOf(base, x));
    assert SlotGrows(s, t);
    SlotReplayAppend(xs, ys, x, SlotOf(base, x));
    ReplaySlot(ys, img, x);
    SlotReplayGrows(ys, x, s, t);
    RememberedConcat(xs, ys);
    if x in RememberedIds(ys) && Lands(ys, x, true) {
      RemadeAgain(ys, x, s, t);
    }
  }

  /** What the first entries of the live log lead to, past those that the snapshot contains. */
  lemma PrefixFollows(v: View, h: History, p: nat)
    requires LogOk(v, h) && h.settled <= p <= |v.live|
    ensures Follows(RecoveredAt(v, p), h.base, v.arch + v.live[..p]) && Repeatable(v.arch + v.live[..p], h.base)
  {
    var before := v.live[..p];
    assert v.arch + v.live == (v.arch + before) + v.live[p..];
    RepeatableParts(v.arch + before, v.live[p..], h.base);
    LostDisjoint(v, h);
    if h.settled == 0 {
      FollowsMore(ReplayAll(v.arch, v.snap), h.base, v.arch, before);
      ReplayAppend(v.arch, before, v.snap);
    } else {
      var head, mid := v.live[..h.settled], v.live[h.settled..p];
      assert before == head + mid && v.arch + before == before;
      SettledFollows(v, h);
      FollowsMore(ReplayAll(head, v.snap), h.base, head, mid);
      ReplayAppend(head, mid, v.snap);
    }
  }

  lemma SettledFollows(v: View, h: History)
    requires LogOk(v, h) && h.settled > 0
    ensures Follows(ReplayAll(v.live[..h.settled], v.snap), h.base, v.live[..h.settled])
  {
    var head := v.live[..h.settled];
    var img := ReplayAll(head, v.snap);
    assert v.arch + v.live == head + v.live[h.settled..];
    RepeatableParts(head, v.live[h.settled..], h.base);
    forall x: nat
      ensures SlotGrows(SlotReplay(head, x, SlotOf(h.base, x)), SlotOf(img, x))
      ensures x in RememberedIds(head) ==> SlotReplay(head, x, SlotOf(h.base, x)) == SlotOf(img, x)
    {
      var b, t := SlotOf(h.base, x), SlotOf(v.snap, x);
      assert SettledSlot(v, h.settled, h.base, x);
      assert LandsOn(head, x, b) && StaysFiled(head, x);
      DisjointSlots(h.base, x);
      StoredAlike(v.snap, v.snap, x);
      ReplaySlot(head, v.snap, x);
      SlotGrowsReflexive(SlotOf(img, x));
      if x in RememberedIds(head) {
        CreatedIdAbsorbed(head, x, b);
      } else {
        OldIdAbsorbed(head, x, b, t);
      }
    }
  }

  /** The history without the last operation of the log. */
  function CutHistory(op: WalOp, h: History): History {
    if op.Remember? then h.(owners := h.owners - {OpId(op)}) else h
  }

  /**
   * The last operation of the live log is not in the snapshot yet, and it remembers an id that base and
   * logs did not know before, or is about a record that was stored before it.
   */
  ghost predicate Cuttable(v: View, h: History) {
    && h.settled < |v.live|
    && var n := |v.live| - 1;
    var x := OpId(v.live[n]);
    if v.live[n].Remember? then x !in Stored(h.base) && x !in IdsOf(v.arch + v.live[..n])
    else x in Stored(RecoveredAt(v, n))
  }

  function CutView(v: View): View
    requires v.live != []
  {
    v.(live := v.live[..|v.live| - 1])
  }

  lemma CutSplit(v: View)
    requires v.live != []
    ensures var n := |v.live| - 1;
            v.arch + v.live == (v.arch + v.live[..n]) + [v.live[n]] && CutView(v).live == v.live[..n]
    ensures Recovered(v) == Apply(v.live[|v.live| - 1], Recovered(CutView(v)))
  {
    var n := |v.live| - 1;
    assert v.live == v.live[..n] + [v.live[n]];
    assert v.arch + v.live == (v.arch + v.live[..n]) + [v.live[n]];
    ReplayOne(v.arch + v.live[..n], v.live[n], v.snap);
  }

  lemma UnmentionedUnstored(v: View, h: History, n: nat, x: nat)
    requires LogOk(v, h) && h.settled <= n <= |v.live|
    requires x !in Stored(h.base) && x !in IdsOf(v.arch + v.live[..n])
    ensures x !in Stored(v.snap)
  {
    var b := SlotOf(h.base, x);
    DisjointSlots(h.base, x);
    StoredAlike(v.snap, v.snap, x);
    IdsOfConcat(v.arch, v.live[..n]);
    if h.settled == 0 {
      UntouchedSlot(v.arch, x, b);
      assert SlotGrows(SlotReplay(v.arch, x, b), SlotOf(v.snap, x));
    } else {
      var head := v.live[..h.settled];
      assert v.live[..n] == head + v.live[h.settled..n];
      IdsOfConcat(head, v.live[h.settled..n]);
      RememberedMentioned(head);
      UntouchedSlot(head, x, b);
      assert SettledSlot(v, h.settled, h.base, x);
    }
  }

  lemma AgreesWithout(img: Image, owners: Owners, x: nat)
    requires Agrees(img, owners) && ListsStored(img) && x !in Stored(img)
    ensures Agrees(img, owners - {x})
  {
  }

  lemma CutSnapAgrees(v: View, h: History)
    requires LogOk(v, h) && Cuttable(v, h)
    ensures Agrees(v.snap, CutHistory(v.live[|v.live| - 1], h).owners)
  {
    var n := |v.live| - 1;
    if v.live[n].Remember? {
      UnmentionedUnstored(v, h, n, OpId(v.live[n]));
      AgreesWithout(v.snap, h.owners, OpId(v.live[n]));
    }
  }

  lemma CutFits(v: View, h: History)
    requires SnapshotFits(v, h) && h.settled < |v.live|
    ensures SnapshotFits(CutView(v), CutHistory(v.live[|v.live| - 1], h))
  {
    var w, g := CutView(v), CutHistory(v.live[|v.live| - 1], h);
    assert w.live[..h.settled] == v.live[..h.settled];
    forall x: nat | h.settled > 0 ensures SettledSlot(w, g.settled, g.base, x) {
      assert SettledSlot(v, h.settled, h.base, x);
    }
  }

  lemma CutExplained(v: View, h: History)
    requires LogOk(v, h) && Cuttable(v, h)
    ensures var w, g := CutView(v), CutHistory(v.live[|v.live| - 1], h);
            Explains(w.arch + w.live, g.base, Recovered(w), g.owners)
  {
    var n := |v.live| - 1;
    var w, g := CutView(v), CutHistory(v.live[n], h);
    CutSplit(v);
    PrefixFollows(v, h, n);
    forall i | 0 <= i < |w.arch + w.live| ensures OpAgrees((w.arch + w.live)[i], g.owners) {
      assert (v.arch + v.live)[i] == (w.arch + w.live)[i];
      assert OpAgrees((v.arch + v.live)[i], h.owners);
      assert OpId((w.arch + w.live)[i]) in IdsOf(w.arch + w.live);
    }
  }

  lemma CutNoted(v: View, h: History)
    requires LogOk(v, h) && Cuttable(v, h)
    ensures var w, g := CutView(v), CutHistory(v.live[|v.live| - 1], h);
            Noted(w.arch + w.live, g) && CounterOk(w, g)
  {
    var n := |v.live| - 1;
    var w, g := CutView(v), CutHistory(v.live[n], h);
    var ops := w.arch + w.live;
    CutSplit(v);
    IdsOfConcat(ops, [v.live[n]]);
    RememberedExtend(ops, v.live[n]);
    forall x | x in FiledIds(ops) ensures x in h.filed {
      var i :| 0 <= i < |ops| && ops[i].Remember? && ops[i].row.archived && OpId(ops[i]) == x;
      assert (v.arch + v.live)[i] == ops[i];
      assert x in FiledIds(v.arch + v.live);
    }
    forall x: nat | x !in g.lost ensures LandsFrom(ops, x, g.base) {
      assert LandsFrom(v.arch + v.live, x, h.base);
      LandsSplit(ops, [v.live[n]], x, x in Stored(h.base));
    }
  }

  lemma CutLogOk(v: View, h: History)
    requires LogOk(v, h) && Cuttable(v, h)
    ensures LogOk(CutView(v), CutHistory(v.live[|v.live| - 1], h))
  {
    CutExplained(v, h);
    CutNoted(v, h);
    CutSnapAgrees(v, h);
    CutFits(v, h);
  }

  lemma CutKept(v: View, h: History)
    requires PrefixesKept(v, h) && h.settled < |v.live|
    ensures PrefixesKept(CutView(v), CutHistory(v.live[|v.live| - 1], h))
    ensures Kept(Recovered(CutView(v)), h)
  {
    var n := |v.live| - 1;
    var w, g := CutView(v), CutHistory(v.live[n], h);
    forall p | g.settled <= p <= |w.live| ensures Kept(RecoveredAt(w, p), g) {
      assert w.live[..p] == v.live[..p];
      assert Kept(RecoveredAt(v, p), h);
    }
    assert Kept(RecoveredAt(v, n), h);
  }

  lemma CutMemOk(v: View, h: History)
    requires LogOk(v, h) && Cuttable(v, h)
    ensures MemOk(Recovered(CutView(v)), CutHistory(v.live[|v.live| - 1], h).owners)
  {
    var w, g := CutView(v), CutHistory(v.live[|v.live| - 1], h);
    var ops := w.arch + w.live;
    CutLogOk(v, h);
    ReplayAgrees(ops, w.snap, g.owners);
    RecoveredCovered(ops, g.base, w.snap, g.owners);
    NextIdGrows(ops, w.snap);
  }

  /** A directory whose log has lost its last operation is linked to memory before that operation. */
  lemma CutSafe(e: Directory, v: View, mem: Image, h: History)
    requires Linked(v, mem, h) && Cuttable(v, h) && Shaped(e) && ViewOf(e) == Ok(CutView(v))
    ensures Survives(e, Recovered(CutView(v)), CutHistory(v.live[|v.live| - 1], h))
  {
    var w, g := CutView(v), CutHistory(v.live[|v.live| - 1], h);
    CutLogOk(v, h);
    CutKept(v, h);
    CutMemOk(v, h);
    GrowsReflexive(Recovered(w));
    SurvivesAs(e, w, Recovered(w), g);
  }

  /** That operation is then one that memory is ahead by. */
  lemma CutAhead(v: View, mem: Image, h: History)
    requires Linked(v, mem, h) && Cuttable(v, h)
    ensures var op := v.live[|v.live| - 1];
            var g := CutHistory(op, h);
            && AllowedAll([op], Recovered(CutView(v)), g) && Unowned([op], g.owners)
            && ReplayAll([op], Recovered(CutView(v))) == Recovered(v)
  {
    var n := |v.live| - 1;
    var op, prev := v.live[n], Recovered(CutView(v));
    var g := CutHistory(op, h);
    CutSplit(v);
    assert RecoveredAt(v, n) == prev;
    assert v.live[..|v.live|] == v.live;
    assert Kept(RecoveredAt(v, |v.live|), h);
    OneAllowed(op, prev, g);
    LastRow1(op);
    assert [op][1..] == [];
  }

  lemma CutBehind(d: Directory, e: Directory, mem: Image, h: History)
    requires Survives(d, mem, h) && Cuttable(ViewOf(d).value, h)
    requires Shaped(e) && ViewOf(e) == Ok(CutView(ViewOf(d).value))
    ensures var v := ViewOf(d).value;
            var op := v.live[|v.live| - 1];
            && Behind(e, Recovered(CutView(v)), CutHistory(op, h), [op])
            && ReplayAll([op], Recovered(CutView(v))) == Recovered(v)
  {
    CutSafe(e, ViewOf(d).value, mem, h);
    CutAhead(ViewOf(d).value, mem, h);
  }

  lemma LastRow1(op: WalOp)
    ensures RememberedIds([op]) == if op.Remember? then {OpId(op)} else {}
  {
    assert [op][0] == op;
  }
}
