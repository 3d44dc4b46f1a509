/**
 * Checkpoints: what recovery reads before the manifest switch, between the switch and the new log,
 * and after it, for the plain form and for the form that archives the log.
 */
module Checkpoints {
  import opened Wrappers
  import opened Records
  import opened Replay
  import opened Absorb
  import opened FileNames
  import opened Disk
  import opened Invariants
  import opened Durability
  import opened Operations

  /** Loading the rows gives back both maps, with complete and honest subject lists. */
  ghost predicate SnapshotOf(rows: seq<SnapshotRow>, mem: Image, owners: Owners) {
    var img := LoadRows(rows, EmptyImage(mem.nextId));
    && img.docs == mem.docs && img.archive == mem.archive && img.nextId == mem.nextId
    && Covered(img) && Agrees(img, owners)
  }

  function Snapshot(rows: seq<SnapshotRow>, mem: Image): Image {
    LoadRows(rows, EmptyImage(mem.nextId))
  }

  lemma SameMapsSameSlots(a: Image, b: Image)
    requires a.docs == b.docs && a.archive == b.archive
    ensures forall x :: SlotOf(a, x) == SlotOf(b, x)
  {
  }

  lemma FollowsSameMaps(a: Image, b: Image, base: Image, ops: seq<WalOp>)
    requires a.docs == b.docs && a.archive == b.archive
    requires Follows(a, base, ops)
    ensures Follows(b, base, ops)
  {
    forall x
      ensures SlotGrows(SlotReplay(ops, x, SlotOf(base, x)), SlotOf(b, x))
      ensures x in RememberedIds(ops) ==> SlotReplay(ops, x, SlotOf(base, x)) == SlotOf(b, x)
    {
      assert SlotOf(a, x) == SlotOf(b, x);
      assert SlotGrows(SlotReplay(ops, x, SlotOf(base, x)), SlotOf(a, x));
    }
  }

  /** Replaying operations on known ids never moves the id counter. */
  lemma {:induction false} NextIdStays(ops: seq<WalOp>, img: Image)
    requires forall x :: x in RememberedIds(ops) ==> x < img.nextId
    ensures ReplayAll(ops, img).nextId == img.nextId
  {
    if ops != [] {
      HeadFacts(ops, 0);
      NextIdStays(ops[1..], Apply(ops[0], img));
    }
  }

  lemma RememberedOwned(ops: seq<WalOp>, mem: Image, owners: Owners)
    requires OpsAgree(ops, owners) && MemOk(mem, owners)
    ensures forall x :: x in RememberedIds(ops) ==> x in owners && x < mem.nextId
  {
    forall x | x in RememberedIds(ops) ensures x in owners && x < mem.nextId {
      var i :| 0 <= i < |ops| && ops[i].Remember? && OpId(ops[i]) == x;
      assert OpAgrees(ops[i], owners);
    }
  }

  // ----- The log after the last completed checkpoint, on its own -----

  lemma {:induction false} StoredAfter(ops: seq<WalOp>, base: Image)
    ensures Stored(ReplayAll(ops, base)) <= Stored(base) + IdsOf(ops)
  {
    forall x | x in Stored(ReplayAll(ops, base)) ensures x in Stored(base) + IdsOf(ops) {
      ReplaySlot(ops, base, x);
      if x !in IdsOf(ops) {
        UntouchedSlot(ops, x, SlotOf(base, x));
      }
    }
  }

  lemma FiledParts(xs: seq<WalOp>, ys: seq<WalOp>, x: nat)
    requires StaysFiled(xs + ys, x)
    ensures StaysFiled(xs, x) && StaysFiled(ys, x)
  {
    var all := xs + ys;
    forall i, j | 0 <= i < j < |xs| && Rows(xs[i], x) && Rows(xs[j], x) && xs[i].row.archived
      ensures xs[j].row.archived
    {
      assert all[i] == xs[i] && all[j] == xs[j];
    }
    forall i, j | 0 <= i < j < |ys| && Rows(ys[i], x) && Rows(ys[j], x) && ys[i].row.archived
      ensures ys[j].row.archived
    {
      assert all[|xs| + i] == ys[i] && all[|xs| + j] == ys[j];
    }
  }

  lemma LandsParts(xs: seq<WalOp>, ys: seq<WalOp>, x: nat, s: Slot)
    requires LandsOn(xs + ys, x, s) && s.Single()
    ensures LandsOn(xs, x, s) && LandsOn(ys, x, SlotReplay(xs, x, s))
  {
    var held := Lands(xs + ys, x, true);
    LandsSplit(xs, ys, x, held);
    if !HeldAfter(xs, x, held) {
      GoneSlot(xs, x, held, s);
    }
  }

  /** The two parts of a repeatable log are repeatable, the second from where the first leads. */
  lemma RepeatableParts(xs: seq<WalOp>, ys: seq<WalOp>, base: Image)
    requires Disjoint(base) && Repeatable(xs + ys, base)
    ensures Repeatable(xs, base) && Repeatable(ys, ReplayAll(xs, base))
  {
    forall x: nat
      ensures LandsOn(xs, x, SlotOf(base, x)) && LandsOn(ys, x, SlotOf(ReplayAll(xs, base), x))
      ensures StaysFiled(xs, x) && StaysFiled(ys, x)
    {
      assert LandsOn(xs + ys, x, SlotOf(base, x)) && StaysFiled(xs + ys, x);
      DisjointSlots(base, x);
      ReplaySlot(xs, base, x);
      LandsParts(xs, ys, x, SlotOf(base, x));
      FiledParts(xs, ys, x);
    }
  }

  lemma IdsOfConcat(xs: seq<WalOp>, ys: seq<WalOp>)
    ensures IdsOf(xs + ys) == IdsOf(xs) + IdsOf(ys)
    ensures RememberedIds(ys) <= RememberedIds(xs + ys)
  {
    var zs := xs + ys;
    forall x | x in IdsOf(xs) ensures x in IdsOf(zs) {
      var i :| 0 <= i < |xs| && OpId(xs[i]) == x;
      assert zs[i] == xs[i];
    }
    forall x | x in IdsOf(ys) ensures x in IdsOf(zs) {
      var i :| 0 <= i < |ys| && OpId(ys[i]) == x;
      assert zs[|xs| + i] == ys[i];
    }
    forall x | x in RememberedIds(ys) ensures x in RememberedIds(zs) {
      var i :| 0 <= i < |ys| && ys[i].Remember? && OpId(ys[i]) == x;
      assert zs[|xs| + i] == ys[i];
    }
    forall x | x in IdsOf(zs) ensures x in IdsOf(xs) + IdsOf(ys) {
      var i :| 0 <= i < |zs| && OpId(zs[i]) == x;
      if i < |xs| {
        assert zs[i] == xs[i];
      } else {
        assert zs[i] == ys[i - |xs|];
      }
    }
  }

  /** Replaying the archived part first moves the base: the live log alone is again a log of fresh ids over it. */
  lemma Rebase(arch: seq<WalOp>, live: seq<WalOp>, base: Image, mem: Image, owners: Owners)
    requires Explains(arch + live, base, mem, owners)
    ensures Explains(live, ReplayAll(arch, base), mem, owners)
  {
    var next := ReplayAll(arch, base);
    RepeatableParts(arch, live, base);
    ReplayFollows(arch, base);
    forall x | x in next.docs ensures x !in next.archive {
      FollowsSingle(arch, base, next, x);
    }
    StoredAfter(arch, base);
    forall i | 0 <= i < |arch| ensures OpAgrees(arch[i], owners) {
      assert (arch + live)[i] == arch[i];
    }
    forall i | 0 <= i < |live| ensures OpAgrees(live[i], owners) {
      assert (arch + live)[|arch| + i] == live[i];
    }
    IdsOwned(arch, owners);
    RebaseFollows(arch, live, base, mem);
  }

  lemma RebaseFollows(arch: seq<WalOp>, live: seq<WalOp>, base: Image, mem: Image)
    requires Follows(mem, base, arch + live)
    ensures Follows(mem, ReplayAll(arch, base), live)
  {
    var next := ReplayAll(arch, base);
    IdsOfConcat(arch, live);
    forall x
      ensures SlotGrows(SlotReplay(live, x, SlotOf(next, x)), SlotOf(mem, x))
      ensures x in RememberedIds(live) ==> SlotReplay(live, x, SlotOf(next, x)) == SlotOf(mem, x)
    {
      SlotReplayAppend(arch, live, x, SlotOf(base, x));
      ReplaySlot(arch, base, x);
      assert SlotGrows(SlotReplay(arch + live, x, SlotOf(base, x)), SlotOf(mem, x));
    }
  }

  // ----- Which operations have a visible effect on an id, and which a second replay undoes -----

  /** Replaying the operations leaves the record where it is and as it is. */
  predicate Steady(ops: seq<WalOp>, x: nat, s: Slot) {
    s.Absent() ||
    var d := if s.doc.Some? then s.doc.value else s.arch.value;
    && !Deletes(ops, x) && (s.doc.Some? ==> !Archives(ops, x))
    && TouchCount(ops, x) == 0 && LastForget(ops, x) in {None, d.record.validTo}
  }

  lemma NoTouchNoLast(ops: seq<WalOp>, x: nat)
    ensures TouchCount(ops, x) == 0 <==> LastTouch(ops, x).None?
  {
  }

  lemma SteadyExactly(ops: seq<WalOp>, x: nat, s: Slot)
    requires s.Single() && x !in RememberedIds(ops)
    ensures SlotReplay(ops, x, s) == s <==> Steady(ops, x, s)
    ensures SlotGrows(SlotReplay(ops, x, s), s) <==> Steady(ops, x, s)
  {
    ReplayClosedForm(ops, x, s);
    NoTouchNoLast(ops, x);
    if !s.Absent() {
      var d := if s.doc.Some? then s.doc.value else s.arch.value;
      assert Settle(ops, x, d).record.hits == d.record.hits + TouchCount(ops, x);
      assert DocGrows(Settle(ops, x, d), d) <==>
        TouchCount(ops, x) == 0 && LastForget(ops, x) in {None, d.record.validTo};
    }
  }

  predicate SameIfBoth(a: Option<int>, b: Option<int>) {
    a.Some? && b.Some? ==> a == b
  }

  /**
   * What replaying `ops` over a memory that has moved on by `later` would undo: of an id that `ops`
   * creates, anything; of an older one, a different end or last hit.
   */
  predicate SlotSafe(ops: seq<WalOp>, later: seq<WalOp>, x: nat, s: Slot) {
    if x in RememberedIds(ops) then Steady(later, x, s)
    else
      || s.Absent() || Deletes(later, x)
      || (&& SameIfBoth(LastForget(ops, x), LastForget(later, x))
          && SameIfBoth(LastTouch(ops, x), LastTouch(later, x)))
  }

  ghost predicate NothingUndone(ops: seq<WalOp>, later: seq<WalOp>, shown: Image) {
    forall x :: x in Stored(shown) ==> SlotSafe(ops, later, x, SlotOf(shown, x))
  }

  lemma NothingLater(ops: seq<WalOp>, shown: Image)
    ensures NothingUndone(ops, [], shown)
  {
  }

  /** An id that the log creates: replaying the log puts it back as the log left it. */
  lemma CreatedSlot(ops: seq<WalOp>, b: Slot, later: seq<WalOp>, x: nat)
    requires x in RememberedIds(ops) && LandsOn(ops, x, b) && StaysFiled(ops, x) && b.Single()
    requires x !in RememberedIds(later)
    ensures var s0 := SlotReplay(ops, x, b);
            var s := SlotReplay(later, x, s0);
            && s0.Single()
            && (SlotGrows(s, SlotReplay(ops, x, s)) <==> Steady(later, x, s0))
            && (Steady(later, x, s0) ==> s == s0)
  {
    var s0 := SlotReplay(ops, x, b);
    CreatedSingle(ops, x, b);
    ReplayClosedForm(later, x, s0);
    SteadyExactly(later, x, s0);
    CreatedAgain(ops, x, b, Final(later, x, s0));
  }

  /** An older id: only its end and its last hit can be put back. */
  lemma OldSlot(ops: seq<WalOp>, later: seq<WalOp>, x: nat, b: Slot, s0: Slot)
    requires x !in RememberedIds(ops) && x !in RememberedIds(later) && b.Single()
    requires SlotGrows(SlotReplay(ops, x, b), s0)
    ensures var s := SlotReplay(later, x, s0);
            && (SlotGrows(s, SlotReplay(ops, x, s)) <==> SlotSafe(ops, later, x, s0))
            && (SlotSafe(ops, later, x, s0) ==> SlotGrows(SlotReplay(ops, x, SlotReplay(later, x, b)), s))
  {
    ReplayClosedForm(ops, x, b);
    ReplayClosedForm(later, x, b);
    ReplayClosedForm(later, x, s0);
    ReplayClosedForm(ops, x, Final(later, x, s0));
    ReplayClosedForm(ops, x, Final(later, x, b));
    OldSlotAgain(ops, later, x, b, s0);
    if SlotSafe(ops, later, x, s0) {
      OldSlotBase(ops, later, x, b, s0);
    }
  }

  lemma OldSlotAgain(ops: seq<WalOp>, later: seq<WalOp>, x: nat, b: Slot, s0: Slot)
    requires b.Single() && s0.Single() && x !in RememberedIds(ops) && SlotGrows(Final(ops, x, b), s0)
    ensures SlotGrows(Final(later, x, s0), Final(ops, x, Final(later, x, s0))) <==> SlotSafe(ops, later, x, s0)
  {
  }

  lemma OldSlotBase(ops: seq<WalOp>, later: seq<WalOp>, x: nat, b: Slot, s0: Slot)
    requires b.Single() && s0.Single() && x !in RememberedIds(ops) && SlotGrows(Final(ops, x, b), s0)
    requires SlotSafe(ops, later, x, s0)
    ensures SlotGrows(Final(ops, x, Final(later, x, b)), Final(later, x, s0))
  {
  }

  /** None of the operations remembers an id that was ever used. */
  predicate Unowned(ops: seq<WalOp>, owners: Owners) {
    RememberedIds(ops) !! owners.Keys
  }

  lemma {:induction false} OwnersGrow(ops: seq<WalOp>, h: History, ids: set<nat>)
    requires ids <= h.owners.Keys && RememberedIds(ops) !! ids
    ensures h.owners.Keys <= ExtendAll(ops, h).owners.Keys
    ensures forall x :: x in ids ==> ExtendAll(ops, h).owners[x] == h.owners[x]
    ensures RememberedIds(ops) <= ExtendAll(ops, h).owners.Keys
  {
    if ops != [] {
      HeadFacts(ops, 0);
      OwnersGrow(ops[1..], Extend(ops[0], h), ids);
    }
  }

  /** One id of a memory that has moved on from the one a log explains. */
  lemma LaterSlot(ops: seq<WalOp>, later: seq<WalOp>, base: Image, shown: Image, owners: Owners, x: nat)
    requires Explains(ops, base, shown, owners) && Unowned(later, owners) && Stored(shown) <= owners.Keys
    ensures var s := SlotReplay(later, x, SlotOf(shown, x));
            var b := SlotReplay(later, x, SlotOf(base, x));
            var safe := SlotSafe(ops, later, x, SlotOf(shown, x));
            && LandsOn(ops, x, b) && (x in RememberedIds(later) ==> b == s)
            && (SlotGrows(s, SlotReplay(ops, x, s)) <==> x in Stored(shown) ==> safe)
            && ((x in Stored(shown) ==> safe) ==>
                  && SlotGrows(SlotReplay(ops, x, b), s)
                  && (x in RememberedIds(ops) ==> SlotReplay(ops, x, b) == s))
  {
    var s0, b0 := SlotOf(shown, x), SlotOf(base, x);
    DisjointSlots(base, x);
    FollowsSingle(ops, base, shown, x);
    StoredAlike(shown, shown, x);
    assert LandsOn(ops, x, b0) && StaysFiled(ops, x);
    assert SlotGrows(SlotReplay(ops, x, b0), s0);
    IdsOwned(ops, owners);
    if x in RememberedIds(ops) {
      CreatedLater(ops, later, x, b0, s0);
    } else if x in RememberedIds(later) {
      NewLater(ops, later, x, b0, s0);
    } else {
      AbsentStays(later, x, b0);
      OldSlot(ops, later, x, b0, s0);
    }
  }

  lemma CreatedLater(ops: seq<WalOp>, later: seq<WalOp>, x: nat, b0: Slot, s0: Slot)
    requires x in RememberedIds(ops) && LandsOn(ops, x, b0) && StaysFiled(ops, x) && b0.Single()
    requires x !in RememberedIds(later) && s0 == SlotReplay(ops, x, b0)
    ensures var s, b := SlotReplay(later, x, s0), SlotReplay(later, x, b0);
            && LandsOn(ops, x, b) && (SlotGrows(s, SlotReplay(ops, x, s)) <==> Steady(later, x, s0))
            && (Steady(later, x, s0) ==> SlotReplay(ops, x, b) == s)
            && (s0.Absent() ==> Steady(later, x, s0)) && SlotGrows(s, s)
  {
    CreatedSlot(ops, b0, later, x);
    AbsentStays(later, x, b0);
    ReplayClosedForm(later, x, b0);
    SlotGrowsReflexive(SlotReplay(later, x, s0));
    if Lands(ops, x, true) {
      RemadeAgain(ops, x, b0, SlotReplay(later, x, b0));
    }
  }

  lemma NewLater(ops: seq<WalOp>, later: seq<WalOp>, x: nat, b0: Slot, s0: Slot)
    requires x !in IdsOf(ops) && SlotGrows(SlotReplay(ops, x, b0), s0) && s0.Absent()
    ensures var s, b := SlotReplay(later, x, s0), SlotReplay(later, x, b0);
            b == s && LandsOn(ops, x, b) && SlotReplay(ops, x, s) == s && SlotGrows(s, s)
  {
    UntouchedSlot(ops, x, b0);
    UntouchedSlot(ops, x, SlotReplay(later, x, s0));
    UnmentionedLands(ops, x, true);
    SlotGrowsReflexive(SlotReplay(later, x, s0));
  }

  /**
   * A memory that has moved on from the one a log explains: replaying the log over it gives it back if
   * and only if nothing that happened since is undone, and then the log explains it in turn.
   */
  lemma CatchUp(ops: seq<WalOp>, later: seq<WalOp>, base: Image, shown: Image, h: History)
    requires Explains(ops, base, shown, h.owners) && MemOk(shown, h.owners)
    requires AllowedAll(later, shown, h) && Unowned(later, h.owners)
    ensures var mem := ReplayAll(later, shown);
            && (Grows(mem, ReplayAll(ops, mem)) <==> NothingUndone(ops, later, shown))
            && (NothingUndone(ops, later, shown) ==>
                  Explains(ops, ReplayAll(later, base), mem, ExtendAll(later, h).owners))
  {
    var mem := ReplayAll(later, shown);
    forall x ensures SlotGrows(SlotOf(mem, x), SlotOf(ReplayAll(ops, mem), x)) <==>
                     x in Stored(shown) ==> SlotSafe(ops, later, x, SlotOf(shown, x)) {
      ReplaySlot(later, shown, x);
      ReplaySlot(ops, mem, x);
      LaterSlot(ops, later, base, shown, h.owners, x);
    }
    if NothingUndone(ops, later, shown) {
      CaughtUp(ops, later, base, shown, h);
    }
  }

  lemma CaughtUp(ops: seq<WalOp>, later: seq<WalOp>, base: Image, shown: Image, h: History)
    requires Explains(ops, base, shown, h.owners) && MemOk(shown, h.owners)
    requires AllowedAll(later, shown, h) && Unowned(later, h.owners) && NothingUndone(ops, later, shown)
    ensures Explains(ops, ReplayAll(later, base), ReplayAll(later, shown), ExtendAll(later, h).owners)
  {
    var mem, next := ReplayAll(later, shown), ReplayAll(later, base);
    OwnersGrow(later, h, h.owners.Keys);
    forall x: nat
      ensures SlotGrows(SlotReplay(ops, x, SlotOf(next, x)), SlotOf(mem, x))
      ensures LandsOn(ops, x, SlotOf(next, x)) && StaysFiled(ops, x)
      ensures x in RememberedIds(ops) ==> SlotReplay(ops, x, SlotOf(next, x)) == SlotOf(mem, x)
    {
      ReplaySlot(later, shown, x);
      ReplaySlot(later, base, x);
      LaterSlot(ops, later, base, shown, h.owners, x);
    }
    LaterBase(ops, later, base, shown, h);
    StoredOwned(later, base, h);
    forall i | 0 <= i < |ops| ensures OpAgrees(ops[i], ExtendAll(later, h).owners) {
      assert OpAgrees(ops[i], h.owners);
    }
  }

  lemma LaterBase(ops: seq<WalOp>, later: seq<WalOp>, base: Image, shown: Image, h: History)
    requires Explains(ops, base, shown, h.owners) && MemOk(shown, h.owners)
    requires AllowedAll(later, shown, h) && Unowned(later, h.owners)
    ensures Disjoint(ReplayAll(later, base))
  {
    var mem, next := ReplayAll(later, shown), ReplayAll(later, base);
    CallKeepsMemOk(later, shown, h);
    forall x | x in next.docs ensures x !in next.archive {
      ReplaySlot(later, shown, x);
      ReplaySlot(later, base, x);
      DisjointSlots(base, x);
      DisjointSlots(mem, x);
      LaterSlot(ops, later, base, shown, h.owners, x);
      if x !in RememberedIds(later) {
        ReplayClosedForm(later, x, SlotOf(base, x));
      }
      assert SlotOf(next, x).Single();
    }
  }

  lemma StoredOwned(later: seq<WalOp>, base: Image, h: History)
    requires Stored(base) <= h.owners.Keys
    ensures Stored(ReplayAll(later, base)) <= ExtendAll(later, h).owners.Keys
  {
    OwnersGrow(later, h, {});
    forall x | x in Stored(ReplayAll(later, base)) ensures x in ExtendAll(later, h).owners {
      ReplaySlot(later, base, x);
      if x !in RememberedIds(later) {
        AbsentStays(later, x, SlotOf(base, x));
      }
    }
  }

  // ----- The three views of a plain checkpoint -----

  /** After the switch and before the log is recreated, the old live log is replayed over the new snapshot. */
  function SwitchedView(v: View, m: Manifest, rows: seq<SnapshotRow>, mem: Image): View {
    View(m, Snapshot(rows, mem), [], v.live)
  }

  /** The ids that the log uses though the base, from which records were dropped, lacks them. */
  function Unsaid(ops: seq<WalOp>, base: Image): set<nat> {
    set x | x in IdsOf(ops) && !LandsFrom(ops, x, base)
  }

  /** What is known once `ops` are the logs and lead from a new base. */
  function SwitchedHistory(ops: seq<WalOp>, base: Image, settled: nat, h: History): History {
    h.(base := base, settled := settled, lost := h.lost + Unsaid(ops, base))
  }

  lemma SwitchedNoted(ops: seq<WalOp>, base: Image, settled: nat, h: History)
    requires Covers(ops, base, h)
    ensures Noted(ops, SwitchedHistory(ops, base, settled, h))
  {
    var g := SwitchedHistory(ops, base, settled, h);
    forall x: nat | x !in g.lost ensures LandsFrom(ops, x, base) {
      if x !in IdsOf(ops) {
        UnmentionedLands(ops, x, x in Stored(base));
      }
    }
  }

  lemma {:induction false} LoadedLists(rows: seq<SnapshotRow>, img: Image)
    requires ListsStored(img)
    ensures ListsStored(LoadRows(rows, img))
  {
    if rows != [] {
      RouteLists(rows[0], img);
      LoadedLists(rows[1..], RouteRow(rows[0], img));
    }
  }

  lemma RouteLists(row: SnapshotRow, img: Image)
    requires ListsStored(img)
    ensures ListsStored(RouteRow(row, img))
  {
    var r := RouteRow(row, img);
    assert Stored(r) == Stored(img) + {row.record.id};
    forall s, x | s in r.subjects && x in r.subjects[s] ensures x in Stored(r) {
      if x != row.record.id {
        assert s in img.subjects && x in img.subjects[s];
      }
    }
  }

  /**
   * A crash in that window loses nothing: recovery gives memory back, hit counters never smaller, and
   * the next session is as durable as the one that crashed.
   */
  lemma SwitchedRecovers(v: View, m: Manifest, rows: seq<SnapshotRow>, base: Image, mem: Image, h: History)
    requires Explains(v.live, base, mem, h.owners) && MemOk(mem, h.owners) && Kept(mem, h)
    requires SnapshotOf(rows, mem, h.owners) && Covers(v.live, base, h)
    ensures var w := SwitchedView(v, m, rows, mem);
            && Grows(mem, Recovered(w)) && Recovered(w).nextId == mem.nextId
            && Linked(w, Recovered(w), SwitchedHistory(v.live, base, |v.live|, h))
  {
    var w := SwitchedView(v, m, rows, mem);
    SwitchedLogOk(v, m, rows, base, mem, h);
    assert w.arch + w.live == v.live;
    RememberedOwned(v.live, mem, h.owners);
    NextIdStays(v.live, w.snap);
    GrowsKeepsKept(mem, Recovered(w), h);
    KeptSameMaps(mem, w.snap, h);
    SelfLinked(w, SwitchedHistory(v.live, base, |v.live|, h));
  }

  lemma SelfLinked(w: View, g: History)
    requires LogOk(w, g) && Kept(Recovered(w), g) && g.settled == |w.live|
    requires g.settled > 0 ==> Kept(w.snap, g)
    ensures Linked(w, Recovered(w), g)
  {
    GrowsReflexive(Recovered(w));
    assert w.live[..|w.live|] == w.live;
  }

  /** Keeping says nothing about lists and counters. */
  lemma KeptSameMaps(a: Image, b: Image, h: History)
    requires a.docs == b.docs && a.archive == b.archive && Kept(a, h)
    ensures Kept(b, h)
  {
    forall x ensures SlotGrows(SlotOf(a, x), SlotOf(b, x)) {
      SameMapsSameSlots(a, b);
      SlotGrowsReflexive(SlotOf(a, x));
    }
    GrowsKeepsKept(a, b, h);
  }

  lemma SwitchedLogOk(v: View, m: Manifest, rows: seq<SnapshotRow>, base: Image, mem: Image, h: History)
    requires Explains(v.live, base, mem, h.owners) && MemOk(mem, h.owners) && SnapshotOf(rows, mem, h.owners)
    requires Covers(v.live, base, h)
    ensures var w := SwitchedView(v, m, rows, mem);
            Grows(mem, Recovered(w)) && LogOk(w, SwitchedHistory(v.live, base, |v.live|, h))
  {
    var w := SwitchedView(v, m, rows, mem);
    assert w.arch + w.live == v.live;
    FollowsSameMaps(mem, w.snap, base, v.live);
    ReplayAbsorbed(v.live, base, w.snap);
    GrowsSameMaps(mem, w.snap, Recovered(w));
    LoadedLists(rows, EmptyImage(mem.nextId));
    SwitchedNoted(v.live, base, |v.live|, h);
    SettledWhole(w, base, SwitchedHistory(v.live, base, |v.live|, h));
  }

  /** A snapshot that contains the whole log. */
  lemma SettledWhole(w: View, base: Image, g: History)
    requires w.arch == [] && Disjoint(w.snap) && Disjoint(base) && Repeatable(w.live, base)
    requires Follows(w.snap, base, w.live) && g.base == base && g.settled == |w.live|
    ensures SnapshotFits(w, g)
  {
    assert w.live[..|w.live|] == w.live;
    if w.live == [] {
      assert w.arch == w.live;
    }
    forall x: nat ensures SettledSlot(w, g.settled, base, x) {
      SettledAt(w, base, x);
    }
  }

  lemma SettledAt(w: View, base: Image, x: nat)
    requires Disjoint(base) && Repeatable(w.live, base) && Follows(w.snap, base, w.live)
    ensures SettledSlot(w, |w.live|, base, x)
  {
    assert w.live[..|w.live|] == w.live;
    assert LandsOn(w.live, x, SlotOf(base, x)) && StaysFiled(w.live, x);
    DisjointSlots(base, x);
    assert SlotGrows(SlotReplay(w.live, x, SlotOf(base, x)), SlotOf(w.snap, x));
    if x in RememberedIds(w.live) {
      CreatedIdAbsorbed(w.live, x, SlotOf(base, x));
    }
  }

  lemma GrowsSameMaps(a: Image, b: Image, c: Image)
    requires a.docs == b.docs && a.archive == b.archive && Grows(b, c)
    ensures Grows(a, c)
  {
    forall x ensures SlotGrows(SlotOf(a, x), SlotOf(c, x)) {
      assert SlotGrows(SlotOf(b, x), SlotOf(c, x));
    }
  }

  lemma GrowsReflexive(img: Image)
    ensures Grows(img, img)
  {
  }

  /** A completed plain checkpoint forgets the logs, and every id that is not stored. */
  function CheckpointedHistory(mem: Image, h: History): History {
    h.(base := mem, settled := 0, known := Stored(mem), filed := {}, lost := {})
  }

  /** After a plain checkpoint recovery is exact, whatever the directory held before. */
  lemma CheckpointExact(v: View, mem: Image, h: History, rows: seq<SnapshotRow>)
    requires MemOk(mem, h.owners) && Kept(mem, h)
    requires SnapshotOf(rows, mem, h.owners)
    requires v.snap == Snapshot(rows, mem) && v.arch == [] && v.live == []
    ensures Linked(v, mem, CheckpointedHistory(mem, h))
    ensures Recovered(v).docs == mem.docs && Recovered(v).archive == mem.archive && Recovered(v).nextId == mem.nextId
  {
    SameMapsSameSlots(mem, v.snap);
    GrowsReflexive(mem);
    LoadedLists(rows, EmptyImage(mem.nextId));
    assert v.arch + v.live == [];
    assert Recovered(v) == v.snap;
    forall x ensures SlotGrows(SlotOf(mem, x), SlotOf(v.snap, x)) {
      assert SlotGrows(SlotOf(mem, x), SlotOf(mem, x));
    }
    GrowsKeepsKept(mem, v.snap, h);
    forall p | 0 <= p <= |v.live| ensures RecoveredAt(v, p) == v.snap {
      assert v.arch + v.live[..p] == [];
    }
  }

  /** Archiving the live log behind a new snapshot keeps the link, however many logs are archived already. */
  lemma ArchivedRecovers(ops: seq<WalOp>, w: View, base: Image, mem: Image, h: History, rows: seq<SnapshotRow>)
    requires Explains(ops, base, mem, h.owners) && MemOk(mem, h.owners) && Kept(mem, h)
    requires SnapshotOf(rows, mem, h.owners) && Covers(ops, base, h)
    requires w.snap == Snapshot(rows, mem) && w.arch == ops && w.live == []
    requires w.manifest.walArchives != []
    ensures Linked(w, mem, SwitchedHistory(ops, base, 0, h))
  {
    assert w.arch + w.live == ops;
    FollowsSameMaps(mem, w.snap, base, ops);
    ReplayAbsorbed(ops, base, w.snap);
    RememberedOwned(ops, mem, h.owners);
    NextIdStays(ops, w.snap);
    GrowsSameMaps(mem, w.snap, Recovered(w));
    GrowsKeepsKept(mem, Recovered(w), h);
    LoadedLists(rows, EmptyImage(mem.nextId));
    SwitchedNoted(ops, base, 0, h);
    forall p | 0 <= p <= |w.live| ensures RecoveredAt(w, p) == Recovered(w) {
      assert w.live[..p] == w.live;
    }
  }

  /** Its recovery is exact if and only if the logs touch no stored id that they did not create. */
  lemma ArchivedExactly(ops: seq<WalOp>, w: View, base: Image, mem: Image, owners: Owners, rows: seq<SnapshotRow>)
    requires Explains(ops, base, mem, owners) && SnapshotOf(rows, mem, owners)
    requires w.snap == Snapshot(rows, mem) && w.arch + w.live == ops
    ensures Recovered(w).docs == mem.docs && Recovered(w).archive == mem.archive <==>
            forall x: nat :: x in Stored(mem) && x !in RememberedIds(ops) ==> TouchCount(ops, x) == 0
  {
    FollowsSameMaps(mem, w.snap, base, ops);
    AbsorbedExactly(ops, base, w.snap);
  }

  /** Reopening a durable directory: the recovered image is linked to it in turn. */
  lemma ReopenLinked(v: View, mem: Image, h: History)
    requires Linked(v, mem, h)
    ensures Linked(v, Recovered(v), h)
  {
    GrowsReflexive(Recovered(v));
  }

  // ----- The window in which archiving has moved the log but not yet listed it -----

  /** The log deletes the id, and does not remember it after that. */
  ghost predicate DeletedLast(ops: seq<WalOp>, x: nat) {
    exists i :: 0 <= i < |ops| && ops[i] == HardDelete(x) && x !in RememberedIds(ops[i..])
  }

  /**
   * No entry of the log has a visible effect on the id. One the log creates is deleted again, or already in
   * the snapshot of a crashed checkpoint and not changed by the entries after it, or was deleted and made
   * again just as it was.
   */
  ghost predicate Unchanged(live: seq<WalOp>, settled: nat, img: Image, x: nat)
    requires settled <= |live|
  {
    if x !in RememberedIds(live) then Steady(live, x, SlotOf(img, x))
    else if x !in Stored(img) then DeletedLast(live, x)
    else if x !in RememberedIds(live[settled..]) then Steady(live[settled..], x, SlotOf(img, x))
    else SlotReplay(live, x, Slot(None, None)) == SlotOf(img, x)
  }

  ghost predicate NoVisibleEffect(live: seq<WalOp>, settled: nat, img: Image)
    requires settled <= |live|
  {
    forall x: nat :: Unchanged(live, settled, img, x)
  }

  lemma DeletedAfter(ops: seq<WalOp>, i: nat, x: nat)
    requires i < |ops| && Rows(ops[i], x) && x !in RememberedIds(ops[i + 1..])
    ensures Deletes(ops[i + 1..], x) <==> DeletedLast(ops, x)
  {
    var rest := ops[i + 1..];
    if Deletes(rest, x) {
      var k :| 0 <= k < |rest| && rest[k] == HardDelete(x);
      assert ops[i + 1 + k] == HardDelete(x) && ops[i + 1 + k..] == rest[k..];
      assert rest == rest[..k] + rest[k..];
      IdsOfConcat(rest[..k], rest[k..]);
    }
    if DeletedLast(ops, x) {
      var k :| 0 <= k < |ops| && ops[k] == HardDelete(x) && x !in RememberedIds(ops[k..]);
      RowIn(ops, k, i, x);
      assert rest[k - i - 1] == HardDelete(x);
    }
  }

  lemma RowIn(ops: seq<WalOp>, k: nat, i: nat, x: nat)
    requires i < |ops| && k <= |ops| && Rows(ops[i], x)
    ensures k <= i ==> x in RememberedIds(ops[k..])
  {
    if k <= i {
      assert ops[k..][i - k] == ops[i];
    }
  }

  lemma CreatedAbsent(ops: seq<WalOp>, x: nat, b: Slot)
    requires x in RememberedIds(ops) && LandsOn(ops, x, b) && StaysFiled(ops, x) && b.Single()
    ensures SlotReplay(ops, x, Slot(None, None)).Absent() <==> DeletedLast(ops, x)
  {
    CreatedIdAbsorbed(ops, x, b);
    var i := LastRowForm(ops, x, b);
    DeletedAfter(ops, i, x);
  }

  lemma LostDisjoint(v: View, h: History)
    requires LogOk(v, h)
    ensures var lost := ReplayAll(v.arch, v.snap);
            && Disjoint(lost)
            && (h.settled == 0 ==> Follows(lost, h.base, v.arch))
            && (h.settled > 0 ==> lost == v.snap && v.arch == [])
  {
    if h.settled == 0 {
      var lost := ReplayAll(v.arch, v.snap);
      RepeatableParts(v.arch, v.live, h.base);
      ReplayAbsorbed(v.arch, h.base, v.snap);
      forall x | x in lost.docs ensures x !in lost.archive {
        FollowsSingle(v.arch, h.base, lost, x);
      }
    }
  }

  /** An id the log creates that is in the snapshot already: only the entries after the snapshot matter. */
  lemma HeldUnchanged(live: seq<WalOp>, k: nat, x: nat, b: Slot, s: Slot)
    requires k <= |live| && x in RememberedIds(live[..k]) && b.Single() && LandsOn(live, x, b) && StaysFiled(live, x)
    requires s == SlotReplay(live[..k], x, Slot(None, None))
    ensures SlotReplay(live, x, s) == SlotReplay(live[k..], x, s) == SlotReplay(live, x, Slot(None, None))
    ensures s.Single()
  {
    var head, tail := live[..k], live[k..];
    assert live == head + tail;
    LandsParts(head, tail, x, b);
    FiledParts(head, tail, x);
    SlotReplayAppend(head, tail, x, s);
    SlotReplayAppend(head, tail, x, Slot(None, None));
    CreatedSingle(head, x, b);
    CreatedIdAbsorbed(head, x, b);
  }

  /** One that is in the snapshot, and that the log remembers later on. */
  lemma RemadeUnchanged(v: View, h: History, base: Image, lost: Image, x: nat)
    requires LogOk(v, h) && lost == ReplayAll(v.arch, v.snap) && base == ReplayAll(v.arch, h.base)
    requires Explains(v.live, base, Recovered(v), h.owners)
    requires x in RememberedIds(v.live) && x in Stored(lost) && x !in RememberedIds(v.live[..h.settled])
    ensures SlotReplay(v.live, x, SlotOf(lost, x)) == SlotReplay(v.live, x, Slot(None, None))
  {
    var b, s := SlotOf(base, x), SlotOf(lost, x);
    LostDisjoint(v, h);
    DisjointSlots(base, x);
    DisjointSlots(lost, x);
    assert LandsOn(v.live, x, b);
    ReplaySlot(v.arch, h.base, x);
    if h.settled == 0 {
      assert SlotGrows(SlotReplay(v.arch, x, SlotOf(h.base, x)), s);
    } else {
      assert SettledSlot(v, h.settled, h.base, x);
      ReplayClosedForm(v.live[..h.settled], x, SlotOf(h.base, x));
    }
    assert !b.Absent();
    RemadeAgain(v.live, x, s, Slot(None, None));
  }

  lemma RememberedSplit(ops: seq<WalOp>, k: nat)
    requires k <= |ops|
    ensures RememberedIds(ops) == RememberedIds(ops[..k]) + RememberedIds(ops[k..])
  {
    assert ops == ops[..k] + ops[k..];
    RememberedConcat(ops[..k], ops[k..]);
  }

  lemma LostSlot(v: View, h: History, lost: Image, x: nat)
    requires LogOk(v, h) && lost == ReplayAll(v.arch, v.snap)
    ensures SlotOf(ReplayAll(v.live, lost), x) == SlotOf(lost, x) <==> Unchanged(v.live, h.settled, lost, x)
  {
    var s, base := SlotOf(lost, x), ReplayAll(v.arch, h.base);
    LostDisjoint(v, h);
    DisjointSlots(lost, x);
    ReplaySlot(v.live, lost, x);
    Rebase(v.arch, v.live, h.base, Recovered(v), h.owners);
    DisjointSlots(base, x);
    assert LandsOn(v.live, x, SlotOf(base, x)) && StaysFiled(v.live, x);
    if x !in RememberedIds(v.live) {
      SteadyExactly(v.live, x, s);
    } else if s.Absent() {
      CreatedAbsent(v.live, x, SlotOf(base, x));
    } else if x in RememberedIds(v.live[..h.settled]) {
      LostHeld(v, h, lost, base, x);
    } else {
      RemadeUnchanged(v, h, base, lost, x);
      RememberedSplit(v.live, h.settled);
    }
  }

  lemma LostHeld(v: View, h: History, lost: Image, base: Image, x: nat)
    requires LogOk(v, h) && lost == ReplayAll(v.arch, v.snap) && base == ReplayAll(v.arch, h.base) && Disjoint(base)
    requires LandsOn(v.live, x, SlotOf(base, x)) && StaysFiled(v.live, x)
    requires x in Stored(lost) && x in RememberedIds(v.live[..h.settled])
    ensures SlotReplay(v.live, x, SlotOf(lost, x)) == SlotReplay(v.live, x, Slot(None, None))
    ensures x !in RememberedIds(v.live[h.settled..]) ==>
              (SlotReplay(v.live, x, SlotOf(lost, x)) == SlotOf(lost, x) <==>
               Steady(v.live[h.settled..], x, SlotOf(lost, x)))
  {
    var s := SlotOf(lost, x);
    LostDisjoint(v, h);
    DisjointSlots(base, x);
    assert SettledSlot(v, h.settled, h.base, x);
    HeldUnchanged(v.live, h.settled, x, SlotOf(base, x), s);
    if x !in RememberedIds(v.live[h.settled..]) {
      SteadyExactly(v.live[h.settled..], x, s);
    }
  }

  lemma RememberedConcat(xs: seq<WalOp>, ys: seq<WalOp>)
    ensures RememberedIds(xs + ys) == RememberedIds(xs) + RememberedIds(ys)
  {
    var zs := xs + ys;
    IdsOfConcat(xs, ys);
    forall x | x in RememberedIds(xs) ensures x in RememberedIds(zs) {
      var i :| 0 <= i < |xs| && xs[i].Remember? && OpId(xs[i]) == x;
      assert zs[i] == xs[i];
    }
    forall x | x in RememberedIds(zs) ensures x in RememberedIds(xs) + RememberedIds(ys) {
      var i :| 0 <= i < |zs| && zs[i].Remember? && OpId(zs[i]) == x;
      if i < |xs| {
        assert zs[i] == xs[i];
      } else {
        assert zs[i] == ys[i - |xs|];
      }
    }
  }

  /**
   * `checkpoint_keep_wal` renames the live log before it writes the manifest. A crash in between
   * makes recovery miss the whole live log, so it loses nothing if and only if no entry of that log
   * had a visible effect; the id counter survives if and only if the log created no id at or above
   * the counter of the last checkpoint.
   */
  lemma LostWindow(v: View, h: History)
    requires LogOk(v, h)
    ensures var lost := Recovered(v.(live := []));
            && (lost.docs == Recovered(v).docs && lost.archive == Recovered(v).archive <==>
                  NoVisibleEffect(v.live, h.settled, lost))
            && (lost.nextId == Recovered(v).nextId <==> forall x :: x in RememberedIds(v.live) ==> x < lost.nextId)
  {
    var lost := ReplayAll(v.arch, v.snap);
    assert v.arch + [] == v.arch;
    ReplayAppend(v.arch, v.live, v.snap);
    SameMapsExactly(lost, ReplayAll(v.live, lost));
    forall x: nat
      ensures SlotOf(ReplayAll(v.live, lost), x) == SlotOf(lost, x) <==> Unchanged(v.live, h.settled, lost, x)
    {
      LostSlot(v, h, lost, x);
    }
    NextIdGrows(v.live, lost);
  }

  lemma {:induction false} NextIdGrows(ops: seq<WalOp>, img: Image)
    ensures ReplayAll(ops, img).nextId >= img.nextId
    ensures forall x :: x in RememberedIds(ops) ==> x < ReplayAll(ops, img).nextId
    ensures (forall x :: x in RememberedIds(ops) ==> x < img.nextId) ==> ReplayAll(ops, img).nextId == img.nextId
  {
    if ops != [] {
      HeadFacts(ops, 0);
      NextIdGrows(ops[1..], Apply(ops[0], img));
    }
  }
}
