/**
 * Replaying a log over a state that already contains its effect.
 *
 * A checkpoint that keeps its log, and the window in which a checkpoint has switched the manifest
 * but not yet truncated the log, both make `open` replay operations over a snapshot taken after
 * them. The result is the snapshot again, except that hit counters may have grown.
 */
module Absorb {
  import opened Wrappers
  import opened Records
  import opened Replay

  function RememberedIds(ops: seq<WalOp>): set<nat> {
    set i | 0 <= i < |ops| && ops[i].Remember? :: OpId(ops[i])
  }

  function IdsOf(ops: seq<WalOp>): set<nat> {
    set i | 0 <= i < |ops| :: OpId(ops[i])
  }

  function Stored(img: Image): set<nat> {
    img.docs.Keys + img.archive.Keys
  }

  /** Every remembered id is new: not known before the log and not mentioned earlier in it. */
  ghost predicate FreshIds(ops: seq<WalOp>, known: set<nat>) {
    forall i :: 0 <= i < |ops| && ops[i].Remember? ==> OpId(ops[i]) !in known + IdsOf(ops[..i])
  }

  ghost predicate Disjoint(img: Image) {
    img.docs.Keys !! img.archive.Keys
  }

  /** `img` is what the log makes of `base`, up to grown hit counters of ids that `base` already knew. */
  ghost predicate Follows(img: Image, base: Image, ops: seq<WalOp>) {
    forall x ::
      && SlotGrows(SlotReplay(ops, x, SlotOf(base, x)), SlotOf(img, x))
      && (x in RememberedIds(ops) ==> SlotReplay(ops, x, SlotOf(base, x)) == SlotOf(img, x))
  }

  // ----- Closed form of a log that never remembers the id -----

  predicate Deletes(ops: seq<WalOp>, x: nat) {
    exists i :: 0 <= i < |ops| && ops[i] == HardDelete(x)
  }

  predicate Archives(ops: seq<WalOp>, x: nat) {
    exists i :: 0 <= i < |ops| && ops[i] == Archive(x)
  }

  function LastForget(ops: seq<WalOp>, x: nat): Option<int> {
    if ops == [] then None
    else if LastForget(ops[1..], x).Some? then LastForget(ops[1..], x)
    else if ops[0].Forget? && ops[0].id == x then Some(ops[0].at)
    else None
  }

  function LastTouch(ops: seq<WalOp>, x: nat): Option<int> {
    if ops == [] then None
    else if LastTouch(ops[1..], x).Some? then LastTouch(ops[1..], x)
    else if ops[0].Touch? && ops[0].id == x then Some(ops[0].at)
    else None
  }

  function TouchCount(ops: seq<WalOp>, x: nat): nat {
    if ops == [] then 0
    else TouchCount(ops[1..], x) + if ops[0].Touch? && ops[0].id == x then 1 else 0
  }

  function Settle(ops: seq<WalOp>, x: nat, d: StoredDoc): StoredDoc {
    var r := d.record;
    d.(record := r.(
      validTo := if LastForget(ops, x).Some? then LastForget(ops, x) else r.validTo,
      lastHit := if LastTouch(ops, x).Some? then LastTouch(ops, x) else r.lastHit,
      hits := r.hits + TouchCount(ops, x)))
  }

  /** Where a record ends up and what it says there, without stepping through the log. */
  function Final(ops: seq<WalOp>, x: nat, s: Slot): Slot
    requires s.Single()
  {
    if Deletes(ops, x) || s.Absent() then Slot(None, None)
    else if s.doc.Some? && !Archives(ops, x) then Slot(Some(Settle(ops, x, s.doc.value)), None)
    else Slot(None, Some(Settle(ops, x, if s.doc.Some? then s.doc.value else s.arch.value)))
  }

  lemma HeadFacts(ops: seq<WalOp>, x: nat)
    requires ops != []
    ensures Deletes(ops, x) <==> ops[0] == HardDelete(x) || Deletes(ops[1..], x)
    ensures Archives(ops, x) <==> ops[0] == Archive(x) || Archives(ops[1..], x)
    ensures RememberedIds(ops) == (if ops[0].Remember? then {OpId(ops[0])} else {}) + RememberedIds(ops[1..])
    ensures IdsOf(ops) == {OpId(ops[0])} + IdsOf(ops[1..])
  {
    forall i | 0 <= i < |ops[1..]| ensures ops[1..][i] == ops[i + 1] {}
    forall i | 0 < i < |ops| ensures ops[i] == ops[1..][i - 1] {}
    if Deletes(ops[1..], x) {
      var i :| 0 <= i < |ops[1..]| && ops[1..][i] == HardDelete(x);
      assert ops[i + 1] == HardDelete(x);
    }
    if Archives(ops[1..], x) {
      var i :| 0 <= i < |ops[1..]| && ops[1..][i] == Archive(x);
      assert ops[i + 1] == Archive(x);
    }
  }

  lemma {:induction false} ReplayClosedForm(ops: seq<WalOp>, x: nat, s: Slot)
    requires s.Single()
    requires x !in RememberedIds(ops)
    ensures SlotReplay(ops, x, s) == Final(ops, x, s)
  {
    if ops != [] {
      HeadFacts(ops, x);
      var t := if OpId(ops[0]) == x then SlotApply(ops[0], s) else s;
      assert t.Single();
      ReplayClosedForm(ops[1..], x, t);
    }
  }

  /** A stale archived copy left from the first replay is overwritten when the record is archived again. */
  lemma {:induction false} StaleCopyVanishes(ops: seq<WalOp>, x: nat, d: StoredDoc, stale: StoredDoc)
    requires Archives(ops, x) && !Deletes(ops, x)
    requires x !in RememberedIds(ops)
    ensures SlotReplay(ops, x, Slot(Some(d), Some(stale))) == SlotReplay(ops, x, Slot(Some(d), None))
  {
    HeadFacts(ops, x);
    if OpId(ops[0]) != x {
      StaleCopyVanishes(ops[1..], x, d, stale);
    } else if !ops[0].Archive? {
      StaleCopyVanishes(ops[1..], x, SlotApply(ops[0], Slot(Some(d), None)).doc.value, stale);
    }
  }

  lemma {:induction false} UntouchedSlot(ops: seq<WalOp>, x: nat, s: Slot)
    requires x !in IdsOf(ops)
    ensures SlotReplay(ops, x, s) == s
  {
    if ops != [] {
      HeadFacts(ops, x);
      UntouchedSlot(ops[1..], x, s);
    }
  }

  /** The position at which a fresh id is remembered splits its log into an idle part and a closed-form part. */
  lemma SplitAtRemember(ops: seq<WalOp>, known: set<nat>, x: nat) returns (i: nat)
    requires FreshIds(ops, known) && x in RememberedIds(ops)
    ensures i < |ops| && ops[i].Remember? && OpId(ops[i]) == x
    ensures x !in known && x !in IdsOf(ops[..i]) && x !in RememberedIds(ops[i + 1..])
    ensures ops == ops[..i] + ([ops[i]] + ops[i + 1..])
  {
    i :| 0 <= i < |ops| && ops[i].Remember? && OpId(ops[i]) == x;
    RememberedOnce(ops, known, i);
  }

  lemma RememberedOnce(ops: seq<WalOp>, known: set<nat>, i: nat)
    requires FreshIds(ops, known) && i < |ops| && ops[i].Remember?
    ensures OpId(ops[i]) !in RememberedIds(ops[i + 1..])
  {
    var rest := ops[i + 1..];
    forall j | 0 <= j < |rest| && rest[j].Remember? ensures OpId(rest[j]) != OpId(ops[i]) {
      assert rest[j] == ops[i + 1 + j];
      MentionedBefore(ops, i, i + 1 + j);
    }
  }

  lemma MentionedBefore(ops: seq<WalOp>, i: nat, k: nat)
    requires i < k <= |ops|
    ensures OpId(ops[i]) in IdsOf(ops[..k])
  {
    assert ops[..k][i] == ops[i];
  }

  lemma SlotReplaySplit(ops: seq<WalOp>, i: nat, x: nat, s: Slot)
    requires i < |ops| && OpId(ops[i]) == x
    requires x !in IdsOf(ops[..i])
    ensures SlotReplay(ops, x, s) == SlotReplay(ops[i + 1..], x, SlotApply(ops[i], s))
  {
    assert ops == ops[..i] + ([ops[i]] + ops[i + 1..]);
    SlotReplayAppend(ops[..i], [ops[i]] + ops[i + 1..], x, s);
    UntouchedSlot(ops[..i], x, s);
    assert ([ops[i]] + ops[i + 1..])[1..] == ops[i + 1..];
  }

  // ----- Logs that create an id, perhaps more than once -----

  predicate Rows(op: WalOp, x: nat) {
    op.Remember? && OpId(op) == x
  }

  /** The id is remembered only while it is not stored, and everything else is done to it only while it is. */
  predicate Lands(ops: seq<WalOp>, x: nat, held: bool) {
    ops == [] ||
    if OpId(ops[0]) != x then Lands(ops[1..], x, held)
    else if ops[0].Remember? then !held && Lands(ops[1..], x, true)
    else held && Lands(ops[1..], x, !ops[0].HardDelete?)
  }

  predicate HeldAfter(ops: seq<WalOp>, x: nat, held: bool) {
    if ops == [] then held
    else HeldAfter(ops[1..], x, if OpId(ops[0]) != x then held else !ops[0].HardDelete?)
  }

  /** Once the id was remembered as an archived row, it is only remembered as such. */
  ghost predicate StaysFiled(ops: seq<WalOp>, x: nat) {
    forall i, j :: 0 <= i < j < |ops| && Rows(ops[i], x) && Rows(ops[j], x) && ops[i].row.archived ==>
      ops[j].row.archived
  }

  ghost predicate OnlyFiled(ops: seq<WalOp>, x: nat) {
    forall i :: 0 <= i < |ops| && Rows(ops[i], x) ==> ops[i].row.archived
  }

  ghost predicate LandsOn(ops: seq<WalOp>, x: nat, s: Slot) {
    Lands(ops, x, true) || (Lands(ops, x, false) && s.Absent())
  }

  /** Every id is absent whenever the log remembers it, and what was filed never comes back out of the archive. */
  ghost predicate Repeatable(ops: seq<WalOp>, base: Image) {
    forall x: nat :: LandsOn(ops, x, SlotOf(base, x)) && StaysFiled(ops, x)
  }

  lemma {:induction false} LandsSplit(xs: seq<WalOp>, ys: seq<WalOp>, x: nat, held: bool)
    ensures Lands(xs + ys, x, held) <==> Lands(xs, x, held) && Lands(ys, x, HeldAfter(xs, x, held))
    ensures HeldAfter(xs + ys, x, held) == HeldAfter(ys, x, HeldAfter(xs, x, held))
  {
    if xs == [] {
      assert xs + ys == ys;
    } else {
      assert (xs + ys)[1..] == xs[1..] + ys && (xs + ys)[0] == xs[0];
      LandsSplit(xs[1..], ys, x, if OpId(xs[0]) != x then held else !xs[0].HardDelete?);
    }
  }

  /** The slot is filled exactly while the id is held. */
  lemma {:induction false} LandsSlot(ops: seq<WalOp>, x: nat, s: Slot)
    requires s.Single() && Lands(ops, x, !s.Absent())
    ensures SlotReplay(ops, x, s).Single()
    ensures HeldAfter(ops, x, !s.Absent()) == !SlotReplay(ops, x, s).Absent()
  {
    if ops != [] {
      LandsSlot(ops[1..], x, if OpId(ops[0]) == x then SlotApply(ops[0], s) else s);
    }
  }

  /** The first time the log remembers the id. */
  lemma {:induction false} FirstRow(ops: seq<WalOp>, x: nat) returns (i: nat)
    requires x in RememberedIds(ops)
    ensures i < |ops| && Rows(ops[i], x) && x !in RememberedIds(ops[..i])
  {
    HeadFacts(ops, x);
    if Rows(ops[0], x) {
      i := 0;
    } else {
      var k := FirstRow(ops[1..], x);
      i := k + 1;
      assert ops[..i][1..] == ops[1..][..k];
      HeadFacts(ops[..i], x);
    }
  }

  /** The last time, after which the closed form applies. */
  lemma {:induction false} LastRow(ops: seq<WalOp>, x: nat) returns (i: nat)
    requires x in RememberedIds(ops)
    ensures i < |ops| && Rows(ops[i], x) && x !in RememberedIds(ops[i + 1..])
  {
    HeadFacts(ops, x);
    if x in RememberedIds(ops[1..]) {
      var k := LastRow(ops[1..], x);
      i := k + 1;
      assert ops[i + 1..] == ops[1..][k + 1..];
    } else {
      i := 0;
    }
  }

  lemma SplitAt(ops: seq<WalOp>, i: nat, x: nat, s: Slot)
    requires i < |ops| && Rows(ops[i], x)
    ensures SlotReplay(ops, x, s) == SlotReplay(ops[i + 1..], x, SlotApply(ops[i], SlotReplay(ops[..i], x, s)))
  {
    var tail := [ops[i]] + ops[i + 1..];
    assert ops == ops[..i] + tail && tail[1..] == ops[i + 1..];
    SlotReplayAppend(ops[..i], tail, x, s);
  }

  lemma LandsAt(ops: seq<WalOp>, i: nat, x: nat, held: bool)
    requires i < |ops| && Rows(ops[i], x) && Lands(ops, x, held)
    ensures Lands(ops[..i], x, held) && !HeldAfter(ops[..i], x, held) && Lands(ops[i + 1..], x, true)
  {
    var tail := [ops[i]] + ops[i + 1..];
    assert ops == ops[..i] + tail && tail[1..] == ops[i + 1..];
    LandsSplit(ops[..i], tail, x, held);
  }

  /** As long as the log does not remember the id: a held one is gone only if deleted, an absent one unmentioned. */
  lemma {:induction false} IdleLands(ops: seq<WalOp>, x: nat, held: bool)
    requires x !in RememberedIds(ops) && Lands(ops, x, held) && !HeldAfter(ops, x, held)
    ensures if held then Deletes(ops, x) else x !in IdsOf(ops)
  {
    if ops != [] {
      HeadFacts(ops, x);
      if OpId(ops[0]) != x {
        IdleLands(ops[1..], x, held);
      } else if !ops[0].HardDelete? {
        IdleLands(ops[1..], x, true);
      }
    }
  }

  /** The state right before the id is remembered: nothing, if it was held before the log; else untouched. */
  lemma BeforeFirstRow(ops: seq<WalOp>, i: nat, x: nat, held: bool, t: Slot)
    requires i < |ops| && Rows(ops[i], x) && x !in RememberedIds(ops[..i])
    requires Lands(ops, x, held) && t.Single()
    ensures SlotReplay(ops[..i], x, t) == if held then Slot(None, None) else t
  {
    LandsAt(ops, i, x, held);
    IdleLands(ops[..i], x, held);
    if held {
      ReplayClosedForm(ops[..i], x, t);
    } else {
      UntouchedSlot(ops[..i], x, t);
    }
  }

  /** Whatever was there before, after the last time the id is remembered only what follows matters. */
  lemma LastRowForm(ops: seq<WalOp>, x: nat, s: Slot) returns (i: nat)
    requires x in RememberedIds(ops) && LandsOn(ops, x, s) && s.Single()
    ensures i < |ops| && Rows(ops[i], x) && x !in RememberedIds(ops[i + 1..])
    ensures SlotReplay(ops, x, s) == Final(ops[i + 1..], x, SlotApply(ops[i], Slot(None, None)))
  {
    i := LastRow(ops, x);
    var held := Lands(ops, x, true);
    LandsAt(ops, i, x, held);
    SplitAt(ops, i, x, s);
    BeforeRow(ops, i, x, held, s);
    ReplayClosedForm(ops[i + 1..], x, SlotApply(ops[i], Slot(None, None)));
  }

  lemma BeforeRow(ops: seq<WalOp>, i: nat, x: nat, held: bool, s: Slot)
    requires i < |ops| && Rows(ops[i], x) && Lands(ops, x, held) && s.Single() && (!held ==> s.Absent())
    ensures SlotReplay(ops[..i], x, s).Absent()
  {
    LandsAt(ops, i, x, held);
    if x in RememberedIds(ops[..i]) {
      var k := FirstRow(ops[..i], x);
      assert ops[..i][..k] == ops[..k];
      LandsAt(ops[..i], k, x, held);
      SplitAt(ops[..i], k, x, s);
      BeforeFirstRow(ops[..i], k, x, held, s);
      var tail := [ops[..i][k]] + ops[..i][k + 1..];
      assert ops[..i] == ops[..i][..k] + tail && tail[1..] == ops[..i][k + 1..];
      LandsSplit(ops[..i][..k], tail, x, held);
      LandsSlot(ops[..i][k + 1..], x, SlotApply(ops[k], Slot(None, None)));
    } else {
      BeforeFirstRow(ops, i, x, held, s);
    }
  }

  /** The log knows whether the id is stored, unless it was dropped without a word and not created again. */
  lemma HeldSlot(ops: seq<WalOp>, x: nat, held: bool, s: Slot)
    requires Lands(ops, x, held) && s.Single() && (!held ==> s.Absent())
    requires x in RememberedIds(ops) || held == !s.Absent()
    ensures SlotReplay(ops, x, s).Single() && HeldAfter(ops, x, held) == !SlotReplay(ops, x, s).Absent()
  {
    if x in RememberedIds(ops) {
      var i := LastRow(ops, x);
      var landed := SlotApply(ops[i], Slot(None, None));
      BeforeRow(ops, i, x, held, s);
      SplitAt(ops, i, x, s);
      LandsAt(ops, i, x, held);
      LandsSlot(ops[i + 1..], x, landed);
      var tail := [ops[i]] + ops[i + 1..];
      assert ops == ops[..i] + tail && tail[1..] == ops[i + 1..];
      LandsSplit(ops[..i], tail, x, held);
    } else {
      LandsSlot(ops, x, s);
    }
  }

  /** What the log leaves absent is absent. */
  lemma GoneSlot(ops: seq<WalOp>, x: nat, held: bool, s: Slot)
    requires Lands(ops, x, held) && s.Single() && (!held ==> s.Absent()) && !HeldAfter(ops, x, held)
    ensures SlotReplay(ops, x, s).Absent()
  {
    if x in RememberedIds(ops) {
      HeldSlot(ops, x, held, s);
    } else {
      IdleLands(ops, x, held);
      ReplayClosedForm(ops, x, s);
    }
  }

  lemma CreatedSingle(ops: seq<WalOp>, x: nat, s: Slot)
    requires x in RememberedIds(ops) && LandsOn(ops, x, s) && s.Single()
    ensures SlotReplay(ops, x, s).Single()
  {
    var i := LastRowForm(ops, x, s);
  }

  /** Two replays that agree but for an archived copy left from an earlier one go on agreeing but for it. */
  lemma {:induction false} InStep(ops: seq<WalOp>, x: nat, s: Slot, t: Slot)
    requires s.Single() && Lands(ops, x, !s.Absent())
    requires t.doc == s.doc && (t == s || s.arch.None?)
    ensures var r, q := SlotReplay(ops, x, s), SlotReplay(ops, x, t);
            q.doc == r.doc && (q == r || r.arch.None?) && (t == s ==> q == r)
  {
    if ops != [] {
      var here := OpId(ops[0]) == x;
      InStep(ops[1..], x, if here then SlotApply(ops[0], s) else s, if here then SlotApply(ops[0], t) else t);
    }
  }

  /** An archived row stays archived until it is deleted. */
  lemma {:induction false} FiledStays(ops: seq<WalOp>, x: nat, s: Slot)
    requires s.doc.None? && OnlyFiled(ops, x)
    ensures SlotReplay(ops, x, s).doc.None?
  {
    if ops != [] {
      var rest := ops[1..];
      forall i | 0 <= i < |rest| && Rows(rest[i], x) ensures rest[i].row.archived {
        assert rest[i] == ops[i + 1];
      }
      FiledStays(ops[1..], x, if OpId(ops[0]) == x then SlotApply(ops[0], s) else s);
    }
  }

  lemma RestFiled(ops: seq<WalOp>, i: nat, x: nat)
    requires i < |ops| && Rows(ops[i], x) && ops[i].row.archived && StaysFiled(ops, x)
    ensures OnlyFiled(ops[i + 1..], x)
  {
    var rest := ops[i + 1..];
    forall j | 0 <= j < |rest| && Rows(rest[j], x) ensures rest[j].row.archived {
      assert rest[j] == ops[i + 1 + j];
    }
  }

  /** An id that was stored before the log, and that the log deletes and creates again: nothing before counts. */
  lemma RemadeAgain(ops: seq<WalOp>, x: nat, s: Slot, t: Slot)
    requires x in RememberedIds(ops) && Lands(ops, x, true) && s.Single() && t.Single()
    ensures SlotReplay(ops, x, t) == SlotReplay(ops, x, s)
  {
    var i := FirstRow(ops, x);
    SplitAt(ops, i, x, s);
    SplitAt(ops, i, x, t);
    BeforeFirstRow(ops, i, x, true, s);
    BeforeFirstRow(ops, i, x, true, t);
  }

  /**
   * Replaying a log over a later state of an id that it creates puts it back as the log left it, unless
   * the id has been moved to the archive since: then a copy in `docs` comes back.
   */
  lemma CreatedAgain(ops: seq<WalOp>, x: nat, s: Slot, t: Slot)
    requires x in RememberedIds(ops) && LandsOn(ops, x, s) && StaysFiled(ops, x) && s.Single() && t.Single()
    requires SlotReplay(ops, x, s).doc.None? ==> t.doc.None?
    ensures var r, q := SlotReplay(ops, x, s), SlotReplay(ops, x, t);
            && (q == r || (t.arch.Some? && q.doc == r.doc && r.arch.None?))
            && (t == r || t.Absent() ==> q == r)
  {
    if Lands(ops, x, true) {
      RemadeAgain(ops, x, s, t);
    } else {
      var i := FirstRow(ops, x);
      SplitAt(ops, i, x, s);
      SplitAt(ops, i, x, t);
      LandsAt(ops, i, x, false);
      BeforeFirstRow(ops, i, x, false, s);
      BeforeFirstRow(ops, i, x, false, t);
      CreatedSingle(ops, x, s);
      var landed := SlotApply(ops[i], Slot(None, None));
      if ops[i].row.archived {
        RestFiled(ops, i, x);
        FiledStays(ops[i + 1..], x, landed);
      } else {
        InStep(ops[i + 1..], x, landed, SlotApply(ops[i], t));
      }
    }
  }

  /** The log remembers the id once, and does not mention it before. */
  ghost predicate Once(ops: seq<WalOp>, x: nat) {
    exists i :: 0 <= i < |ops| && OnceAt(ops, x, i)
  }

  predicate OnceAt(ops: seq<WalOp>, x: nat, i: nat)
    requires i < |ops|
  {
    Rows(ops[i], x) && x !in IdsOf(ops[..i]) && x !in RememberedIds(ops[i + 1..])
  }

  lemma OnceAbsorbed(ops: seq<WalOp>, x: nat, s0: Slot)
    requires Once(ops, x) && s0.Absent()
    ensures SlotReplay(ops, x, SlotReplay(ops, x, s0)) == SlotReplay(ops, x, s0)
  {
    var i :| 0 <= i < |ops| && OnceAt(ops, x, i);
    var rest := ops[i + 1..];
    var landed := SlotApply(ops[i], s0);
    SlotReplaySplit(ops, i, x, s0);
    ReplayClosedForm(rest, x, landed);
    var s1 := SlotReplay(ops, x, s0);
    SlotReplaySplit(ops, i, x, s1);
    if landed.doc.Some? && s1.arch.Some? {
      StaleCopyVanishes(rest, x, landed.doc.value, s1.arch.value);
    }
  }

  /** What it takes for a second replay to give the created ids back. */
  ghost predicate Replayable(ops: seq<WalOp>, base: Image) {
    forall x :: x in RememberedIds(ops) ==>
      || (LandsOn(ops, x, SlotOf(base, x)) && StaysFiled(ops, x))
      || (Once(ops, x) && SlotOf(base, x).Absent())
  }

  /** One id that the log itself creates: the second replay reproduces it exactly. */
  lemma CreatedIdAbsorbed(ops: seq<WalOp>, x: nat, s: Slot)
    requires x in RememberedIds(ops) && LandsOn(ops, x, s) && StaysFiled(ops, x) && s.Single()
    ensures SlotReplay(ops, x, SlotReplay(ops, x, s)) == SlotReplay(ops, x, s)
    ensures SlotReplay(ops, x, Slot(None, None)) == SlotReplay(ops, x, s)
  {
    CreatedSingle(ops, x, s);
    CreatedAgain(ops, x, s, SlotReplay(ops, x, s));
    CreatedAgain(ops, x, s, Slot(None, None));
  }

  /** One id that existed before the log: the second replay only adds its touches again. */
  lemma OldIdAbsorbed(ops: seq<WalOp>, x: nat, s0: Slot, s1: Slot)
    requires s0.Single() && x !in RememberedIds(ops)
    requires SlotGrows(SlotReplay(ops, x, s0), s1)
    ensures SlotGrows(s1, SlotReplay(ops, x, s1))
  {
    ReplayClosedForm(ops, x, s0);
    ReplayClosedForm(ops, x, s1);
  }

  lemma DisjointSlots(img: Image, x: nat)
    requires Disjoint(img)
    ensures SlotOf(img, x).Single()
    ensures x !in Stored(img) <==> SlotOf(img, x).Absent()
  {
  }

  /**
   * Re-replay idempotence: an image that follows a replayable log is given back by replaying that log
   * over it, in everything but hit counters, which never shrink; ids the log created even keep those.
   */
  lemma ReplayAbsorbed(ops: seq<WalOp>, base: Image, img: Image)
    requires Disjoint(base) && Replayable(ops, base)
    requires Follows(img, base, ops)
    ensures Grows(img, ReplayAll(ops, img))
    ensures Follows(ReplayAll(ops, img), base, ops)
  {
    var again := ReplayAll(ops, img);
    forall x
      ensures SlotGrows(SlotOf(img, x), SlotOf(again, x))
      ensures x in RememberedIds(ops) ==> SlotOf(img, x) == SlotOf(again, x)
    {
      AbsorbedAt(ops, base, img, x);
    }
    forall x ensures SlotGrows(SlotReplay(ops, x, SlotOf(base, x)), SlotOf(again, x)) {
      assert SlotGrows(SlotReplay(ops, x, SlotOf(base, x)), SlotOf(img, x));
      assert SlotGrows(SlotOf(img, x), SlotOf(again, x));
    }
  }

  lemma AbsorbedAt(ops: seq<WalOp>, base: Image, img: Image, x: nat)
    requires Disjoint(base) && Replayable(ops, base) && Follows(img, base, ops)
    ensures var again := ReplayAll(ops, img);
            SlotGrows(SlotOf(img, x), SlotOf(again, x)) &&
            (x in RememberedIds(ops) ==> SlotOf(img, x) == SlotOf(again, x))
  {
    var s0 := SlotOf(base, x);
    DisjointSlots(base, x);
    ReplaySlot(ops, img, x);
    assert SlotGrows(SlotReplay(ops, x, s0), SlotOf(img, x));
    if x !in RememberedIds(ops) {
      OldIdAbsorbed(ops, x, s0, SlotOf(img, x));
    } else if LandsOn(ops, x, s0) && StaysFiled(ops, x) {
      CreatedIdAbsorbed(ops, x, s0);
      SlotGrowsReflexive(SlotOf(img, x));
    } else {
      OnceAbsorbed(ops, x, s0);
      SlotGrowsReflexive(SlotOf(img, x));
    }
  }

  lemma SlotGrowsReflexive(s: Slot)
    ensures SlotGrows(s, s)
  {
  }

  lemma ReplayFollows(ops: seq<WalOp>, base: Image)
    ensures Follows(ReplayAll(ops, base), base, ops)
  {
    forall x ensures SlotReplay(ops, x, SlotOf(base, x)) == SlotOf(ReplayAll(ops, base), x) {
      ReplaySlot(ops, base, x);
    }
  }

  /** Logs that remember only new ids are replayable. */
  lemma FreshReplayable(ops: seq<WalOp>, base: Image)
    requires FreshIds(ops, Stored(base))
    ensures Replayable(ops, base)
  {
    forall x | x in RememberedIds(ops) ensures Once(ops, x) && SlotOf(base, x).Absent() {
      var i := SplitAtRemember(ops, Stored(base), x);
      assert OnceAt(ops, x, i);
    }
  }

  // ----- Exactly when a second replay changes nothing -----

  /** What the calls see to: a remembered id is not stored, any other is, and one to be archived is in `docs`. */
  predicate Finds(op: WalOp, s: Slot) {
    if op.Remember? then s.Absent() else if op.Archive? then s.doc.Some? else !s.Absent()
  }

  predicate Orderly(ops: seq<WalOp>, x: nat, s: Slot) {
    ops == [] ||
    if OpId(ops[0]) == x then Finds(ops[0], s) && Orderly(ops[1..], x, SlotApply(ops[0], s))
    else Orderly(ops[1..], x, s)
  }

  predicate Files(op: WalOp, x: nat) {
    OpId(op) == x && (op.Archive? || (op.Remember? && op.row.archived))
  }

  predicate FilesAny(ops: seq<WalOp>, x: nat) {
    exists i :: 0 <= i < |ops| && Files(ops[i], x)
  }

  /** The first operation on the id remembers an archived row, and no other one puts it into the archive. */
  predicate FiledOnceOnly(ops: seq<WalOp>, x: nat) {
    ops != [] &&
    if OpId(ops[0]) == x then Files(ops[0], x) && ops[0].Remember? && !FilesAny(ops[1..], x)
    else FiledOnceOnly(ops[1..], x)
  }

  lemma FilesHead(ops: seq<WalOp>, x: nat)
    requires ops != []
    ensures FilesAny(ops, x) <==> Files(ops[0], x) || FilesAny(ops[1..], x)
  {
    forall i | 0 <= i < |ops[1..]| ensures ops[1..][i] == ops[i + 1] {}
    if FilesAny(ops[1..], x) {
      var i :| 0 <= i < |ops[1..]| && Files(ops[1..][i], x);
      assert Files(ops[i + 1], x);
    }
    if FilesAny(ops, x) && !Files(ops[0], x) {
      var i :| 0 <= i < |ops| && Files(ops[i], x);
      assert Files(ops[1..][i - 1], x);
    }
  }

  lemma {:induction false} OrderlyLands(ops: seq<WalOp>, x: nat, s: Slot)
    requires s.Single() && Orderly(ops, x, s)
    ensures Lands(ops, x, !s.Absent())
  {
    if ops != [] {
      OrderlyLands(ops[1..], x, if OpId(ops[0]) == x then SlotApply(ops[0], s) else s);
    }
  }

  /** A stale archived copy stays exactly as long as nothing else files the id. */
  lemma {:induction false} StaleStays(ops: seq<WalOp>, x: nat, s: Slot, stale: StoredDoc)
    requires s.arch.None? && Orderly(ops, x, s)
    ensures var r, q := SlotReplay(ops, x, s), SlotReplay(ops, x, Slot(s.doc, Some(stale)));
            if FilesAny(ops, x) then q == r else r.arch.None? && q == Slot(r.doc, Some(stale))
  {
    if ops != [] {
      FilesHead(ops, x);
      if OpId(ops[0]) != x || !Files(ops[0], x) {
        StaleStays(ops[1..], x, if OpId(ops[0]) == x then SlotApply(ops[0], s) else s, stale);
      }
    }
  }

  /** An archived row remembered over a copy in `docs`: until it is deleted, everything goes to that copy. */
  lemma {:induction false} Shadowed(ops: seq<WalOp>, x: nat, s: Slot, d: StoredDoc, stale: StoredDoc)
    requires s.doc.None? && s.arch.Some? && Orderly(ops, x, s)
    ensures var r, q := SlotReplay(ops, x, s), SlotReplay(ops, x, Slot(Some(d), Some(stale)));
            r.doc.Some? ==> if FilesAny(ops, x) then q == r else r.arch.None? && q == Slot(r.doc, Some(stale))
  {
    if ops != [] {
      FilesHead(ops, x);
      if OpId(ops[0]) != x {
        Shadowed(ops[1..], x, s, d, stale);
      } else if ops[0].HardDelete? {
        StaleStays(ops[1..], x, Slot(None, None), stale);
      } else {
        Shadowed(ops[1..], x, SlotApply(ops[0], s), SlotApply(ops[0], Slot(Some(d), Some(stale))).doc.value, stale);
      }
    }
  }

  /** After a first replay the id is in `docs`, where a second one adds an archived copy of it. */
  predicate SplitsApart(ops: seq<WalOp>, x: nat, after: Slot) {
    FiledOnceOnly(ops, x) && after.doc.Some?
  }

  /** After a first replay an id is stored that is not from the log, and that the log touches. */
  predicate Recounts(ops: seq<WalOp>, x: nat, after: Slot) {
    x !in RememberedIds(ops) && !after.Absent() && TouchCount(ops, x) > 0
  }

  /** An id that the log does not create, in a state that follows it. */
  lemma OldIdAgain(ops: seq<WalOp>, x: nat, s: Slot, r: Slot)
    requires s.Single() && x !in RememberedIds(ops) && SlotGrows(SlotReplay(ops, x, s), r)
    ensures SlotGrows(r, SlotReplay(ops, x, r)) && (SlotReplay(ops, x, r) == r <==> !Recounts(ops, x, r))
  {
    ReplayClosedForm(ops, x, s);
    ReplayClosedForm(ops, x, r);
  }

  lemma {:induction false} UnrememberedOnce(ops: seq<WalOp>, x: nat)
    ensures FiledOnceOnly(ops, x) ==> x in RememberedIds(ops)
  {
    if ops != [] {
      HeadFacts(ops, x);
      UnrememberedOnce(ops[1..], x);
    }
  }

  /** One id, replayed twice: given back exactly, or up to hit counters, or split over both maps. */
  lemma {:induction false} AgainExactly(ops: seq<WalOp>, x: nat, s: Slot)
    requires s.Single() && Orderly(ops, x, s)
    ensures var r := SlotReplay(ops, x, s);
            var q := SlotReplay(ops, x, r);
            && (SlotGrows(r, q) <==> !SplitsApart(ops, x, r))
            && (q == r <==> !SplitsApart(ops, x, r) && !Recounts(ops, x, r))
  {
    var r := SlotReplay(ops, x, s);
    OrderlyLands(ops, x, s);
    LandsSlot(ops, x, s);
    SlotGrowsReflexive(r);
    if x !in RememberedIds(ops) {
      UnrememberedOnce(ops, x);
      OldIdAgain(ops, x, s, r);
    } else {
      HeadFacts(ops, x);
      if OpId(ops[0]) != x {
        AgainExactly(ops[1..], x, s);
      } else if !ops[0].Remember? {
        RemadeAgain(ops, x, s, r);
      } else if !ops[0].row.archived {
        InStep(ops[1..], x, SlotApply(ops[0], s), SlotApply(ops[0], r));
      } else if r.doc.Some? {
        Shadowed(ops[1..], x, SlotApply(ops[0], s), r.doc.value, DocOf(ops[0].row));
      }
    }
  }

  /**
   * Exactly when replaying an orderly log twice is replaying it once. Up to hit counters: unless some id was
   * first remembered as an archived row, filed by nothing else, and is in `docs` in the end. In both maps
   * to the letter: if, besides, the log touches no id that is still stored and that it did not create.
   */
  lemma ReplayTwiceExactly(ops: seq<WalOp>, base: Image)
    requires Disjoint(base) && forall x: nat :: Orderly(ops, x, SlotOf(base, x))
    ensures var once := ReplayAll(ops, base);
            var twice := ReplayAll(ops, once);
            && (Grows(once, twice) <==> forall x: nat :: !SplitsApart(ops, x, SlotOf(once, x)))
            && (twice.docs == once.docs && twice.archive == once.archive <==>
                  forall x: nat :: !SplitsApart(ops, x, SlotOf(once, x)) && !Recounts(ops, x, SlotOf(once, x)))
  {
    var once := ReplayAll(ops, base);
    var twice := ReplayAll(ops, once);
    forall x: nat
      ensures SlotGrows(SlotOf(once, x), SlotOf(twice, x)) <==> !SplitsApart(ops, x, SlotOf(once, x))
      ensures SlotOf(twice, x) == SlotOf(once, x) <==>
                !SplitsApart(ops, x, SlotOf(once, x)) && !Recounts(ops, x, SlotOf(once, x))
    {
      DisjointSlots(base, x);
      ReplaySlot(ops, base, x);
      ReplaySlot(ops, once, x);
      AgainExactly(ops, x, SlotOf(base, x));
    }
    SameMapsExactly(twice, once);
  }

  /** The plain form: replaying twice is replaying once, up to grown hit counters. */
  lemma ReplayTwice(ops: seq<WalOp>, base: Image)
    requires Disjoint(base) && Replayable(ops, base)
    ensures Grows(ReplayAll(ops, base), ReplayAll(ops, ReplayAll(ops, base)))
  {
    ReplayFollows(ops, base);
    ReplayAbsorbed(ops, base, ReplayAll(ops, base));
  }

  /**
   * Exactly when an image that follows a replayable log is given back with its hit counters: if the log
   * touches no id that is stored in it and that the log did not create.
   */
  lemma AbsorbedExactly(ops: seq<WalOp>, base: Image, img: Image)
    requires Disjoint(base) && Replayable(ops, base) && Follows(img, base, ops)
    ensures var again := ReplayAll(ops, img);
            again.docs == img.docs && again.archive == img.archive <==>
            forall x: nat :: x in Stored(img) && x !in RememberedIds(ops) ==> TouchCount(ops, x) == 0
  {
    var again := ReplayAll(ops, img);
    forall x: nat ensures SlotOf(again, x) == SlotOf(img, x) <==> !Recounts(ops, x, SlotOf(img, x)) {
      DisjointSlots(base, x);
      ReplaySlot(ops, img, x);
      if x in RememberedIds(ops) {
        AbsorbedAt(ops, base, img, x);
      } else {
        assert SlotGrows(SlotReplay(ops, x, SlotOf(base, x)), SlotOf(img, x));
        OldIdAgain(ops, x, SlotOf(base, x), SlotOf(img, x));
      }
    }
    forall x: nat ensures !SlotOf(img, x).Absent() <==> x in Stored(img) {}
    SameMapsExactly(again, img);
  }
}
