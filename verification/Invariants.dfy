/** What every image of a collection keeps: bookkeeping of ids and subjects, one live version, safe sources. */
module Invariants {
  import opened Wrappers
  import opened Records
  import opened Replay
  import opened Absorb
  import opened Disk

  /** The subject each id ever stored was stored under. */
  type Owners = map<nat, Option<string>>

  ghost predicate IdsMatch(img: Image) {
    && (forall x :: x in img.docs ==> img.docs[x].record.id == x)
    && (forall x :: x in img.archive ==> img.archive[x].record.id == x)
  }

  /** Subject lists and stored records agree with the owner of each id. */
  ghost predicate Agrees(img: Image, owners: Owners) {
    && (forall x :: x in img.docs ==> x in owners && owners[x] == img.docs[x].record.subject)
    && (forall x :: x in img.archive ==> x in owners && owners[x] == img.archive[x].record.subject)
    && (forall s, x :: s in img.subjects && x in img.subjects[s] ==> x in owners && owners[x] == Some(s))
  }

  predicate Listed(img: Image, s: Option<string>, x: nat) {
    s.Some? ==> s.value in img.subjects && x in img.subjects[s.value]
  }

  /** `subjects[s]` contains every stored id with subject `s`. */
  ghost predicate Covered(img: Image) {
    && (forall x :: x in img.docs ==> Listed(img, img.docs[x].record.subject, x))
    && (forall x :: x in img.archive ==> Listed(img, img.archive[x].record.subject, x))
  }

  ghost predicate OpAgrees(op: WalOp, owners: Owners) {
    && OpId(op) in owners
    && (op.Remember? ==> owners[OpId(op)] == op.row.record.subject)
  }

  ghost predicate OpsAgree(ops: seq<WalOp>, owners: Owners) {
    forall i :: 0 <= i < |ops| ==> OpAgrees(ops[i], owners)
  }

  /** A subject list only ever gains an id by remembering it under that subject. */
  lemma EntryOrigin(op: WalOp, img: Image, s: string, x: nat)
    requires s in Apply(op, img).subjects && x in Apply(op, img).subjects[s]
    ensures (s in img.subjects && x in img.subjects[s]) ||
            (op.Remember? && OpId(op) == x && op.row.record.subject == Some(s))
  {
  }

  lemma ApplyIdsMatch(op: WalOp, img: Image)
    requires IdsMatch(img)
    ensures IdsMatch(Apply(op, img))
  {
  }

  lemma ApplyAgrees(op: WalOp, img: Image, owners: Owners)
    requires OpAgrees(op, owners) && Agrees(img, owners) && IdsMatch(img)
    ensures Agrees(Apply(op, img), owners) && IdsMatch(Apply(op, img))
  {
    ApplyIdsMatch(op, img);
    var r := Apply(op, img);
    forall s, x | s in r.subjects && x in r.subjects[s] ensures x in owners && owners[x] == Some(s) {
      EntryOrigin(op, img, s, x);
    }
    forall x | x in Stored(r)
      ensures x in owners
      ensures x in r.docs ==> owners[x] == r.docs[x].record.subject
      ensures x in r.archive ==> owners[x] == r.archive[x].record.subject
    {
      ApplySlot(op, img, x);
      assert SlotOf(img, x) == Slot(Lookup(img.docs, x), Lookup(img.archive, x));
      assert SlotOf(r, x) == Slot(Lookup(r.docs, x), Lookup(r.archive, x));
    }
  }

  lemma {:induction false} ReplayAgrees(ops: seq<WalOp>, img: Image, owners: Owners)
    requires OpsAgree(ops, owners) && Agrees(img, owners) && IdsMatch(img)
    ensures Agrees(ReplayAll(ops, img), owners) && IdsMatch(ReplayAll(ops, img))
  {
    if ops != [] {
      assert OpAgrees(ops[0], owners);
      ApplyAgrees(ops[0], img, owners);
      forall i | 0 <= i < |ops[1..]| ensures OpAgrees(ops[1..][i], owners) {
        assert ops[1..][i] == ops[i + 1];
      }
      ReplayAgrees(ops[1..], Apply(ops[0], img), owners);
    }
  }

  /** With single slots, one operation keeps the subject lists complete. */
  lemma ApplyCovered(op: WalOp, img: Image)
    requires Covered(img) && SlotOf(img, OpId(op)).Single()
    requires op.Remember? ==> SlotOf(img, OpId(op)).Absent()
    requires IdsMatch(img)
    ensures Covered(Apply(op, img))
  {
  }

  // ----- The subject lists after a second replay, where slots need not be single midway -----

  lemma {:induction false} EntryKept(ops: seq<WalOp>, img: Image, s: string, x: nat)
    requires s in img.subjects && x in img.subjects[s]
    requires !Deletes(ops, x)
    ensures var r := ReplayAll(ops, img); s in r.subjects && x in r.subjects[s]
  {
    if ops != [] {
      HeadFacts(ops, x);
      EntryKept(ops[1..], Apply(ops[0], img), s, x);
    }
  }

  lemma {:induction false} SlotSubjectKept(ops: seq<WalOp>, x: nat, s: Slot, owners: Owners)
    requires OpsAgree(ops, owners) && x in owners
    requires s.doc.Some? ==> s.doc.value.record.subject == owners[x]
    requires s.arch.Some? ==> s.arch.value.record.subject == owners[x]
    ensures var t := SlotReplay(ops, x, s);
            && (t.doc.Some? ==> t.doc.value.record.subject == owners[x])
            && (t.arch.Some? ==> t.arch.value.record.subject == owners[x])
  {
    if ops != [] {
      assert OpAgrees(ops[0], owners);
      forall i | 0 <= i < |ops[1..]| ensures OpAgrees(ops[1..][i], owners) {
        assert ops[1..][i] == ops[i + 1];
      }
      SlotSubjectKept(ops[1..], x, if OpId(ops[0]) == x then SlotApply(ops[0], s) else s, owners);
    }
  }

  /** A record still stored after the second replay was never deleted after it was last created. */
  lemma CreatedListed(ops: seq<WalOp>, base: Image, snap: Image, owners: Owners, x: nat)
    requires Disjoint(base) && LandsOn(ops, x, SlotOf(base, x)) && OpsAgree(ops, owners)
    requires x in RememberedIds(ops) && SlotReplay(ops, x, SlotOf(base, x)) == SlotOf(ReplayAll(ops, snap), x)
    requires !SlotOf(ReplayAll(ops, snap), x).Absent()
    ensures x in owners && Listed(ReplayAll(ops, snap), owners[x], x)
  {
    DisjointSlots(base, x);
    var i := LastRowForm(ops, x, SlotOf(base, x));
    var before, rest := ops[..i], ops[i + 1..];
    assert ops == before + ([ops[i]] + rest);
    assert OpAgrees(ops[i], owners);
    ReplayAppend(before, [ops[i]] + rest, snap);
    assert ([ops[i]] + rest)[1..] == rest;
    if owners[x].Some? {
      EntryKept(rest, Apply(ops[i], ReplayAll(before, snap)), owners[x].value, x);
    }
  }

  /** One that the log did not create was never deleted at all. */
  lemma OldListed(ops: seq<WalOp>, base: Image, snap: Image, owners: Owners, x: nat)
    requires Disjoint(base) && x !in RememberedIds(ops)
    requires Agrees(snap, owners) && Covered(snap)
    requires SlotGrows(SlotReplay(ops, x, SlotOf(base, x)), SlotOf(ReplayAll(ops, snap), x))
    requires !SlotOf(ReplayAll(ops, snap), x).Absent()
    ensures x in owners && Listed(ReplayAll(ops, snap), owners[x], x)
  {
    DisjointSlots(base, x);
    ReplayClosedForm(ops, x, SlotOf(base, x));
    ReplaySlot(ops, snap, x);
    AbsentStays(ops, x, SlotOf(snap, x));
    assert x in snap.docs || x in snap.archive;
    if owners[x].Some? {
      EntryKept(ops, snap, owners[x].value, x);
    }
  }

  lemma SurvivorListed(ops: seq<WalOp>, base: Image, snap: Image, owners: Owners, x: nat)
    requires Disjoint(base) && Repeatable(ops, base) && OpsAgree(ops, owners)
    requires Agrees(snap, owners) && Covered(snap) && IdsMatch(snap)
    requires Follows(ReplayAll(ops, snap), base, ops)
    requires x in Stored(ReplayAll(ops, snap))
    ensures x in owners && Listed(ReplayAll(ops, snap), owners[x], x)
  {
    var rec := ReplayAll(ops, snap);
    assert LandsOn(ops, x, SlotOf(base, x));
    assert SlotGrows(SlotReplay(ops, x, SlotOf(base, x)), SlotOf(rec, x));
    assert SlotOf(rec, x) == Slot(Lookup(rec.docs, x), Lookup(rec.archive, x));
    if x in RememberedIds(ops) {
      CreatedListed(ops, base, snap, owners, x);
    } else {
      OldListed(ops, base, snap, owners, x);
    }
  }

  lemma {:induction false} AbsentStays(ops: seq<WalOp>, x: nat, s: Slot)
    requires x !in RememberedIds(ops)
    ensures s.Absent() ==> SlotReplay(ops, x, s).Absent()
  {
    if ops != [] {
      HeadFacts(ops, x);
      AbsentStays(ops[1..], x, if OpId(ops[0]) == x then SlotApply(ops[0], s) else s);
    }
  }

  lemma RecoveredCovered(ops: seq<WalOp>, base: Image, snap: Image, owners: Owners)
    requires Disjoint(base) && Repeatable(ops, base) && OpsAgree(ops, owners)
    requires Agrees(snap, owners) && Covered(snap) && IdsMatch(snap)
    requires Follows(ReplayAll(ops, snap), base, ops)
    ensures Covered(ReplayAll(ops, snap)) && Disjoint(ReplayAll(ops, snap))
  {
    var rec := ReplayAll(ops, snap);
    ReplayAgrees(ops, snap, owners);
    forall x | x in Stored(rec) ensures Listed(rec, owners[x], x) && SlotOf(rec, x).Single() {
      SurvivorListed(ops, base, snap, owners, x);
      FollowsSingle(ops, base, rec, x);
    }
    forall x | x in rec.docs ensures x !in rec.archive {
      assert SlotOf(rec, x).Single();
    }
  }

  lemma FollowsSingle(ops: seq<WalOp>, base: Image, img: Image, x: nat)
    requires Disjoint(base) && Repeatable(ops, base) && Follows(img, base, ops)
    ensures SlotOf(img, x).Single()
  {
    DisjointSlots(base, x);
    assert SlotGrows(SlotReplay(ops, x, SlotOf(base, x)), SlotOf(img, x));
    if x in RememberedIds(ops) {
      CreatedSingle(ops, x, SlotOf(base, x));
    } else {
      ReplayClosedForm(ops, x, SlotOf(base, x));
    }
  }

  // ----- One live version per subject -----

  predicate LiveUnder(m: map<nat, StoredDoc>, x: nat, s: string) {
    x in m && m[x].record.IsLive() && m[x].record.subject == Some(s)
  }

  predicate LiveVersion(img: Image, x: nat, s: string) {
    LiveUnder(img.docs, x, s) || LiveUnder(img.archive, x, s)
  }

  ghost predicate SingleLive(img: Image) {
    && Disjoint(img)
    && forall x, y, s :: LiveVersion(img, x, s) && LiveVersion(img, y, s) ==> x == y
  }

  // ----- Sources of live summaries -----

  ghost predicate SourcesIn(m: map<nat, StoredDoc>, archived: set<nat>) {
    forall x, sid ::
      x in m && m[x].record.IsLive() && m[x].record.IsSummary() && sid in m[x].record.sourceIds ==> sid in archived
  }

  ghost predicate SourcesSafe(img: Image) {
    SourcesIn(img.docs, img.archive.Keys) && SourcesIn(img.archive, img.archive.Keys)
  }

  /** Neither property looks at hit counters. */
  lemma GrowsKeepsLive(a: Image, b: Image)
    requires Grows(a, b)
    ensures a.docs.Keys == b.docs.Keys && a.archive.Keys == b.archive.Keys
    ensures SingleLive(a) ==> SingleLive(b)
    ensures SourcesSafe(a) ==> SourcesSafe(b)
    ensures Disjoint(a) ==> Disjoint(b)
  {
    forall x
      ensures (x in a.docs <==> x in b.docs) && (x in a.archive <==> x in b.archive)
      ensures x in a.docs ==> DocGrows(a.docs[x], b.docs[x])
      ensures x in a.archive ==> DocGrows(a.archive[x], b.archive[x])
    {
      assert SlotGrows(SlotOf(a, x), SlotOf(b, x));
    }
    assert a.docs.Keys == b.docs.Keys;
    assert a.archive.Keys == b.archive.Keys;
    forall x, s ensures LiveVersion(a, x, s) <==> LiveVersion(b, x, s) {}
    if SingleLive(a) {
      forall x, y, s | LiveVersion(b, x, s) && LiveVersion(b, y, s) ensures x == y {
        assert LiveVersion(a, x, s) && LiveVersion(a, y, s);
      }
    }
  }

  /** A new live record may only appear once its subject has no live version left. */
  lemma ApplySingleLive(op: WalOp, img: Image)
    requires SingleLive(img)
    requires op.Remember? ==> SlotOf(img, OpId(op)).Absent()
    requires op.Remember? && op.row.record.IsLive() && op.row.record.subject.Some? ==>
               forall x :: !LiveVersion(img, x, op.row.record.subject.value)
    ensures SingleLive(Apply(op, img))
  {
    var r := Apply(op, img);
    forall x, s | LiveVersion(r, x, s)
      ensures LiveVersion(img, x, s) ||
              (op.Remember? && x == OpId(op) && op.row.record.IsLive() && op.row.record.subject == Some(s))
    {
    }
    forall x, y, s | LiveVersion(r, x, s) && LiveVersion(r, y, s) ensures x == y {
    }
  }

  /** Sources stay archived as long as nothing is hard-deleted and new summaries point into the archive. */
  lemma ApplySourcesSafe(op: WalOp, img: Image)
    requires SourcesSafe(img) && !op.HardDelete?
    requires op.Remember? ==> SlotOf(img, OpId(op)).Absent()
    requires op.Remember? && op.row.record.IsLive() && op.row.record.IsSummary() ==>
               forall sid :: sid in op.row.record.sourceIds ==> sid in img.archive
    ensures SourcesSafe(Apply(op, img))
  {
    var r := Apply(op, img);
    assert img.archive.Keys <= r.archive.Keys;
  }
}
