/**
 * The in-memory image of a collection and the effect of one log operation on it
 * (`Collection::open`, the closure passed to `wal::replay`, and `route_row`).
 */
module Replay {
  import opened Wrappers
  import opened Records
  import opened Sorting

  /** `nextId` is the running maximum of the manifest's counter and every id seen plus one. */
  datatype Image = Image(
    docs: map<nat, StoredDoc>,
    archive: map<nat, StoredDoc>,
    subjects: map<string, seq<nat>>,
    nextId: nat)

  function Max(a: int, b: int): int {
    if a >= b then a else b
  }

  function Pushed(subjects: map<string, seq<nat>>, s: Option<string>, id: nat): map<string, seq<nat>> {
    match s
    case None => subjects
    case Some(name) => subjects[name := (if name in subjects then subjects[name] else []) + [id]]
  }

  function Dropped(subjects: map<string, seq<nat>>, s: Option<string>, id: nat): map<string, seq<nat>> {
    match s
    case None => subjects
    case Some(name) => if name in subjects then subjects[name := Without(subjects[name], id)] else subjects
  }

  function RouteRow(row: SnapshotRow, img: Image): Image {
    var id := row.record.id;
    Image(
      if row.archived then img.docs else img.docs[id := DocOf(row)],
      if row.archived then img.archive[id := DocOf(row)] else img.archive,
      Pushed(img.subjects, row.record.subject, id),
      Max(img.nextId, id + 1))
  }

  function Apply(op: WalOp, img: Image): Image {
    match op
    case Remember(row) => RouteRow(row, img)
    case Forget(id, at) =>
      if id in img.docs then img.(docs := img.docs[id := Ended(img.docs[id], at)])
      else if id in img.archive then img.(archive := img.archive[id := Ended(img.archive[id], at)])
      else img
    case Touch(id, at) =>
      if id in img.docs then img.(docs := img.docs[id := Touched(img.docs[id], at)])
      else if id in img.archive then img.(archive := img.archive[id := Touched(img.archive[id], at)])
      else img
    case HardDelete(id) =>
      if id in img.docs then
        img.(docs := img.docs - {id}, subjects := Dropped(img.subjects, img.docs[id].record.subject, id))
      else if id in img.archive then
        img.(archive := img.archive - {id}, subjects := Dropped(img.subjects, img.archive[id].record.subject, id))
      else img
    case Archive(id) =>
      if id in img.docs then img.(docs := img.docs - {id}, archive := img.archive[id := img.docs[id]])
      else img
  }

  function ReplayAll(ops: seq<WalOp>, img: Image): Image {
    if ops == [] then img else ReplayAll(ops[1..], Apply(ops[0], img))
  }

  lemma {:induction false} ReplayAppend(xs: seq<WalOp>, ys: seq<WalOp>, img: Image)
    ensures ReplayAll(xs + ys, img) == ReplayAll(ys, ReplayAll(xs, img))
  {
    if xs == [] {
      assert xs + ys == ys;
    } else {
      assert (xs + ys)[1..] == xs[1..] + ys;
      ReplayAppend(xs[1..], ys, Apply(xs[0], img));
    }
  }

  lemma ReplayOne(xs: seq<WalOp>, op: WalOp, img: Image)
    ensures ReplayAll(xs + [op], img) == Apply(op, ReplayAll(xs, img))
  {
    ReplayAppend(xs, [op], img);
  }

  // ----- One id at a time -----

  /** What the two maps hold for one id. Midway through a second replay both sides can be filled. */
  datatype Slot = Slot(doc: Option<StoredDoc>, arch: Option<StoredDoc>) {
    predicate Single() {
      doc.None? || arch.None?
    }

    predicate Absent() {
      doc.None? && arch.None?
    }
  }

  function Lookup(m: map<nat, StoredDoc>, x: nat): Option<StoredDoc> {
    if x in m then Some(m[x]) else None
  }

  function SlotOf(img: Image, x: nat): Slot {
    Slot(Lookup(img.docs, x), Lookup(img.archive, x))
  }

  function SlotApply(op: WalOp, s: Slot): Slot {
    match op
    case Remember(row) => if row.archived then s.(arch := Some(DocOf(row))) else s.(doc := Some(DocOf(row)))
    case Forget(_, at) =>
      if s.doc.Some? then s.(doc := Some(Ended(s.doc.value, at)))
      else if s.arch.Some? then s.(arch := Some(Ended(s.arch.value, at)))
      else s
    case Touch(_, at) =>
      if s.doc.Some? then s.(doc := Some(Touched(s.doc.value, at)))
      else if s.arch.Some? then s.(arch := Some(Touched(s.arch.value, at)))
      else s
    case HardDelete(_) => if s.doc.Some? then s.(doc := None) else s.(arch := None)
    case Archive(_) => if s.doc.Some? then Slot(None, s.doc) else s
  }

  function SlotReplay(ops: seq<WalOp>, x: nat, s: Slot): Slot {
    if ops == [] then s
    else SlotReplay(ops[1..], x, if OpId(ops[0]) == x then SlotApply(ops[0], s) else s)
  }

  lemma ApplySlot(op: WalOp, img: Image, x: nat)
    ensures SlotOf(Apply(op, img), x) ==
            if OpId(op) == x then SlotApply(op, SlotOf(img, x)) else SlotOf(img, x)
  {
  }

  /** Replay treats every id independently of all the others. */
  lemma {:induction false} ReplaySlot(ops: seq<WalOp>, img: Image, x: nat)
    ensures SlotOf(ReplayAll(ops, img), x) == SlotReplay(ops, x, SlotOf(img, x))
  {
    if ops != [] {
      ApplySlot(ops[0], img, x);
      ReplaySlot(ops[1..], Apply(ops[0], img), x);
    }
  }

  lemma {:induction false} SlotReplayAppend(xs: seq<WalOp>, ys: seq<WalOp>, x: nat, s: Slot)
    ensures SlotReplay(xs + ys, x, s) == SlotReplay(ys, x, SlotReplay(xs, x, s))
  {
    if xs == [] {
      assert xs + ys == ys;
    } else {
      assert (xs + ys)[1..] == xs[1..] + ys;
      SlotReplayAppend(xs[1..], ys, x, if OpId(xs[0]) == x then SlotApply(xs[0], s) else s);
    }
  }

  lemma SameSlotsSameMaps(a: Image, b: Image)
    requires forall x :: SlotOf(a, x) == SlotOf(b, x)
    ensures a.docs == b.docs && a.archive == b.archive
  {
    forall x
      ensures (x in a.docs <==> x in b.docs) && (x in a.docs ==> a.docs[x] == b.docs[x])
      ensures (x in a.archive <==> x in b.archive) && (x in a.archive ==> a.archive[x] == b.archive[x])
    {
      assert SlotOf(a, x) == SlotOf(b, x);
    }
    assert a.docs.Keys == b.docs.Keys;
    assert a.archive.Keys == b.archive.Keys;
  }

  lemma SameMapsExactly(a: Image, b: Image)
    ensures a.docs == b.docs && a.archive == b.archive <==> forall x :: SlotOf(a, x) == SlotOf(b, x)
  {
    if forall x :: SlotOf(a, x) == SlotOf(b, x) {
      SameSlotsSameMaps(a, b);
    }
  }

  // ----- Equality up to hit counters that may only have grown -----

  predicate DocGrows(d: StoredDoc, e: StoredDoc) {
    && e == d.(record := d.record.(hits := e.record.hits))
    && d.record.hits <= e.record.hits
  }

  predicate OptGrows(a: Option<StoredDoc>, b: Option<StoredDoc>) {
    match (a, b)
    case (None, None) => true
    case (Some(d), Some(e)) => DocGrows(d, e)
    case _ => false
  }

  predicate SlotGrows(s: Slot, t: Slot) {
    OptGrows(s.doc, t.doc) && OptGrows(s.arch, t.arch)
  }

  /** Both maps of `b` equal those of `a` except that hit counters may be larger. */
  ghost predicate Grows(a: Image, b: Image) {
    forall x :: SlotGrows(SlotOf(a, x), SlotOf(b, x))
  }

  lemma SlotApplyGrows(op: WalOp, s: Slot, t: Slot)
    requires SlotGrows(s, t)
    ensures SlotGrows(SlotApply(op, s), SlotApply(op, t))
  {
  }

  lemma {:induction false} SlotReplayGrows(ops: seq<WalOp>, x: nat, s: Slot, t: Slot)
    requires SlotGrows(s, t)
    ensures SlotGrows(SlotReplay(ops, x, s), SlotReplay(ops, x, t))
  {
    if ops != [] {
      SlotApplyGrows(ops[0], s, t);
      if OpId(ops[0]) == x {
        SlotReplayGrows(ops[1..], x, SlotApply(ops[0], s), SlotApply(ops[0], t));
      } else {
        SlotReplayGrows(ops[1..], x, s, t);
      }
    }
  }

  lemma ReplayGrows(ops: seq<WalOp>, a: Image, b: Image)
    requires Grows(a, b)
    ensures Grows(ReplayAll(ops, a), ReplayAll(ops, b))
  {
    forall x ensures SlotGrows(SlotOf(ReplayAll(ops, a), x), SlotOf(ReplayAll(ops, b), x)) {
      ReplaySlot(ops, a, x);
      ReplaySlot(ops, b, x);
      assert SlotGrows(SlotOf(a, x), SlotOf(b, x));
      SlotReplayGrows(ops, x, SlotOf(a, x), SlotOf(b, x));
    }
  }
}
