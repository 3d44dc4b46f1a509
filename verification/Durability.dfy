/**
 * The link between a collection in memory and its directory, and how logging one operation keeps it.
 * Everything `open` would rebuild equals memory, except that hit counters may be larger once logs are archived.
 */
module Durability {
  import opened Wrappers
  import opened Records
  import opened Replay
  import opened Absorb
  import opened FileNames
  import opened Disk
  import opened Invariants

  /**
   * What proofs remember about a run: the image at the last plain checkpoint, the owner of every id
   * ever used, how many live log entries the snapshot already contains (0 unless a crash kept the log
   * of a switched checkpoint), the ids that this base or the logs since know, those of them that were
   * remembered as archived rows, those that vanished without the logs saying so, and whether rows were
   * ever imported or hard-deleted.
   */
  datatype History = History(base: Image, owners: Owners, settled: nat, known: set<nat>, filed: set<nat>,
                             lost: set<nat>, imported: bool, deleted: bool)

  ghost predicate MemOk(mem: Image, owners: Owners) {
    && Disjoint(mem) && IdsMatch(mem) && Covered(mem) && Agrees(mem, owners)
    && mem.nextId >= 1
    && forall x :: x in owners ==> x < mem.nextId
  }

  ghost predicate Kept(img: Image, h: History) {
    && (!h.imported ==> SingleLive(img))
    && (!h.imported && !h.deleted ==> SourcesSafe(img))
  }

  ghost predicate ArchivedBy(name: string, limit: nat) {
    exists k: nat, t: int :: k <= limit && name == ArchiveName(k, t)
  }

  /** The manifest lists at most one segment and only archives made up to its checkpoint; every log can be read. */
  ghost predicate Shaped(d: Directory) {
    && ManifestOf(d).Some?
    && var m := ManifestOf(d).value;
    && |m.snapshots| <= 1
    && (m.snapshots == [] ==> m.walArchives == [])
    && (forall n :: n in m.snapshots ==> n == NewSegmentName(SeqNoOf(m)) && n in d && d[n].SegmentFile?)
    && (forall n :: n in m.walArchives ==> ArchivedBy(n, SeqNoOf(m)))
    && (WAL_FILE in d ==> d[WAL_FILE].LogFile?)
    && LogsReadable(d, m)
  }

  predicate WalClean(d: Directory) {
    WAL_FILE in d && d[WAL_FILE].LogFile? && Clean(d[WAL_FILE].lines)
  }

  function Recovered(v: View): Image {
    ReplayAll(v.arch + v.live, v.snap)
  }

  /** What `open` would rebuild from the first `p` entries of the live log. */
  function RecoveredAt(v: View, p: nat): Image
    requires p <= |v.live|
  {
    ReplayAll(v.arch + v.live[..p], v.snap)
  }

  /** The operations, which can be repeated, lead from `base` to memory, up to grown hit counters. */
  ghost predicate Explains(ops: seq<WalOp>, base: Image, mem: Image, owners: Owners) {
    && Disjoint(base) && Stored(base) <= owners.Keys
    && Repeatable(ops, base) && OpsAgree(ops, owners)
    && Follows(mem, base, ops)
  }

  /**
   * What the snapshot holds of the logs: the archived part; or, if a checkpoint crashed before it could
   * replace the log, those records of its settled entries that were still stored.
   */
  ghost predicate SnapshotFits(v: View, h: History) {
    && h.settled <= |v.live|
    && if h.settled == 0 then Follows(v.snap, h.base, v.arch)
       else v.arch == [] && Disjoint(v.snap) && forall x: nat :: SettledSlot(v, h.settled, h.base, x)
  }

  /** Of the ids the settled entries created, the snapshot may lack some; otherwise it is what they lead to. */
  predicate SettledSlot(v: View, settled: nat, base: Image, x: nat)
    requires settled <= |v.live|
  {
    if x in RememberedIds(v.live[..settled]) then
      x in Stored(v.snap) ==> SlotReplay(v.live[..settled], x, Slot(None, None)) == SlotOf(v.snap, x)
    else SlotGrows(SlotReplay(v.live[..settled], x, SlotOf(base, x)), SlotOf(v.snap, x))
  }

  /** The ids that the log remembers as archived rows. */
  function FiledIds(ops: seq<WalOp>): set<nat> {
    set i | 0 <= i < |ops| && ops[i].Remember? && ops[i].row.archived :: OpId(ops[i])
  }

  predicate LandsFrom(ops: seq<WalOp>, x: nat, base: Image) {
    Lands(ops, x, x in Stored(base))
  }

  /** Base and logs mention known ids only, and the filed ones are noted. */
  predicate Covers(ops: seq<WalOp>, base: Image, h: History) {
    Stored(base) <= h.known && IdsOf(ops) <= h.known && FiledIds(ops) <= h.filed
  }

  /** In addition, so are those that the logs use though the base lacks them. */
  ghost predicate Noted(ops: seq<WalOp>, h: History) {
    Covers(ops, h.base, h) && forall x: nat :: x !in h.lost ==> LandsFrom(ops, x, h.base)
  }

  /** Subject lists name stored records only. */
  ghost predicate ListsStored(img: Image) {
    forall s, x :: s in img.subjects && x in img.subjects[s] ==> x in Stored(img)
  }

  /** The snapshot's counter is above all it was made from, and every used id is below it or in the logs. */
  ghost predicate CounterOk(v: View, h: History) {
    && v.snap.nextId >= 1
    && (forall x :: x in IdsOf(v.arch) || x in Stored(h.base) || x in Stored(v.snap) ==> x < v.snap.nextId)
    && (forall x :: x in h.owners ==> x < v.snap.nextId || x in RememberedIds(v.arch + v.live))
  }

  ghost predicate LogOk(v: View, h: History) {
    && Explains(v.arch + v.live, h.base, Recovered(v), h.owners)
    && Agrees(v.snap, h.owners) && Covered(v.snap) && IdsMatch(v.snap) && ListsStored(v.snap)
    && SnapshotFits(v, h) && Noted(v.arch + v.live, h) && CounterOk(v, h)
  }

  ghost predicate PrefixesKept(v: View, h: History) {
    && h.settled <= |v.live|
    && (h.settled > 0 ==> Kept(v.snap, h))
    && forall p :: h.settled <= p <= |v.live| ==> Kept(RecoveredAt(v, p), h)
  }

  /** Recovery refines memory. */
  ghost predicate Refines(v: View, mem: Image) {
    && Grows(mem, Recovered(v))
    && Recovered(v).nextId == mem.nextId
    && (v.manifest.walArchives == [] ==> Recovered(v).docs == mem.docs && Recovered(v).archive == mem.archive)
  }

  ghost predicate Linked(v: View, mem: Image, h: History) {
    && LogOk(v, h)
    && Follows(mem, h.base, v.arch + v.live)
    && Refines(v, mem)
    && PrefixesKept(v, h)
  }

  /** A directory and a memory, with what is known of their past. */
  datatype Pair = Pair(dir: Directory, mem: Image, hist: History)

  ghost function Survivors(): iset<Pair> {
    iset p: Pair |
      && Shaped(p.dir)
      && MemOk(p.mem, p.hist.owners) && Kept(p.mem, p.hist)
      && ViewOf(p.dir).Ok? && Linked(ViewOf(p.dir).value, p.mem, p.hist)
  }

  /** Opening the directory gives memory back; its log may end in a torn line or be missing. */
  ghost predicate Survives(d: Directory, mem: Image, h: History) {
    Pair(d, mem, h) in Survivors()
  }

  /** In addition the log is clean, so that whatever is appended next is read back too. */
  ghost predicate Durable(d: Directory, mem: Image, h: History) {
    WalClean(d) && Survives(d, mem, h)
  }

  lemma ShapedOpens(d: Directory)
    requires Shaped(d)
    ensures ViewOf(d).Ok?
  {
    var m := ManifestOf(d).value;
    if m.snapshots != [] {
      var n := m.snapshots[0];
      assert n in m.snapshots;
      assert m.snapshots[1..] == [];
      var img := EmptyImage(Max(m.nextId, 1));
      assert LoadSegments(d, m.snapshots, img) == LoadSegments(d, m.snapshots[1..], LoadRows(d[n].rows, img));
    }
  }

  function LogLines(d: Directory): seq<Line> {
    if WAL_FILE in d && d[WAL_FILE].LogFile? then d[WAL_FILE].lines else []
  }

  function WithLine(d: Directory, line: Line): Directory {
    d[WAL_FILE := LogFile(AppendLine(LogLines(d), line))]
  }

  /** The directory after `WalWriter::append`. */
  function Logged(d: Directory, op: WalOp): Directory {
    WithLine(d, Entry(op))
  }

  /**
   * An id that was used before, and whose record is gone, may be used again for a row of the same subject,
   * unless the record vanished without a deletion in the logs, or they have filed it and the row is not
   * archived; or for any row, once the last plain checkpoint, the logs since and the subject lists have
   * forgotten it.
   */
  ghost predicate Reusable(row: SnapshotRow, mem: Image, h: History) {
    var x := row.record.id;
    && x in h.owners && x !in Stored(mem)
    && if h.owners[x] == row.record.subject then x !in h.lost && (x in h.filed ==> row.archived)
       else x !in h.known && forall s :: s in mem.subjects ==> x !in mem.subjects[s]
  }

  ghost predicate Usable(row: SnapshotRow, mem: Image, h: History) {
    row.record.id !in h.owners || Reusable(row, mem, h)
  }

  ghost predicate Allowed(op: WalOp, mem: Image, h: History) {
    if op.Remember? then Usable(op.row, mem, h) else OpId(op) in Stored(mem)
  }

  function Extend(op: WalOp, h: History): History {
    h.(owners := if op.Remember? then h.owners[OpId(op) := op.row.record.subject] else h.owners,
       known := if op.Remember? then h.known + {OpId(op)} else h.known,
       filed := if op.Remember? && op.row.archived then h.filed + {OpId(op)} else h.filed,
       deleted := h.deleted || op.HardDelete?)
  }

  // ----- The view after one more line -----

  lemma ListedNamesAreNotSpecial(d: Directory, n: string)
    requires Shaped(d)
    ensures var m := ManifestOf(d).value;
            n in m.snapshots || n in m.walArchives ==>
              n != WAL_FILE && n != MANIFEST_FILE && !IsTmpName(n)
  {
    var m := ManifestOf(d).value;
    if n in m.snapshots {
      NameShapes(SeqNoOf(m), 0, n);
    } else if n in m.walArchives {
      var k: nat, t: int :| k <= SeqNoOf(m) && n == ArchiveName(k, t);
      NameShapes(k, t, n);
    }
  }

  /** A write to the live log changes nothing else that recovery reads. */
  lemma WalWriteView(d: Directory, lines: seq<Line>)
    requires Shaped(d) && ViewOf(d).Ok? && Readable(lines)
    ensures var e := d[WAL_FILE := LogFile(lines)];
            && Shaped(e)
            && ViewOf(e) == Ok(ViewOf(d).value.(live := ParsedOps(lines)))
  {
    var e := d[WAL_FILE := LogFile(lines)];
    var m := ManifestOf(d).value;
    assert ManifestOf(e) == Some(m);
    forall n | n in m.snapshots || n in m.walArchives ensures SameFile(d, e, n) {
      ListedNamesAreNotSpecial(d, n);
    }
    LoadSegmentsFrame(d, e, m.snapshots, EmptyImage(Max(m.nextId, 1)));
    ArchivedOpsFrame(d, e, m.walArchives);
    forall n | n in m.walArchives ensures ReadableIn(e, n) {
      assert SameFile(d, e, n);
    }
  }

  lemma LoggedView(d: Directory, line: Line)
    requires Shaped(d) && ViewOf(d).Ok? && WalClean(d) && !line.Broken?
    ensures Shaped(WithLine(d, line))
    ensures ViewOf(WithLine(d, line)) == Ok(ViewOf(d).value.(live := ViewOf(d).value.live + OpsOf(line)))
    ensures line.Entry? ==> WalClean(WithLine(d, line))
  {
    CleanAppend(LogLines(d), line);
    WalWriteView(d, AppendLine(LogLines(d), line));
  }

  /** With a log that cannot be read, `open` fails. */
  lemma BrokenView(d: Directory, lines: seq<Line>)
    requires Shaped(d) && !Readable(lines)
    ensures Recover(d[WAL_FILE := LogFile(lines)]) == Err(UnreadableLog)
  {
    var e := d[WAL_FILE := LogFile(lines)];
    var m := ManifestOf(d).value;
    ShapedOpens(d);
    forall n | n in m.snapshots ensures SameFile(d, e, n) {
      ListedNamesAreNotSpecial(d, n);
    }
    LoadSegmentsFrame(d, e, m.snapshots, EmptyImage(Max(m.nextId, 1)));
    assert ManifestOf(e) == Some(m) && !ReadableIn(e, WAL_FILE);
  }

  // ----- Each clause of the link, one operation later -----

  lemma LandsExtend(ops: seq<WalOp>, op: WalOp, x: nat, held: bool)
    requires Lands(ops, x, held)
    requires OpId(op) == x ==> (op.Remember? <==> !HeldAfter(ops, x, held))
    ensures Lands(ops + [op], x, held)
  {
    LandsSplit(ops, [op], x, held);
    assert [op][1..] == [];
  }

  lemma FiledExtend(ops: seq<WalOp>, op: WalOp, x: nat)
    requires StaysFiled(ops, x)
    requires Rows(op, x) && x in FiledIds(ops) ==> op.row.archived
    ensures StaysFiled(ops + [op], x)
  {
    var more := ops + [op];
    forall i, j | 0 <= i < j < |more| && Rows(more[i], x) && Rows(more[j], x) && more[i].row.archived
      ensures more[j].row.archived
    {
      assert more[i] == ops[i];
      if j < |ops| {
        assert more[j] == ops[j];
      } else {
        assert OpId(ops[i]) in FiledIds(ops);
      }
    }
  }

  /** One id of a repeatable log, one operation later: `img` is where the log leads. */
  lemma LandsOnExtend(ops: seq<WalOp>, op: WalOp, x: nat, base: Image, img: Image)
    requires Disjoint(base) && LandsOn(ops, x, SlotOf(base, x))
    requires SlotGrows(SlotReplay(ops, x, SlotOf(base, x)), SlotOf(img, x))
    requires OpId(op) == x ==> (op.Remember? <==> SlotOf(img, x).Absent())
    requires Rows(op, x) && x !in RememberedIds(ops) ==> LandsFrom(ops, x, base)
    ensures LandsOn(ops + [op], x, SlotOf(base, x))
    ensures LandsFrom(ops, x, base) ==> LandsFrom(ops + [op], x, base)
  {
    var s := SlotOf(base, x);
    DisjointSlots(base, x);
    if LandsFrom(ops, x, base) {
      HeldSlot(ops, x, x in Stored(base), s);
      LandsExtend(ops, op, x, x in Stored(base));
    } else if x in RememberedIds(ops) {
      HeldSlot(ops, x, Lands(ops, x, true), s);
      LandsExtend(ops, op, x, Lands(ops, x, true));
    } else {
      AbsentStays(ops, x, s);
      LandsSplit(ops, [op], x, true);
      assert [op][1..] == [];
    }
  }

  lemma RepeatableExtend(ops: seq<WalOp>, op: WalOp, base: Image, img: Image)
    requires Disjoint(base) && Repeatable(ops, base) && Follows(img, base, ops)
    requires op.Remember? <==> SlotOf(img, OpId(op)).Absent()
    requires op.Remember? && OpId(op) !in RememberedIds(ops) ==> LandsFrom(ops, OpId(op), base)
    requires op.Remember? && OpId(op) in FiledIds(ops) ==> op.row.archived
    ensures Repeatable(ops + [op], base)
    ensures forall x: nat :: LandsFrom(ops, x, base) ==> LandsFrom(ops + [op], x, base)
  {
    forall x: nat
      ensures LandsOn(ops + [op], x, SlotOf(base, x)) && StaysFiled(ops + [op], x)
      ensures LandsFrom(ops, x, base) ==> LandsFrom(ops + [op], x, base)
    {
      assert LandsOn(ops, x, SlotOf(base, x)) && StaysFiled(ops, x);
      assert SlotGrows(SlotReplay(ops, x, SlotOf(base, x)), SlotOf(img, x));
      LandsOnExtend(ops, op, x, base, img);
      FiledExtend(ops, op, x);
    }
  }

  lemma NotedExtend(ops: seq<WalOp>, op: WalOp, h: History)
    requires Noted(ops, h) && (!op.Remember? ==> OpId(op) in h.known)
    requires forall x: nat :: LandsFrom(ops, x, h.base) ==> LandsFrom(ops + [op], x, h.base)
    ensures Noted(ops + [op], Extend(op, h))
  {
    var more := ops + [op];
    forall x | x in IdsOf(more) ensures x in Extend(op, h).known {
      var i :| 0 <= i < |more| && OpId(more[i]) == x;
      if i < |ops| {
        assert more[i] == ops[i];
      }
    }
    forall x | x in FiledIds(more) ensures x in Extend(op, h).filed {
      var i :| 0 <= i < |more| && more[i].Remember? && more[i].row.archived && OpId(more[i]) == x;
      if i < |ops| {
        assert more[i] == ops[i];
        assert OpId(ops[i]) in FiledIds(ops);
      }
    }
    forall x: nat | x !in Extend(op, h).lost ensures LandsFrom(more, x, h.base) {
      assert LandsFrom(ops, x, h.base);
    }
  }

  lemma RememberedExtend(ops: seq<WalOp>, op: WalOp)
    ensures RememberedIds(ops + [op]) == RememberedIds(ops) + if op.Remember? then {OpId(op)} else {}
  {
    var more := ops + [op];
    forall x | x in RememberedIds(ops) ensures x in RememberedIds(more) {
      var i :| 0 <= i < |ops| && ops[i].Remember? && OpId(ops[i]) == x;
      assert more[i] == ops[i];
    }
    if op.Remember? {
      assert more[|ops|] == op;
    }
  }

  lemma FollowsExtend(img: Image, base: Image, ops: seq<WalOp>, op: WalOp)
    requires Follows(img, base, ops)
    requires op.Remember? ==> SlotOf(img, OpId(op)).Absent()
    ensures Follows(Apply(op, img), base, ops + [op])
  {
    RememberedExtend(ops, op);
    forall x
      ensures SlotGrows(SlotReplay(ops + [op], x, SlotOf(base, x)), SlotOf(Apply(op, img), x))
      ensures x in RememberedIds(ops + [op]) ==>
                SlotReplay(ops + [op], x, SlotOf(base, x)) == SlotOf(Apply(op, img), x)
    {
      var before := SlotReplay(ops, x, SlotOf(base, x));
      assert SlotGrows(before, SlotOf(img, x));
      SlotReplayAppend(ops, [op], x, SlotOf(base, x));
      ApplySlot(op, img, x);
      SlotApplyGrows(op, before, SlotOf(img, x));
      assert SlotReplay([op], x, before) == if OpId(op) == x then SlotApply(op, before) else before;
    }
  }

  lemma OpsAgreeExtend(ops: seq<WalOp>, op: WalOp, h: History)
    requires OpsAgree(ops, h.owners) && OpId(op) in Extend(op, h).owners
    requires op.Remember? && OpId(op) in h.owners ==>
               h.owners[OpId(op)] == op.row.record.subject || OpId(op) !in IdsOf(ops)
    ensures OpsAgree(ops + [op], Extend(op, h).owners)
  {
    var more, owners := ops + [op], Extend(op, h).owners;
    forall i | 0 <= i < |more| ensures OpAgrees(more[i], owners) {
      if i < |ops| {
        assert more[i] == ops[i];
        assert OpAgrees(ops[i], h.owners) && OpId(ops[i]) in IdsOf(ops);
      }
    }
  }

  lemma IdsOwned(ops: seq<WalOp>, owners: Owners)
    requires OpsAgree(ops, owners)
    ensures IdsOf(ops) <= owners.Keys
  {
    forall x | x in IdsOf(ops) ensures x in owners {
      var i :| 0 <= i < |ops| && OpId(ops[i]) == x;
      assert OpAgrees(ops[i], owners);
    }
  }

  lemma StoredAlike(a: Image, b: Image, x: nat)
    requires SlotGrows(SlotOf(a, x), SlotOf(b, x))
    ensures x in Stored(a) <==> x in Stored(b)
    ensures x in Stored(a) <==> !SlotOf(a, x).Absent()
  {
    assert SlotOf(a, x) == Slot(Lookup(a.docs, x), Lookup(a.archive, x));
    assert SlotOf(b, x) == Slot(Lookup(b.docs, x), Lookup(b.archive, x));
  }

  /** An id that base and logs do not know is not in the snapshot either. */
  lemma UnknownUnstored(v: View, h: History, x: nat)
    requires LogOk(v, h) && x !in h.known
    ensures x !in Stored(v.snap) && forall s :: s in v.snap.subjects ==> x !in v.snap.subjects[s]
  {
    var ops := v.arch + v.live;
    assert SlotGrows(SlotReplay(ops, x, SlotOf(h.base, x)), SlotOf(Recovered(v), x));
    UntouchedSlot(ops, x, SlotOf(h.base, x));
    UntouchedSlot(ops, x, SlotOf(v.snap, x));
    ReplaySlot(ops, v.snap, x);
    DisjointSlots(h.base, x);
    StoredAlike(v.snap, v.snap, x);
    forall s | s in v.snap.subjects ensures x !in v.snap.subjects[s] {
    }
  }

  /** What the logs lead to is known. */
  lemma StoredKnown(v: View, h: History, x: nat)
    requires LogOk(v, h) && x in Stored(Recovered(v))
    ensures x in h.known
  {
    var ops := v.arch + v.live;
    assert SlotGrows(SlotReplay(ops, x, SlotOf(h.base, x)), SlotOf(Recovered(v), x));
    StoredAlike(Recovered(v), Recovered(v), x);
    DisjointSlots(h.base, x);
    if x in RememberedIds(ops) {
      var i :| 0 <= i < |ops| && ops[i].Remember? && OpId(ops[i]) == x;
      assert x in IdsOf(ops);
    } else {
      AbsentStays(ops, x, SlotOf(h.base, x));
    }
  }

  lemma LogOkExtend(v: View, mem: Image, op: WalOp, h: History)
    requires LogOk(v, h) && Grows(mem, Recovered(v)) && MemOk(mem, h.owners) && Allowed(op, mem, h)
    ensures LogOk(v.(live := v.live + [op]), Extend(op, h))
    ensures Recovered(v.(live := v.live + [op])) == Apply(op, Recovered(v))
  {
    var ops := v.arch + v.live;
    var w := v.(live := v.live + [op]);
    var x := OpId(op);
    assert w.arch + w.live == ops + [op];
    assert SlotGrows(SlotOf(mem, x), SlotOf(Recovered(v), x));
    StoredAlike(mem, Recovered(v), x);
    StoredAlike(Recovered(v), Recovered(v), x);
    IdsOwned(ops, h.owners);
    if op.Remember? {
      AllowedLands(v, mem, op, h);
    } else {
      StoredKnown(v, h, x);
    }
    RepeatableExtend(ops, op, h.base, Recovered(v));
    NotedExtend(ops, op, h);
    OpsAgreeExtend(ops, op, h);
    ReplayOne(ops, op, v.snap);
    FollowsExtend(Recovered(v), h.base, ops, op);
    SnapAgrees(v, mem, op, h);
    FitsExtend(v, op, h);
    RememberedExtend(ops, op);
  }

  lemma {:induction false} UnmentionedLands(ops: seq<WalOp>, x: nat, held: bool)
    requires x !in IdsOf(ops)
    ensures Lands(ops, x, held)
  {
    if ops != [] {
      HeadFacts(ops, x);
      UnmentionedLands(ops[1..], x, held);
    }
  }

  lemma AllowedLands(v: View, mem: Image, op: WalOp, h: History)
    requires LogOk(v, h) && Allowed(op, mem, h) && op.Remember?
    ensures LandsFrom(v.arch + v.live, OpId(op), h.base)
    ensures OpId(op) in FiledIds(v.arch + v.live) ==> op.row.archived
    ensures OpId(op) in h.owners ==>
              h.owners[OpId(op)] == op.row.record.subject || OpId(op) !in IdsOf(v.arch + v.live)
  {
    var ops, x := v.arch + v.live, OpId(op);
    IdsOwned(ops, h.owners);
    FiledMentioned(ops, x);
    if x !in IdsOf(ops) {
      UnmentionedLands(ops, x, x in Stored(h.base));
    }
  }

  lemma FiledMentioned(ops: seq<WalOp>, x: nat)
    ensures x in FiledIds(ops) ==> x in IdsOf(ops)
  {
    if x in FiledIds(ops) {
      var i :| 0 <= i < |ops| && ops[i].Remember? && ops[i].row.archived && OpId(ops[i]) == x;
    }
  }

  lemma SnapAgrees(v: View, mem: Image, op: WalOp, h: History)
    requires LogOk(v, h) && Allowed(op, mem, h)
    ensures Agrees(v.snap, Extend(op, h).owners)
  {
    if op.Remember? {
      if OpId(op) in h.owners && h.owners[OpId(op)] != op.row.record.subject {
        UnknownUnstored(v, h, OpId(op));
      }
      AgreesExtend(v.snap, op, h);
    }
  }

  lemma FitsExtend(v: View, op: WalOp, h: History)
    requires SnapshotFits(v, h)
    ensures SnapshotFits(v.(live := v.live + [op]), Extend(op, h))
  {
    var w := v.(live := v.live + [op]);
    assert w.live[..h.settled] == v.live[..h.settled];
    forall x: nat | h.settled > 0 ensures SettledSlot(w, h.settled, h.base, x) {
      assert SettledSlot(v, h.settled, h.base, x);
    }
  }

  lemma AgreesExtend(img: Image, op: WalOp, h: History)
    requires Agrees(img, h.owners) && op.Remember?
    requires OpId(op) in h.owners && h.owners[OpId(op)] != op.row.record.subject ==>
               OpId(op) !in Stored(img) && forall s :: s in img.subjects ==> OpId(op) !in img.subjects[s]
    ensures Agrees(img, Extend(op, h).owners)
  {
  }

  lemma ApplySameMaps(op: WalOp, a: Image, b: Image)
    requires a.docs == b.docs && a.archive == b.archive
    ensures Apply(op, a).docs == Apply(op, b).docs && Apply(op, a).archive == Apply(op, b).archive
  {
  }

  lemma OneMoreGrows(mem: Image, rec: Image, op: WalOp)
    requires Grows(mem, rec)
    ensures Grows(Apply(op, mem), Apply(op, rec))
  {
    forall x ensures SlotGrows(SlotOf(Apply(op, mem), x), SlotOf(Apply(op, rec), x)) {
      ApplySlot(op, mem, x);
      ApplySlot(op, rec, x);
      assert SlotGrows(SlotOf(mem, x), SlotOf(rec, x));
      SlotApplyGrows(op, SlotOf(mem, x), SlotOf(rec, x));
    }
  }

  lemma SameCounter(op: WalOp, a: Image, b: Image)
    requires a.nextId == b.nextId
    ensures Apply(op, a).nextId == Apply(op, b).nextId
  {
  }

  lemma RefinesExtend(v: View, mem: Image, op: WalOp)
    requires Refines(v, mem)
    ensures Refines(v.(live := v.live + [op]), Apply(op, mem))
  {
    var w := v.(live := v.live + [op]);
    assert w.arch + w.live == v.arch + v.live + [op];
    ReplayOne(v.arch + v.live, op, v.snap);
    OneMoreGrows(mem, Recovered(v), op);
    SameCounter(op, mem, Recovered(v));
    if v.manifest.walArchives == [] {
      ApplySameMaps(op, mem, Recovered(v));
    }
  }

  lemma GrowsKeepsKept(a: Image, b: Image, h: History)
    requires Grows(a, b) && Kept(a, h)
    ensures Kept(b, h)
  {
    GrowsKeepsLive(a, b);
  }

  lemma PrefixesExtend(v: View, mem: Image, op: WalOp, h: History, g: History)
    requires PrefixesKept(v, h) && Refines(v.(live := v.live + [op]), mem) && Kept(mem, g)
    requires g.settled == h.settled && (h.imported ==> g.imported) && (h.deleted ==> g.deleted)
    ensures PrefixesKept(v.(live := v.live + [op]), g)
  {
    var w := v.(live := v.live + [op]);
    forall p | g.settled <= p <= |w.live| ensures Kept(RecoveredAt(w, p), g) {
      if p <= |v.live| {
        assert w.live[..p] == v.live[..p];
        assert Kept(RecoveredAt(v, p), h);
      } else {
        assert w.live[..p] == w.live;
        GrowsKeepsKept(mem, Recovered(w), g);
      }
    }
  }

  lemma MemOkExtend(mem: Image, op: WalOp, h: History)
    requires MemOk(mem, h.owners) && Allowed(op, mem, h)
    ensures MemOk(Apply(op, mem), Extend(op, h).owners)
  {
    if op.Remember? {
      AgreesExtend(mem, op, h);
    }
    DisjointSlots(mem, OpId(op));
    ApplyAgrees(op, mem, Extend(op, h).owners);
    ApplyCovered(op, mem);
  }

  /**
   * Logging keeps the link: after an operation on a stored id, or a remember of a never-used or reusable
   * one, the directory with that operation appended recovers to the memory it was applied to.
   */
  lemma LogKeepsDurable(d: Directory, mem: Image, op: WalOp, h: History, imported: bool)
    requires Durable(d, mem, h) && Allowed(op, mem, h)
    requires h.imported ==> imported
    requires Kept(Apply(op, mem), Extend(op, h).(imported := imported))
    ensures Durable(Logged(d, op), Apply(op, mem), Extend(op, h).(imported := imported))
  {
    var v := ViewOf(d).value;
    LoggedView(d, Entry(op));
    LinkedExtend(v, mem, op, h, imported);
    MemOkExtend(mem, op, h);
    SurvivesAs(Logged(d, op), v.(live := v.live + [op]), Apply(op, mem), Extend(op, h).(imported := imported));
  }

  lemma SurvivesAs(d: Directory, v: View, mem: Image, h: History)
    requires Shaped(d) && ViewOf(d) == Ok(v) && Linked(v, mem, h) && MemOk(mem, h.owners) && Kept(mem, h)
    ensures Survives(d, mem, h)
  {
  }

  lemma LinkedExtend(v: View, mem: Image, op: WalOp, h: History, imported: bool)
    requires Linked(v, mem, h) && MemOk(mem, h.owners) && Allowed(op, mem, h)
    requires h.imported ==> imported
    requires Kept(Apply(op, mem), Extend(op, h).(imported := imported))
    ensures Linked(v.(live := v.live + [op]), Apply(op, mem), Extend(op, h).(imported := imported))
  {
    var w := v.(live := v.live + [op]);
    var g := Extend(op, h).(imported := imported);
    LogOkExtend(v, mem, op, h);
    DisjointSlots(mem, OpId(op));
    FollowsExtend(mem, h.base, v.arch + v.live, op);
    assert w.arch + w.live == v.arch + v.live + [op];
    RefinesExtend(v, mem, op);
    PrefixesExtend(v, Apply(op, mem), op, h, g);
    assert LogOk(w, g);
  }

  /**
   * What a crash during an append leaves: the operations before it, or also it if its bytes were all
   * written, so that `open` sees a state memory has been in; unless the tear is inside a character, when
   * `open` fails.
   */
  lemma TornAppendRecovers(d: Directory, mem: Image, op: WalOp, h: History)
    requires Durable(d, mem, h)
    ensures Recover(WithLine(d, Torn)) == Recover(d) && Recover(d).Ok?
    ensures Recover(WithLine(d, Unterminated(op))) == Recover(Logged(d, op)) && Recover(Logged(d, op)).Ok?
    ensures Recover(WithLine(d, Broken)) == Err(UnreadableLog)
  {
    LoggedView(d, Torn);
    LoggedView(d, Unterminated(op));
    LoggedView(d, Entry(op));
    var v := ViewOf(d).value;
    assert v.live + [] == v.live;
    CleanAppend(LogLines(d), Broken);
    BrokenView(d, AppendLine(LogLines(d), Broken));
  }

  /** Behind a line at which reading stops, whatever an append leaves changes nothing `open` reads, or is not UTF-8. */
  lemma StoppedView(d: Directory, line: Line)
    requires Shaped(d) && Stopped(LogLines(d))
    ensures !line.Broken? ==> Shaped(WithLine(d, line))
    ensures if Shaped(WithLine(d, line)) then
              ViewOf(WithLine(d, line)) == ViewOf(d) && Stopped(LogLines(WithLine(d, line)))
            else Recover(WithLine(d, line)) == Err(UnreadableLog)
  {
    var more := AppendLine(LogLines(d), line);
    ShapedOpens(d);
    StoppedAppend(LogLines(d), line);
    if Readable(more) {
      WalWriteView(d, more);
    } else {
      BrokenView(d, more);
      if !line.Broken? {
        StoppedReadable(more);
      }
    }
  }

  /** The statement of recovery refinement that callers of `open` rely on. */
  lemma SurvivorRecovers(d: Directory, mem: Image, h: History)
    requires Survives(d, mem, h)
    ensures Recover(d).Ok?
    ensures var img := Recover(d).value;
            && Grows(mem, img) && img.nextId == mem.nextId
            && (ManifestOf(d).value.walArchives == [] ==> img.docs == mem.docs && img.archive == mem.archive)
            && MemOk(img, h.owners) && Kept(img, h)
  {
    var v := ViewOf(d).value;
    var ops := v.arch + v.live;
    ReplayAgrees(ops, v.snap, h.owners);
    RecoveredCovered(ops, h.base, v.snap, h.owners);
    GrowsKeepsKept(mem, Recovered(v), h);
  }
}
