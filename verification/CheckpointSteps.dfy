/** What `open` reads in each directory state a checkpoint passes through. */
module CheckpointSteps {
  import opened Wrappers
  import opened Records
  import opened Replay
  import opened Absorb
  import opened FileNames
  import opened Disk
  import opened Invariants
  import opened Durability
  import opened Operations
  import opened Checkpoints
  import opened Folders

  /** The files a checkpoint writes before it switches the manifest. */
  ghost function ScratchNames(seqNo: nat): iset<string> {
    iset{NewSegmentName(seqNo + 1), NewSegmentName(seqNo + 1) + TMP_SUFFIX, MANIFEST_FILE + TMP_SUFFIX}
  }

  lemma ScratchShapes(seqNo: nat, name: string)
    requires name in ScratchNames(seqNo)
    ensures name == NewSegmentName(seqNo + 1) || IsTmpName(name)
    ensures name == NewSegmentName(seqNo + 1) ==> Ends(name, 's', 'l')
  {
    NameShapes(seqNo + 1, 0, NewSegmentName(seqNo + 1));
    NameShapes(0, 0, MANIFEST_FILE);
  }

  lemma ArchiveShape(d: Directory, name: string)
    requires Shaped(d) && name in ManifestOf(d).value.walArchives
    ensures Ends(name, 'w', 'd')
  {
    var j: nat, t: int :| j <= SeqNoOf(ManifestOf(d).value) && name == ArchiveName(j, t);
    NameShapes(j, t, name);
  }

  /** No scratch name is one that recovery reads: the next segment is never the listed one. */
  lemma ScratchUnread(d: Directory, name: string)
    requires Shaped(d)
    requires var m := ManifestOf(d).value;
             name in ScratchNames(SeqNoOf(m)) || (IsSegmentName(name) && name !in m.snapshots)
    ensures !Reads(ManifestOf(d).value, name)
  {
    var m := ManifestOf(d).value;
    var k := SeqNoOf(m);
    if name in ScratchNames(k) {
      ScratchShapes(k, name);
    }
    NameShapes(k, 0, name);
    if name in m.walArchives {
      ArchiveShape(d, name);
    }
    if name in m.snapshots {
      SegmentNameRoundTrip(k + 1);
      SegmentNameRoundTrip(k);
      NameShapes(k, 0, NewSegmentName(k));
    }
  }

  /** Until the manifest is switched, recovery reads exactly what it read before the checkpoint. */
  lemma BeforeSwitch(d: Directory, e: Directory)
    requires Shaped(d)
    requires DiffersOnlyAt(d, e, ScratchNames(SeqNoOf(ManifestOf(d).value)))
    ensures ViewOf(e) == ViewOf(d) && Shaped(e) && SameFile(d, e, WAL_FILE)
  {
    var m := ManifestOf(d).value;
    forall n | Reads(m, n) ensures SameFile(d, e, n) {
      if n in ScratchNames(SeqNoOf(m)) {
        ScratchUnread(d, n);
        assert false;
      }
    }
    ViewFrame(d, e);
    LogsFrame(d, e, m);
    assert SameFile(d, e, MANIFEST_FILE) && SameFile(d, e, WAL_FILE);
    forall n | n in m.snapshots ensures n in e && e[n].SegmentFile? {
      assert SameFile(d, e, n);
    }
  }

  function PlainManifest(mem: Image, seqNo: nat): Manifest {
    Manifest(mem.nextId, [NewSegmentName(seqNo)], [])
  }

  function KeepManifest(mem: Image, seqNo: nat, archives: seq<string>): Manifest {
    Manifest(mem.nextId, [NewSegmentName(seqNo)], archives)
  }

  lemma SeqNoOfNew(mem: Image, seqNo: nat, archives: seq<string>)
    ensures SeqNoOf(KeepManifest(mem, seqNo, archives)) == seqNo
  {
    SegmentNameRoundTrip(seqNo);
  }

  /** The manifest and its segment are in place; the cleanup may have removed any unlisted segment. */
  ghost predicate SwitchedTo(e: Directory, mem: Image, seqNo: nat, archives: seq<string>, rows: seq<SnapshotRow>) {
    && MANIFEST_FILE in e && e[MANIFEST_FILE] == ManifestFile(KeepManifest(mem, seqNo, archives))
    && NewSegmentName(seqNo) in e && e[NewSegmentName(seqNo)] == SegmentFile(rows)
  }

  /** Once switched, recovery reads the new segment, the listed archives and whatever the live log holds. */
  lemma AfterSwitch(e: Directory, mem: Image, seqNo: nat, archives: seq<string>, rows: seq<SnapshotRow>)
    requires SwitchedTo(e, mem, seqNo, archives, rows) && mem.nextId >= 1
    requires forall n :: n in archives ==> ArchivedBy(n, seqNo)
    requires (WAL_FILE in e ==> e[WAL_FILE].LogFile?) && ReadableIn(e, WAL_FILE)
    requires forall n :: n in archives ==> ReadableIn(e, n)
    ensures Shaped(e) && SeqNoOf(ManifestOf(e).value) == seqNo
    ensures ViewOf(e) == Ok(View(KeepManifest(mem, seqNo, archives), Snapshot(rows, mem),
                                 ArchivedOps(e, archives), OpsIn(e, WAL_FILE)))
  {
    var m := KeepManifest(mem, seqNo, archives);
    SeqNoOfNew(mem, seqNo, archives);
    assert ManifestOf(e) == Some(m);
    assert m.snapshots[1..] == [];
    assert LoadSegments(e, m.snapshots, EmptyImage(mem.nextId)) ==
           LoadSegments(e, m.snapshots[1..], Snapshot(rows, mem));
  }

  /** Removing unlisted segments is invisible to recovery. */
  lemma CleanupInvisible(d: Directory, e: Directory)
    requires Shaped(d) && DiffersOnlyAt(d, e, Unlisted(ManifestOf(d).value.snapshots))
    ensures ViewOf(e) == ViewOf(d) && SameFile(d, e, WAL_FILE) && SameFile(d, e, MANIFEST_FILE)
    ensures LogsReadable(e, ManifestOf(d).value)
    ensures forall n :: n in ManifestOf(d).value.snapshots ==> SameFile(d, e, n)
  {
    var m := ManifestOf(d).value;
    forall n | Reads(m, n) ensures SameFile(d, e, n) {
      if n in Unlisted(m.snapshots) {
        ScratchUnread(d, n);
        assert false;
      }
    }
    ViewFrame(d, e);
    LogsFrame(d, e, m);
    assert Reads(m, WAL_FILE) && Reads(m, MANIFEST_FILE);
  }

  /** The image that a directory recovers to once the checkpoint has switched the manifest. */
  lemma RecoveredMemOk(w: View, mem: Image, h: History, g: History)
    requires MemOk(mem, h.owners) && LogOk(w, g) && g.owners == h.owners
    requires Recovered(w).nextId == mem.nextId
    ensures MemOk(Recovered(w), g.owners)
  {
    var ops := w.arch + w.live;
    ReplayAgrees(ops, w.snap, g.owners);
    RecoveredCovered(ops, g.base, w.snap, g.owners);
  }

  /** The directories in which recovery reads `v`. */
  ghost function Reading(v: Result<View, OpenError>): iset<Directory> {
    iset e: Directory | Shaped(e) && ViewOf(e) == v
  }

  /** Recovery reads the same from each of these states. */
  ghost predicate AllRead(states: seq<Directory>, lo: nat, hi: nat, v: Result<View, OpenError>) {
    forall i :: lo <= i < hi && i < |states| ==> states[i] in Reading(v)
  }

  lemma AllReadLater(early: seq<Directory>, late: seq<Directory>, lo: nat, hi: nat, v: Result<View, OpenError>)
    requires hi <= |early| <= |late| && late[..|early|] == early && AllRead(early, lo, hi, v)
    ensures AllRead(late, lo, hi, v)
  {
    forall i | lo <= i < hi ensures late[i] in Reading(v) {
      assert late[i] == late[..|early|][i];
    }
  }

  lemma AllReadTwice(a: seq<Directory>, b: seq<Directory>, c: seq<Directory>, lo: nat, hi: nat,
                     v: Result<View, OpenError>)
    requires hi <= |a| <= |b| <= |c| && b[..|a|] == a && c[..|b|] == b && AllRead(a, lo, hi, v)
    ensures AllRead(c, lo, hi, v)
  {
    AllReadLater(a, b, lo, hi, v);
    AllReadLater(b, c, lo, hi, v);
  }

  lemma AllReadJoin(states: seq<Directory>, lo: nat, mid: nat, hi: nat, v: Result<View, OpenError>)
    requires AllRead(states, lo, mid, v) && AllRead(states, mid, hi, v)
    ensures AllRead(states, lo, hi, v)
  {
  }

  lemma OneRead(states: seq<Directory>, lo: nat, v: Result<View, OpenError>)
    requires lo < |states| && states[lo] in Reading(v)
    ensures AllRead(states, lo, lo + 1, v)
  {
    forall i | lo <= i < lo + 1 ensures states[i] in Reading(v) {
      assert i == lo;
    }
  }

  // ----- The whole sequence of states of a plain checkpoint -----

  /**
   * Recovery along a plain checkpoint that starts in `d` and snapshots `mem`: the old view up to the
   * switch, then the old log over the new snapshot, then exactly the new snapshot.
   */
  ghost predicate PlainTrace(states: seq<Directory>, from: nat, d: Directory, mem: Image, rows: seq<SnapshotRow>) {
    exists s :: from < s < |states| - 1 && PlainTraceAt(states, from, s, d, mem, rows)
  }

  ghost predicate PlainTraceAt(states: seq<Directory>, from: nat, s: nat, d: Directory, mem: Image,
                               rows: seq<SnapshotRow>)
    requires from < s < |states| - 1
  {
    && Shaped(d)
    && var k := SeqNoOf(ManifestOf(d).value) + 1;
    && AllRead(states, from, s, ViewOf(d))
    && AllRead(states, s, |states| - 1, Ok(View(PlainManifest(mem, k), Snapshot(rows, mem), [], OpsIn(d, WAL_FILE))))
    && AllRead(states, |states| - 1, |states|, Ok(View(PlainManifest(mem, k), Snapshot(rows, mem), [], [])))
  }

  /** What a crash leaves: a directory that opens to `mem`, hit counters never smaller, exact where `exact`. */
  ghost predicate OpensTo(e: Directory, mem: Image, exact: bool) {
    && Recover(e).Ok?
    && var img := Recover(e).value;
    && Grows(mem, img) && img.nextId == mem.nextId
    && (exact ==> img.docs == mem.docs && img.archive == mem.archive)
  }

  /**
   * The directory is linked to `shown`, and memory has moved on by operations that the log will not give
   * back, because they were appended behind a line that does not parse. With a clean log there are none.
   */
  ghost predicate Behind(d: Directory, shown: Image, h: History, ahead: seq<WalOp>) {
    Survives(d, shown, h) && AllowedAll(ahead, shown, h) && Unowned(ahead, h.owners)
  }

  function WindowHistory(v: View, h: History, ahead: seq<WalOp>): History {
    SwitchedHistory(v.live, ReplayAll(ahead, ReplayAll(v.arch, h.base)), |v.live|, ExtendAll(ahead, h))
  }

  function ArchivedHistory(v: View, h: History, ahead: seq<WalOp>): History {
    SwitchedHistory(v.arch + v.live, ReplayAll(ahead, h.base), 0, ExtendAll(ahead, h))
  }

  lemma {:induction false} KnownGrows(ops: seq<WalOp>, h: History)
    ensures var g := ExtendAll(ops, h); h.known + RememberedIds(ops) <= g.known && h.filed <= g.filed
  {
    if ops != [] {
      HeadFacts(ops, 0);
      KnownGrows(ops[1..], Extend(ops[0], h));
    }
  }

  lemma StoredLater(ops: seq<WalOp>, base: Image)
    ensures Stored(ReplayAll(ops, base)) <= Stored(base) + RememberedIds(ops)
  {
    forall x | x in Stored(ReplayAll(ops, base)) ensures x in Stored(base) + RememberedIds(ops) {
      ReplaySlot(ops, base, x);
      if x !in RememberedIds(ops) {
        AbsentStays(ops, x, SlotOf(base, x));
      }
    }
  }

  lemma RememberedMentioned(ops: seq<WalOp>)
    ensures RememberedIds(ops) <= IdsOf(ops)
  {
  }

  /** What memory has done since, on top of a base, is known. */
  lemma CoversLater(ops: seq<WalOp>, later: seq<WalOp>, base: Image, h: History)
    requires Covers(ops, base, h)
    ensures Covers(ops, ReplayAll(later, base), ExtendAll(later, h))
  {
    KnownGrows(later, h);
    StoredLater(later, base);
  }

  lemma CoversRebase(arch: seq<WalOp>, live: seq<WalOp>, base: Image, h: History)
    requires Covers(arch + live, base, h)
    ensures Covers(live, ReplayAll(arch, base), h)
  {
    StoredLater(arch, base);
    RememberedMentioned(arch);
    IdsOfConcat(arch, live);
    forall x | x in FiledIds(live) ensures x in FiledIds(arch + live) {
      var i :| 0 <= i < |live| && live[i].Remember? && live[i].row.archived && OpId(live[i]) == x;
      assert (arch + live)[|arch| + i] == live[i];
    }
  }

  /** Replay is deterministic: whatever is appended to a clean log, also under a reused id, opens to its effect. */
  lemma AppendedRecovers(d: Directory, mem: Image, op: WalOp, h: History)
    requires Durable(d, mem, h)
    ensures ManifestOf(Logged(d, op)) == ManifestOf(d)
    ensures OpensTo(Logged(d, op), Apply(op, mem), ManifestOf(d).value.walArchives == [])
  {
    var v := ViewOf(d).value;
    LoggedView(d, Entry(op));
    RefinesExtend(v, mem, op);
    ReplayOne(v.arch + v.live, op, v.snap);
    assert v.arch + (v.live + [op]) == (v.arch + v.live) + [op];
    assert Recovered(v).nextId == mem.nextId;
  }

  /**
   * A crash at any step of a plain checkpoint. Before the manifest switch, the directory opens to what it
   * showed; once the log is recreated, exactly to memory; and in between to memory, hit counters never
   * smaller, if and only if the old log undoes nothing of what the log does not hold. Then the next
   * session is durable in turn. With nothing behind a torn line this is always so.
   */
  lemma PlainCheckpointCrashSafe(states: seq<Directory>, from: nat, s: nat, d: Directory, shown: Image, h: History,
                                 ahead: seq<WalOp>, mem: Image, rows: seq<SnapshotRow>, i: nat)
    requires Behind(d, shown, h, ahead) && mem == ReplayAll(ahead, shown)
    requires SnapshotOf(rows, mem, ExtendAll(ahead, h).owners)
    requires from < s < |states| - 1 && PlainTraceAt(states, from, s, d, mem, rows)
    requires from <= i < |states|
    ensures i < s ==> OpensTo(states[i], shown, ManifestOf(d).value.walArchives == []) && OpensWith(states[i], h)
    ensures s <= i < |states| - 1 ==>
              && (OpensTo(states[i], mem, false) <==> NothingUndone(ViewOf(d).value.live, ahead, shown))
              && (OpensTo(states[i], mem, false) ==> OpensWith(states[i], WindowHistory(ViewOf(d).value, h, ahead)))
    ensures i == |states| - 1 ==>
              OpensTo(states[i], mem, true) && OpensWith(states[i], CheckpointedHistory(mem, ExtendAll(ahead, h)))
  {
    MemoryKept(shown, h, ahead);
    if i < s {
      BeforeSwitchSafe(states[i], d, shown, h);
    } else if i < |states| - 1 {
      AfterSwitchSafe(states[i], d, shown, h, ahead, mem, rows);
    } else {
      AfterTruncateSafe(states[i], d, mem, rows, ExtendAll(ahead, h));
    }
  }

  lemma MemoryKept(shown: Image, h: History, ahead: seq<WalOp>)
    requires MemOk(shown, h.owners) && Kept(shown, h) && AllowedAll(ahead, shown, h)
    ensures MemOk(ReplayAll(ahead, shown), ExtendAll(ahead, h).owners) &&
            Kept(ReplayAll(ahead, shown), ExtendAll(ahead, h))
  {
    CallKeepsMemOk(ahead, shown, h);
  }

  lemma PlainTraceSafe(states: seq<Directory>, from: nat, d: Directory, mem: Image, rows: seq<SnapshotRow>, h: History)
    requires Survives(d, mem, h) && SnapshotOf(rows, mem, h.owners)
    requires PlainTrace(states, from, d, mem, rows)
    ensures AllOpen(states, from, mem)
  {
    var s :| from < s < |states| - 1 && PlainTraceAt(states, from, s, d, mem, rows);
    NothingLater(ViewOf(d).value.live, mem);
    forall i | from <= i < |states| ensures OpensTo(states[i], mem, false) && OpensDurably(states[i]) {
      PlainCheckpointCrashSafe(states, from, s, d, mem, h, [], mem, rows, i);
    }
  }

  /** `open` gives the new session the image it read; that image is linked to the same directory. */
  lemma ReopenSurvives(e: Directory, mem: Image, h: History)
    requires Survives(e, mem, h)
    ensures Survives(e, Recover(e).value, h)
  {
    SurvivorRecovers(e, mem, h);
    ReopenLinked(ViewOf(e).value, mem, h);
  }

  /** The session that opens the directory starts linked to it, under the given history. */
  ghost predicate OpensWith(e: Directory, h: History) {
    Recover(e).Ok? && Survives(e, Recover(e).value, h)
  }

  ghost predicate OpensDurably(e: Directory) {
    exists h :: OpensWith(e, h)
  }

  lemma BeforeSwitchSafe(e: Directory, d: Directory, mem: Image, h: History)
    requires Survives(d, mem, h) && Shaped(e) && ViewOf(e) == ViewOf(d)
    ensures OpensTo(e, mem, ManifestOf(d).value.walArchives == []) && OpensWith(e, h)
  {
    ReopenSurvives(e, mem, h);
    SurvivorRecovers(d, mem, h);
    GrowsReflexive(mem);
    assert ViewOf(d).value.manifest == ManifestOf(d).value;
  }

  /** Replay does not look at the subject lists or the counter of a snapshot. */
  lemma ReplaySameMaps(ops: seq<WalOp>, a: Image, b: Image)
    requires a.docs == b.docs && a.archive == b.archive
    ensures ReplayAll(ops, a).docs == ReplayAll(ops, b).docs && ReplayAll(ops, a).archive == ReplayAll(ops, b).archive
  {
    forall x ensures SlotOf(ReplayAll(ops, a), x) == SlotOf(ReplayAll(ops, b), x) {
      ReplaySlot(ops, a, x);
      ReplaySlot(ops, b, x);
      assert SlotOf(a, x) == SlotOf(b, x);
    }
    SameSlotsSameMaps(ReplayAll(ops, a), ReplayAll(ops, b));
  }

  /** Logs replayed over a snapshot of memory give memory back exactly if they undo nothing. */
  lemma SnapshotThenLogs(ops: seq<WalOp>, ahead: seq<WalOp>, base: Image, shown: Image, h: History, mem: Image,
                         rows: seq<SnapshotRow>)
    requires Explains(ops, base, shown, h.owners) && MemOk(shown, h.owners)
    requires AllowedAll(ahead, shown, h) && Unowned(ahead, h.owners)
    requires mem == ReplayAll(ahead, shown) && SnapshotOf(rows, mem, ExtendAll(ahead, h).owners)
    ensures Grows(mem, ReplayAll(ops, Snapshot(rows, mem))) <==> NothingUndone(ops, ahead, shown)
    ensures NothingUndone(ops, ahead, shown) ==> Explains(ops, ReplayAll(ahead, base), mem, ExtendAll(ahead, h).owners)
  {
    var w := ReplayAll(ops, Snapshot(rows, mem));
    var v := ReplayAll(ops, mem);
    CatchUp(ops, ahead, base, shown, h);
    ReplaySameMaps(ops, Snapshot(rows, mem), mem);
    SameMapsSameSlots(v, w);
    forall x ensures SlotGrows(SlotOf(mem, x), SlotOf(v, x)) <==> SlotGrows(SlotOf(mem, x), SlotOf(w, x)) {
      assert SlotOf(v, x) == SlotOf(w, x);
    }
  }

  lemma AfterSwitchSafe(e: Directory, d: Directory, shown: Image, h: History, ahead: seq<WalOp>, mem: Image,
                        rows: seq<SnapshotRow>)
    requires Behind(d, shown, h, ahead) && mem == ReplayAll(ahead, shown)
    requires SnapshotOf(rows, mem, ExtendAll(ahead, h).owners) && Shaped(e)
    requires ViewOf(e) == Ok(SwitchedView(ViewOf(d).value, PlainManifest(mem, SeqNoOf(ManifestOf(d).value) + 1), rows,
                                          mem))
    ensures OpensTo(e, mem, false) <==> NothingUndone(ViewOf(d).value.live, ahead, shown)
    ensures OpensTo(e, mem, false) ==> OpensWith(e, WindowHistory(ViewOf(d).value, h, ahead))
  {
    var v := ViewOf(d).value;
    var g := ExtendAll(ahead, h);
    var base := ReplayAll(v.arch, h.base);
    Rebase(v.arch, v.live, h.base, shown, h.owners);
    SnapshotThenLogs(v.live, ahead, base, shown, h, mem, rows);
    assert [] + v.live == v.live;
    if NothingUndone(v.live, ahead, shown) {
      MemoryKept(shown, h, ahead);
      CoversRebase(v.arch, v.live, h.base, h);
      CoversLater(v.live, ahead, base, h);
      SwitchedSafe(e, v, PlainManifest(mem, SeqNoOf(ManifestOf(d).value) + 1), rows, ReplayAll(ahead, base), mem, g);
    }
  }

  lemma SwitchedSafe(e: Directory, v: View, m: Manifest, rows: seq<SnapshotRow>, base: Image, mem: Image, h: History)
    requires Explains(v.live, base, mem, h.owners) && MemOk(mem, h.owners) && Kept(mem, h)
    requires SnapshotOf(rows, mem, h.owners) && Shaped(e) && ViewOf(e) == Ok(SwitchedView(v, m, rows, mem))
    requires Covers(v.live, base, h)
    ensures OpensTo(e, mem, false) && OpensWith(e, SwitchedHistory(v.live, base, |v.live|, h))
  {
    var w := SwitchedView(v, m, rows, mem);
    var g := SwitchedHistory(v.live, base, |v.live|, h);
    SwitchedRecovers(v, m, rows, base, mem, h);
    RecoveredMemOk(w, mem, h, g);
    GrowsKeepsKept(mem, Recovered(w), h);
    OpensAs(e, w, g);
  }

  lemma OpensAs(e: Directory, w: View, g: History)
    requires Shaped(e) && ViewOf(e) == Ok(w)
    requires Linked(w, Recovered(w), g) && MemOk(Recovered(w), g.owners) && Kept(Recovered(w), g)
    ensures Recover(e) == Ok(Recovered(w)) && OpensWith(e, g)
  {
    assert Survives(e, Recover(e).value, g);
  }

  lemma AfterTruncateSafe(e: Directory, d: Directory, mem: Image, rows: seq<SnapshotRow>, h: History)
    requires MemOk(mem, h.owners) && Kept(mem, h) && SnapshotOf(rows, mem, h.owners) && Shaped(e) && Shaped(d)
    requires ViewOf(e) == Ok(View(PlainManifest(mem, SeqNoOf(ManifestOf(d).value) + 1), Snapshot(rows, mem), [], []))
    ensures OpensTo(e, mem, true)
    ensures Survives(e, mem, CheckpointedHistory(mem, h))
    ensures OpensWith(e, CheckpointedHistory(mem, h))
  {
    CheckpointExact(ViewOf(e).value, mem, h, rows);
    GrowsReflexive(mem);
    ReopenSurvives(e, mem, CheckpointedHistory(mem, h));
  }

  // ----- The whole sequence of states of a checkpoint that archives the log -----

  /**
   * Three phases: the old view; the window in which the log has been moved away but is not listed yet;
   * and the new snapshot with the old log listed among the archives.
   */
  ghost predicate KeepTrace(states: seq<Directory>, from: nat, d: Directory, mem: Image, rows: seq<SnapshotRow>,
                            archives: seq<string>) {
    exists s, t :: from < s < t < |states| && KeepTraceAt(states, from, s, t, d, mem, rows, archives)
  }

  ghost predicate KeepTraceAt(states: seq<Directory>, from: nat, s: nat, t: nat, d: Directory, mem: Image,
                              rows: seq<SnapshotRow>, archives: seq<string>)
    requires from < s < t < |states|
  {
    && Shaped(d) && ViewOf(d).Ok?
    && var v := ViewOf(d).value;
    && AllRead(states, from, s, Ok(v))
    && AllRead(states, s, t, Ok(v.(live := [])))
    && AllRead(states, t, |states|, Ok(ListedAs(d, mem, rows, archives)))
  }

  /** The state shows the last checkpoint; that is all `d` shows exactly when its live log has no visible effect. */
  ghost predicate InLostWindow(e: Directory, d: Directory, h: History) {
    && ViewOf(d).Ok? && ViewOf(e) == Ok(ViewOf(d).value.(live := [])) && h.settled <= |ViewOf(d).value.live|
    && var lost, full := Recovered(ViewOf(e).value), Recovered(ViewOf(d).value);
    lost.docs == full.docs && lost.archive == full.archive <==>
      NoVisibleEffect(ViewOf(d).value.live, h.settled, lost)
  }

  /**
   * A crash at any step of an archiving checkpoint. Before the log is renamed the directory opens to what
   * it showed; in the window it opens to the last checkpoint, with the exact condition for that being all;
   * from the manifest switch on it opens to memory, hit counters never smaller, if and only if the logs
   * now archived undo nothing of what the live log does not hold, and then it is linked to memory.
   */
  lemma KeepCheckpointCrash(states: seq<Directory>, from: nat, s: nat, t: nat, d: Directory, shown: Image, h: History,
                            ahead: seq<WalOp>, mem: Image, rows: seq<SnapshotRow>, archives: seq<string>, i: nat)
    requires Behind(d, shown, h, ahead) && mem == ReplayAll(ahead, shown)
    requires SnapshotOf(rows, mem, ExtendAll(ahead, h).owners) && archives != []
    requires from < s < t < |states| && KeepTraceAt(states, from, s, t, d, mem, rows, archives)
    requires from <= i < |states|
    ensures i < s ==> OpensTo(states[i], shown, ManifestOf(d).value.walArchives == []) && OpensWith(states[i], h)
    ensures s <= i < t ==> InLostWindow(states[i], d, h)
    ensures t <= i ==>
              && (OpensTo(states[i], mem, false) <==>
                  NothingUndone(ViewOf(d).value.arch + ViewOf(d).value.live, ahead, shown))
              && (OpensTo(states[i], mem, false) ==>
                  Survives(states[i], mem, ArchivedHistory(ViewOf(d).value, h, ahead)))
  {
    if i < s {
      BeforeSwitchSafe(states[i], d, shown, h);
    } else if i < t {
      LostWindow(ViewOf(d).value, h);
    } else {
      ListedOpens(states[i], d, shown, h, ahead, mem, rows, archives);
      if NothingUndone(ViewOf(d).value.arch + ViewOf(d).value.live, ahead, shown) {
        ListedSafe(states[i], d, shown, h, ahead, mem, rows, archives);
        SurvivorRecovers(states[i], mem, ArchivedHistory(ViewOf(d).value, h, ahead));
      }
    }
  }

  /** Every state from the manifest switch on. */
  lemma ListedOpens(e: Directory, d: Directory, shown: Image, h: History, ahead: seq<WalOp>, mem: Image,
                    rows: seq<SnapshotRow>, archives: seq<string>)
    requires Behind(d, shown, h, ahead) && mem == ReplayAll(ahead, shown)
    requires SnapshotOf(rows, mem, ExtendAll(ahead, h).owners) && archives != [] && Shaped(e)
    requires ViewOf(e) == Ok(ListedAs(d, mem, rows, archives))
    ensures OpensTo(e, mem, false) ==> NothingUndone(ViewOf(d).value.arch + ViewOf(d).value.live, ahead, shown)
  {
    var v := ViewOf(d).value;
    var ops := v.arch + v.live;
    assert ops + [] == ops;
    SnapshotThenLogs(ops, ahead, h.base, shown, h, mem, rows);
  }

  lemma ListedSafe(e: Directory, d: Directory, shown: Image, h: History, ahead: seq<WalOp>, mem: Image,
                   rows: seq<SnapshotRow>, archives: seq<string>)
    requires Behind(d, shown, h, ahead) && mem == ReplayAll(ahead, shown)
    requires SnapshotOf(rows, mem, ExtendAll(ahead, h).owners) && archives != [] && Shaped(e)
    requires ViewOf(e) == Ok(ListedAs(d, mem, rows, archives))
    requires NothingUndone(ViewOf(d).value.arch + ViewOf(d).value.live, ahead, shown)
    ensures Survives(e, mem, ArchivedHistory(ViewOf(d).value, h, ahead))
  {
    var v := ViewOf(d).value;
    var ops := v.arch + v.live;
    SnapshotThenLogs(ops, ahead, h.base, shown, h, mem, rows);
    MemoryKept(shown, h, ahead);
    CoversLater(ops, ahead, h.base, h);
    ArchivedRecovers(ops, ViewOf(e).value, ReplayAll(ahead, h.base), mem, ExtendAll(ahead, h), rows);
  }

  /** What an archiving checkpoint that started in `d` makes `open` read. */
  function ListedAs(d: Directory, mem: Image, rows: seq<SnapshotRow>, archives: seq<string>): View
    requires ManifestOf(d).Some? && ViewOf(d).Ok?
  {
    var v := ViewOf(d).value;
    View(KeepManifest(mem, SeqNoOf(ManifestOf(d).value) + 1, archives), Snapshot(rows, mem), v.arch + v.live, [])
  }

  // ----- Compaction: the snapshot lacks records that memory held when the log was written -----

  /** `after` is `before` without some records. */
  ghost predicate DropsFrom(before: Image, after: Image) {
    && (forall x :: x in after.docs ==> x in before.docs && after.docs[x] == before.docs[x])
    && (forall x :: x in after.archive ==> x in before.archive && after.archive[x] == before.archive[x])
    && after.nextId == before.nextId
  }

  /**
   * A crash after compaction's manifest switch but before its log is truncated: records the live log
   * creates are recovered as they last were, whether compaction kept or dropped them; of the others, the
   * kept ones are recovered and the dropped ones are gone.
   */
  lemma CompactWindow(v: View, m: Manifest, rows: seq<SnapshotRow>, base: Image, before: Image, after: Image,
                      owners: Owners, x: nat)
    requires Explains(v.live, base, before, owners) && MemOk(before, owners)
    requires DropsFrom(before, after) && SnapshotOf(rows, after, owners)
    ensures var img := Recovered(SwitchedView(v, m, rows, after));
            if x in RememberedIds(v.live) then SlotOf(img, x) == SlotOf(before, x)
            else if x in Stored(after) then SlotGrows(SlotOf(before, x), SlotOf(img, x)) &&
              SlotOf(before, x) == SlotOf(after, x)
            else SlotOf(img, x).Absent()
  {
    var snap := Snapshot(rows, after);
    var w := SwitchedView(v, m, rows, after);
    assert w.arch + w.live == v.live;
    ReplaySlot(v.live, snap, x);
    SameMapsSameSlots(after, snap);
    var s0, s1 := SlotOf(base, x), SlotOf(before, x);
    DisjointSlots(base, x);
    DisjointSlots(before, x);
    assert SlotGrows(SlotReplay(v.live, x, s0), s1);
    if x in RememberedIds(v.live) {
      assert LandsOn(v.live, x, s0) && StaysFiled(v.live, x);
      CreatedIdAbsorbed(v.live, x, s0);
      if x in Stored(after) {
        assert SlotOf(after, x) == s1;
      } else {
        assert SlotOf(after, x) == Slot(None, None);
      }
    } else if x in Stored(after) {
      assert SlotOf(after, x) == s1;
      OldIdAbsorbed(v.live, x, s0, s1);
    } else {
      AbsentStays(v.live, x, SlotOf(after, x));
    }
  }

  // ----- Phases of the trace, as the file actions produce them -----

  lemma BeforePhase(earlier: seq<Directory>, later: seq<Directory>, d: Directory)
    requires Shaped(d) && TouchedOnly(earlier, later, d, ScratchNames(SeqNoOf(ManifestOf(d).value)))
    ensures AllRead(later, |earlier|, |later|, ViewOf(d))
  {
    forall i | |earlier| <= i < |later| ensures later[i] in Reading(ViewOf(d)) {
      BeforeSwitch(d, later[i]);
    }
  }

  lemma CleanupPhase(earlier: seq<Directory>, later: seq<Directory>, d: Directory)
    requires Shaped(d) && TouchedOnly(earlier, later, d, Unlisted(ManifestOf(d).value.snapshots))
    ensures AllRead(later, |earlier|, |later|, ViewOf(d))
  {
    forall i | |earlier| <= i < |later| ensures later[i] in Reading(ViewOf(d)) {
      CleanupShaped(d, later[i]);
    }
  }

  lemma CleanupShaped(d: Directory, e: Directory)
    requires Shaped(d) && DiffersOnlyAt(d, e, Unlisted(ManifestOf(d).value.snapshots))
    ensures Shaped(e) && ViewOf(e) == ViewOf(d) && ManifestOf(e) == ManifestOf(d)
    ensures SameFile(d, e, WAL_FILE)
  {
    CleanupInvisible(d, e);
    var m := ManifestOf(d).value;
    forall n | n in m.snapshots ensures n in e && e[n].SegmentFile? {
      assert SameFile(d, e, n);
    }
  }

  /** The snapshot is in place and the next manifest half written: nothing visible has changed. */
  lemma SwitchPrepared(t0: seq<Directory>, t1: seq<Directory>, t2: seq<Directory>, d0: Directory, d1: Directory)
    requires Shaped(d0)
    requires TouchedOnly(t0, t1, d0, ScratchNames(SeqNoOf(ManifestOf(d0).value)))
    requires DiffersOnlyAt(d0, d1, ScratchNames(SeqNoOf(ManifestOf(d0).value)))
    requires |t2| == |t1| + 2 && t2[..|t1|] == t1 && DiffersOnlyAt(d1, t2[|t1|], iset{MANIFEST_FILE + TMP_SUFFIX})
    ensures AllRead(t2, |t0|, |t1| + 1, ViewOf(d0))
  {
    var scratch := ScratchNames(SeqNoOf(ManifestOf(d0).value));
    assert DiffersOnlyAt(d1, t2[|t1|], scratch);
    DiffersChain(d0, d1, t2[|t1|], scratch);
    BeforePhase(t0, t1, d0);
    BeforeSwitch(d0, t2[|t1|]);
    AllReadLater(t1, t2, |t0|, |t1|, ViewOf(d0));
  }

  /** The manifest rename is the switch. */
  lemma SwitchPhase(d0: Directory, d1: Directory, d2: Directory, mem: Image, rows: seq<SnapshotRow>)
    requires Shaped(d0) && mem.nextId >= 1
    requires var name := NewSegmentName(SeqNoOf(ManifestOf(d0).value) + 1);
             d1 == (d0 - {name + TMP_SUFFIX})[name := SegmentFile(rows)]
    requires var m := PlainManifest(mem, SeqNoOf(ManifestOf(d0).value) + 1);
             d2 == (d1 - {MANIFEST_FILE + TMP_SUFFIX})[MANIFEST_FILE := ManifestFile(m)]
    ensures DiffersOnlyAt(d0, d1, ScratchNames(SeqNoOf(ManifestOf(d0).value)))
    ensures Shaped(d2) && ManifestOf(d2) == Some(PlainManifest(mem, SeqNoOf(ManifestOf(d0).value) + 1))
    ensures ViewOf(d2) == Ok(View(PlainManifest(mem, SeqNoOf(ManifestOf(d0).value) + 1), Snapshot(rows, mem), [],
                                  OpsIn(d0, WAL_FILE)))
  {
    var k := SeqNoOf(ManifestOf(d0).value);
    var name := NewSegmentName(k + 1);
    NamesApart(k + 1, 0);
    assert SameFile(d0, d2, WAL_FILE);
    AfterSwitch(d2, mem, k + 1, [], rows);
  }

  lemma PlainTraceJoined(t0: seq<Directory>, t1: seq<Directory>, t2: seq<Directory>, t3: seq<Directory>,
                         t4: seq<Directory>, d0: Directory, d2: Directory, d4: Directory, mem: Image,
                         rows: seq<SnapshotRow>)
    requires Shaped(d0) && |t0| < |t1| && |t2| == |t1| + 2 && |t2| <= |t3| && t4 == t3 + [d4]
    requires t1[..|t0|] == t0 && t2[..|t1|] == t1 && t3[..|t2|] == t2 && t2[|t1| + 1] == d2
    requires AllRead(t2, |t0|, |t1| + 1, ViewOf(d0)) && AllRead(t3, |t2|, |t3|, ViewOf(d2))
    requires var m := PlainManifest(mem, SeqNoOf(ManifestOf(d0).value) + 1);
             && Shaped(d2) && ViewOf(d2) == Ok(View(m, Snapshot(rows, mem), [], OpsIn(d0, WAL_FILE)))
             && Shaped(d4) && ViewOf(d4) == Ok(View(m, Snapshot(rows, mem), [], []))
    ensures t4[..|t0|] == t0
    ensures |t0| < |t1| + 1 < |t4| - 1 && PlainTraceAt(t4, |t0|, |t1| + 1, d0, mem, rows)
    ensures PlainTrace(t4, |t0|, d0, mem, rows)
  {
    assert t4[..|t0|] == t3[..|t2|][..|t1|][..|t0|];
    var s := |t1| + 1;
    assert t4[..|t3|] == t3;
    AllReadLater(t2, t3, |t0|, s, ViewOf(d0));
    AllReadLater(t3, t4, |t0|, s, ViewOf(d0));
    OneRead(t2, s, ViewOf(d2));
    AllReadLater(t2, t3, s, |t2|, ViewOf(d2));
    AllReadJoin(t3, s, |t2|, |t3|, ViewOf(d2));
    AllReadLater(t3, t4, s, |t3|, ViewOf(d2));
    assert PlainTraceAt(t4, |t0|, s, d0, mem, rows);
  }

  /**
   * What a plain checkpoint of `mem` achieves: opening the directory afterwards gives memory back exactly,
   * whatever it held before; and if it was linked to memory before, a crash at any step loses nothing.
   */
  ghost predicate PlainDone(t0: seq<Directory>, t1: seq<Directory>, d0: Directory, d1: Directory, mem: Image,
                            h: History, rows: seq<SnapshotRow>) {
    Save(t0, t1, d0, d1, mem, h, rows) in PlainSaves()
  }

  /** Trace and directory before and after a checkpoint of `mem` that writes `rows`. */
  datatype Save = Save(t0: seq<Directory>, t1: seq<Directory>, d0: Directory, d1: Directory, mem: Image, h: History,
                       rows: seq<SnapshotRow>)

  ghost predicate SavesPlainly(s: Save) {
    && Durable(s.d1, s.mem, CheckpointedHistory(s.mem, s.h)) && OpensTo(s.d1, s.mem, true)
    && SnapshotOf(s.rows, s.mem, s.h.owners)
    && Extends(s.t0, s.t1, s.d1) && PlainTrace(s.t1, |s.t0|, s.d0, s.mem, s.rows)
    && (Survives(s.d0, s.mem, s.h) ==> AllOpen(s.t1, |s.t0|, s.mem))
  }

  /** The later trace extends the earlier one and ends in `d`. */
  predicate Extends(earlier: seq<Directory>, later: seq<Directory>, d: Directory) {
    |earlier| < |later| && later[..|earlier|] == earlier && later[|later| - 1] == d
  }

  ghost predicate AllOpen(states: seq<Directory>, from: nat, mem: Image) {
    forall i :: from <= i < |states| ==> OpensTo(states[i], mem, false) && OpensDurably(states[i])
  }

  ghost function PlainSaves(): iset<Save> {
    iset s: Save | SavesPlainly(s)
  }

  lemma SavedPlainly(s: Save)
    ensures s in PlainSaves() <==> SavesPlainly(s)
  {
  }

  lemma PlainAchieved(t0: seq<Directory>, t1: seq<Directory>, d0: Directory, d1: Directory, mem: Image,
                      h: History, rows: seq<SnapshotRow>)
    requires MemOk(mem, h.owners) && Kept(mem, h) && SnapshotOf(rows, mem, h.owners)
    requires |t0| < |t1| && t1[..|t0|] == t0 && t1[|t1| - 1] == d1 && PlainTrace(t1, |t0|, d0, mem, rows)
    requires Shaped(d0) && Shaped(d1) && WalClean(d1)
    requires ViewOf(d1) == Ok(View(PlainManifest(mem, SeqNoOf(ManifestOf(d0).value) + 1), Snapshot(rows, mem), [], []))
    ensures PlainDone(t0, t1, d0, d1, mem, h, rows)
  {
    AfterTruncateSafe(d1, d0, mem, rows, h);
    if Survives(d0, mem, h) {
      PlainTraceSafe(t1, |t0|, d0, mem, rows, h);
    }
    SavedPlainly(Save(t0, t1, d0, d1, mem, h, rows));
  }

  /** The file actions of `checkpoint`, in the order the source performs them. */
  method WritePlain(folder: Folder, mem: Image, seqNo: nat, stuck: set<string>, ghost h: History)
    returns (ghost rows: seq<SnapshotRow>)
    requires MemOk(mem, h.owners) && Kept(mem, h) && Shaped(folder.files)
    requires seqNo == SeqNoOf(ManifestOf(folder.files).value) + 1
    modifies folder
    ensures PlainDone(old(folder.trace), folder.trace, old(folder.files), folder.files, mem, h, rows)
    ensures Shaped(folder.files) && WAL_FILE in folder.files
    ensures ManifestOf(folder.files) == Some(PlainManifest(mem, seqNo)) && SeqNoOf(PlainManifest(mem, seqNo)) == seqNo
  {
    ghost var d0, t0 := folder.files, folder.trace;
    var name := NewSegmentName(seqNo);
    rows := WriteSnapshot(folder, name, mem.docs, mem.archive, mem, h.owners);
    ghost var d1, t1 := folder.files, folder.trace;
    WriteManifest(folder, PlainManifest(mem, seqNo));
    ghost var d2, t2 := folder.files, folder.trace;
    Cleanup(folder, [name], stuck);
    ghost var d3, t3 := folder.files, folder.trace;
    folder.Put(WAL_FILE, LogFile([]));
    PlainWritten(t0, t1, t2, t3, folder.trace, d0, d1, d2, d3, folder.files, mem, rows, h, seqNo, name);
  }

  /** The states the file actions left are those of a plain checkpoint. */
  lemma PlainWritten(t0: seq<Directory>, t1: seq<Directory>, t2: seq<Directory>, t3: seq<Directory>, t4: seq<Directory>,
                     d0: Directory, d1: Directory, d2: Directory, d3: Directory, d4: Directory, mem: Image,
                     rows: seq<SnapshotRow>, h: History, seqNo: nat, name: string)
    requires MemOk(mem, h.owners) && Kept(mem, h) && SnapshotOf(rows, mem, h.owners) && Shaped(d0)
    requires seqNo == SeqNoOf(ManifestOf(d0).value) + 1 && name == NewSegmentName(seqNo)
    requires d1 == (d0 - {name + TMP_SUFFIX})[name := SegmentFile(rows)] && |t0| < |t1|
    requires TouchedOnly(t0, t1, d0, iset{name, name + TMP_SUFFIX})
    requires d2 == (d1 - {MANIFEST_FILE + TMP_SUFFIX})[MANIFEST_FILE := ManifestFile(PlainManifest(mem, seqNo))]
    requires |t2| == |t1| + 2 && t2[..|t1|] == t1 && t2[|t1| + 1] == d2
    requires DiffersOnlyAt(d1, t2[|t1|], iset{MANIFEST_FILE + TMP_SUFFIX})
    requires TouchedOnly(t2, t3, d2, Unlisted([name])) && DiffersOnlyAt(d2, d3, Unlisted([name]))
    requires d4 == d3[WAL_FILE := LogFile([])] && t4 == t3 + [d4]
    ensures PlainDone(t0, t4, d0, d4, mem, h, rows)
    ensures Shaped(d4) && WAL_FILE in d4
    ensures ManifestOf(d4) == Some(PlainManifest(mem, seqNo)) && SeqNoOf(PlainManifest(mem, seqNo)) == seqNo
  {
    SwitchPhase(d0, d1, d2, mem, rows);
    TouchedWiden(t0, t1, d0, iset{name, name + TMP_SUFFIX}, ScratchNames(seqNo - 1));
    SwitchPrepared(t0, t1, t2, d0, d1);
    PlainFinished(t0, t1, t2, t3, d0, d2, d3, mem, rows, h);
  }

  /** From the manifest rename on: the cleanup is invisible, and the empty log completes the checkpoint. */
  lemma PlainFinished(t0: seq<Directory>, t1: seq<Directory>, t2: seq<Directory>, t3: seq<Directory>, d0: Directory,
                      d2: Directory, d3: Directory, mem: Image, rows: seq<SnapshotRow>, h: History)
    requires MemOk(mem, h.owners) && Kept(mem, h) && SnapshotOf(rows, mem, h.owners)
    requires Shaped(d0) && |t0| < |t1| && |t2| == |t1| + 2
    requires t1[..|t0|] == t0 && t2[..|t1|] == t1 && t2[|t1| + 1] == d2
    requires AllRead(t2, |t0|, |t1| + 1, ViewOf(d0))
    requires var m := PlainManifest(mem, SeqNoOf(ManifestOf(d0).value) + 1);
             && Shaped(d2) && ManifestOf(d2) == Some(m)
             && ViewOf(d2) == Ok(View(m, Snapshot(rows, mem), [], OpsIn(d0, WAL_FILE)))
    requires TouchedOnly(t2, t3, d2, Unlisted(ManifestOf(d2).value.snapshots))
    requires DiffersOnlyAt(d2, d3, Unlisted(ManifestOf(d2).value.snapshots))
    ensures var d4 := d3[WAL_FILE := LogFile([])];
            && PlainDone(t0, t3 + [d4], d0, d4, mem, h, rows)
            && Shaped(d4) && ManifestOf(d4) == ManifestOf(d2) &&
               SeqNoOf(ManifestOf(d2).value) == SeqNoOf(ManifestOf(d0).value) + 1
  {
    var d4 := d3[WAL_FILE := LogFile([])];
    CleanupPhase(t2, t3, d2);
    CleanupShaped(d2, d3);
    WalWriteView(d3, []);
    SeqNoOfNew(mem, SeqNoOf(ManifestOf(d0).value) + 1, []);
    PlainTraceJoined(t0, t1, t2, t3, t3 + [d4], d0, d2, d4, mem, rows);
    PlainAchieved(t0, t3 + [d4], d0, d4, mem, h, rows);
  }

  // ----- Archiving the log -----

  /** The log has been renamed to an archive that the manifest does not list yet. */
  function LogMoved(d: Directory, archive: string): Directory
    requires WAL_FILE in d
  {
    (d - {WAL_FILE})[archive := d[WAL_FILE]]
  }

  lemma NotArchivedBefore(k: nat, now: int)
    ensures !ArchivedBy(ArchiveName(k + 1, now), k)
  {
    var a := ArchiveName(k + 1, now);
    if ArchivedBy(a, k) {
      var j: nat, t: int :| j <= k && a == ArchiveName(j, t);
      ArchiveNamesDiffer(k + 1, now, j, t);
    }
  }

  lemma UnreadName(d: Directory, name: string, k: nat)
    requires Shaped(d) && k == SeqNoOf(ManifestOf(d).value) && Ends(name, 'w', 'd') && !ArchivedBy(name, k)
    ensures !Reads(ManifestOf(d).value, name)
  {
    NameShapes(k, 0, WAL_FILE);
  }

  lemma NextArchive(k: nat, now: int, name: string)
    requires name == ArchiveName(k + 1, now)
    ensures Ends(name, 'w', 'd') && !ArchivedBy(name, k)
  {
    NameShapes(k + 1, now, WAL_FILE);
    NotArchivedBefore(k, now);
  }

  lemma ArchiveNameFresh(d: Directory, now: int)
    requires Shaped(d)
    ensures var a := ArchiveName(SeqNoOf(ManifestOf(d).value) + 1, now);
            !Reads(ManifestOf(d).value, a) && Ends(a, 'w', 'd')
  {
    var k := SeqNoOf(ManifestOf(d).value);
    var name := ArchiveName(k + 1, now);
    NextArchive(k, now, name);
    UnreadName(d, name, k);
  }

  /** In the window recovery reads everything but the live log. */
  lemma WindowView(d: Directory, e: Directory, archive: string)
    requires Shaped(d) && ViewOf(d).Ok?
    requires !Reads(ManifestOf(d).value, archive) && WAL_FILE !in e
    requires DiffersOnlyAt(d, e, ScratchNames(SeqNoOf(ManifestOf(d).value)) + iset{archive, WAL_FILE})
    ensures Shaped(e) && ManifestOf(e) == ManifestOf(d) && ViewOf(e) == Ok(ViewOf(d).value.(live := []))
  {
    var m := ManifestOf(d).value;
    forall n | Reads(m, n) && n != WAL_FILE ensures SameFile(d, e, n) {
      if n in ScratchNames(SeqNoOf(m)) {
        ScratchUnread(d, n);
        assert false;
      }
    }
    assert Reads(m, MANIFEST_FILE) && SameFile(d, e, MANIFEST_FILE);
    assert ManifestOf(e) == ManifestOf(d);
    forall n | n in m.snapshots || n in m.walArchives ensures SameFile(d, e, n) {
      ListedNamesAreNotSpecial(d, n);
      assert Reads(m, n);
    }
    LoadSegmentsFrame(d, e, m.snapshots, EmptyImage(Max(m.nextId, 1)));
    ArchivedOpsFrame(d, e, m.walArchives);
    forall n | n in m.snapshots ensures n in e && e[n].SegmentFile? {
      assert SameFile(d, e, n);
    }
  }

  lemma ArchivesListed(was: Manifest, archive: string, k: nat, now: int)
    requires k >= 1 && archive == ArchiveName(k, now) && forall n :: n in was.walArchives ==> ArchivedBy(n, k - 1)
    ensures forall n :: n in was.walArchives + [archive] ==> ArchivedBy(n, k)
  {
    forall n | n in was.walArchives + [archive] ensures ArchivedBy(n, k) {
      if n in was.walArchives {
        var j: nat, t: int :| j <= k - 1 && n == ArchiveName(j, t);
        assert j <= k && n == ArchiveName(j, t);
      }
    }
  }

  /** From the manifest rename on, the moved log is read again, behind the new snapshot. */
  lemma ListedView(d: Directory, e: Directory, mem: Image, rows: seq<SnapshotRow>, archive: string, now: int)
    requires Shaped(d) && ViewOf(d).Ok? && mem.nextId >= 1
    requires WAL_FILE in d && archive == ArchiveName(SeqNoOf(ManifestOf(d).value) + 1, now)
    requires var k := SeqNoOf(ManifestOf(d).value) + 1;
             && SwitchedTo(e, mem, k, ManifestOf(d).value.walArchives + [archive], rows)
             && DiffersOnlyAt(d, e, ScratchNames(k - 1) + iset{archive, WAL_FILE, MANIFEST_FILE})
    requires archive in e && e[archive] == d[WAL_FILE] && WAL_FILE !in e
    ensures var k := SeqNoOf(ManifestOf(d).value) + 1;
            var m := KeepManifest(mem, k, ManifestOf(d).value.walArchives + [archive]);
            && Shaped(e) && ManifestOf(e) == Some(m) && SeqNoOf(m) == k
            && ViewOf(e) == Ok(ListedAs(d, mem, rows, ManifestOf(d).value.walArchives + [archive]))
  {
    var was := ManifestOf(d).value;
    var k := SeqNoOf(was) + 1;
    ArchivesRead(d, e, archive, now);
    ArchivesListed(was, archive, k, now);
    AfterSwitch(e, mem, k, was.walArchives + [archive], rows);
  }

  /** The old archives and the moved log read as the old archives and the live log did. */
  lemma ArchivesRead(d: Directory, e: Directory, archive: string, now: int)
    requires Shaped(d) && WAL_FILE in d && archive == ArchiveName(SeqNoOf(ManifestOf(d).value) + 1, now)
    requires DiffersOnlyAt(d, e, ScratchNames(SeqNoOf(ManifestOf(d).value)) + iset{archive, WAL_FILE, MANIFEST_FILE})
    requires archive in e && e[archive] == d[WAL_FILE]
    ensures ArchivedOps(e, ManifestOf(d).value.walArchives + [archive]) ==
            ArchivedOps(d, ManifestOf(d).value.walArchives) + OpsIn(d, WAL_FILE)
    ensures forall n :: n in ManifestOf(d).value.walArchives + [archive] ==> ReadableIn(e, n)
  {
    var was := ManifestOf(d).value;
    ArchiveNameFresh(d, now);
    forall n | n in was.walArchives ensures SameFile(d, e, n) {
      ListedNamesAreNotSpecial(d, n);
      if n in ScratchNames(SeqNoOf(was)) {
        ScratchUnread(d, n);
        assert false;
      }
    }
    ArchivedOpsFrame(d, e, was.walArchives);
    ArchivedOpsAppend(e, was.walArchives, archive);
    assert OpsIn(e, archive) == OpsIn(d, WAL_FILE);
  }

  /** Nothing in the list is lost when the log file is created empty again. */
  lemma NewLogView(d: Directory)
    requires Shaped(d) && ViewOf(d).Ok? && WAL_FILE !in d
    ensures var e := d[WAL_FILE := LogFile([])];
            Shaped(e) && WalClean(e) && ManifestOf(e) == ManifestOf(d) && ViewOf(e) == ViewOf(d)
  {
    WalWriteView(d, []);
  }

  /**
   * What archiving achieves: the directory stays linked to memory, and a crash anywhere outside the
   * window between the log's rename and the manifest's loses nothing but the exactness of hit counters.
   */
  ghost predicate KeepDone(t0: seq<Directory>, t1: seq<Directory>, d0: Directory, d1: Directory, mem: Image,
                           h: History, rows: seq<SnapshotRow>, archives: seq<string>) {
    Save(t0, t1, d0, d1, mem, h, rows) in KeepSaves(archives)
  }

  ghost predicate SavesKeeping(s: Save, archives: seq<string>) {
    && SnapshotOf(s.rows, s.mem, s.h.owners) && archives != []
    && Extends(s.t0, s.t1, s.d1) && WalClean(s.d1)
    && KeepTrace(s.t1, |s.t0|, s.d0, s.mem, s.rows, archives)
    && (Survives(s.d0, s.mem, s.h) ==>
          Survives(s.d1, s.mem, s.h.(settled := 0)) && OpenOrLost(s.t1, |s.t0|, s.d0, s.mem, s.h))
  }

  ghost function KeepSaves(archives: seq<string>): iset<Save> {
    iset s: Save | SavesKeeping(s, archives)
  }

  lemma SavedKeeping(s: Save, archives: seq<string>)
    ensures s in KeepSaves(archives) <==> SavesKeeping(s, archives)
  {
  }

  ghost predicate OpenOrLost(states: seq<Directory>, from: nat, d: Directory, mem: Image, h: History) {
    forall i :: from <= i < |states| ==> OpensTo(states[i], mem, false) || InLostWindow(states[i], d, h)
  }

  lemma NothingUnsaid(v: View, h: History)
    requires Noted(v.arch + v.live, h)
    ensures ArchivedHistory(v, h, []) == h.(settled := 0)
  {
    var ops := v.arch + v.live;
    forall x | x in Unsaid(ops, h.base) ensures x in h.lost {
    }
    assert h.lost + Unsaid(ops, h.base) == h.lost;
  }

  lemma KeepSafe(t1: seq<Directory>, from: nat, d0: Directory, d1: Directory, mem: Image, h: History,
                 rows: seq<SnapshotRow>, archives: seq<string>)
    requires Survives(d0, mem, h) && SnapshotOf(rows, mem, h.owners) && archives != []
    requires from < |t1| && t1[|t1| - 1] == d1 && KeepTrace(t1, from, d0, mem, rows, archives)
    ensures Survives(d1, mem, h.(settled := 0)) && OpenOrLost(t1, from, d0, mem, h)
  {
    var s, t :| from < s < t < |t1| && KeepTraceAt(t1, from, s, t, d0, mem, rows, archives);
    NothingLater(ViewOf(d0).value.arch + ViewOf(d0).value.live, mem);
    NothingUnsaid(ViewOf(d0).value, h);
    KeepCheckpointCrash(t1, from, s, t, d0, mem, h, [], mem, rows, archives, |t1| - 1);
    forall i | from <= i < |t1| ensures OpensTo(t1[i], mem, false) || InLostWindow(t1[i], d0, h) {
      KeepCheckpointCrash(t1, from, s, t, d0, mem, h, [], mem, rows, archives, i);
    }
  }

  lemma KeepAchieved(t0: seq<Directory>, t1: seq<Directory>, d0: Directory, d1: Directory, mem: Image,
                     h: History, rows: seq<SnapshotRow>, archives: seq<string>)
    requires SnapshotOf(rows, mem, h.owners) && archives != []
    requires |t0| < |t1| && t1[..|t0|] == t0 && KeepTrace(t1, |t0|, d0, mem, rows, archives)
    requires t1[|t1| - 1] == d1 && WalClean(d1)
    ensures KeepDone(t0, t1, d0, d1, mem, h, rows, archives)
  {
    if Survives(d0, mem, h) {
      KeepSafe(t1, |t0|, d0, d1, mem, h, rows, archives);
    }
    SavedKeeping(Save(t0, t1, d0, d1, mem, h, rows), archives);
  }

  lemma WindowPhase(d0: Directory, d1: Directory, d2: Directory, e: Directory, archive: string, now: int)
    requires Shaped(d0) && WAL_FILE in d1 && archive == ArchiveName(SeqNoOf(ManifestOf(d0).value) + 1, now)
    requires DiffersOnlyAt(d0, d1, ScratchNames(SeqNoOf(ManifestOf(d0).value)))
    requires d2 == LogMoved(d1, archive) && DiffersOnlyAt(d2, e, iset{MANIFEST_FILE + TMP_SUFFIX})
    ensures ViewOf(d0).Ok?
    ensures Shaped(d2) && ViewOf(d2) == Ok(ViewOf(d0).value.(live := []))
    ensures Shaped(e) && ViewOf(e) == Ok(ViewOf(d0).value.(live := []))
    ensures SameFile(d0, d1, WAL_FILE)
  {
    var k := SeqNoOf(ManifestOf(d0).value);
    var names := ScratchNames(k) + iset{archive, WAL_FILE};
    ArchiveNameFresh(d0, now);
    ShapedOpens(d0);
    BeforeSwitch(d0, d1);
    assert DiffersOnlyAt(d0, d1, names);
    assert DiffersOnlyAt(d1, d2, names);
    DiffersChain(d0, d1, d2, names);
    assert DiffersOnlyAt(d2, e, names);
    DiffersChain(d0, d2, e, names);
    assert SameFile(d2, e, WAL_FILE);
    WindowView(d0, d2, archive);
    WindowView(d0, e, archive);
  }

  lemma ListedPhase(d0: Directory, d1: Directory, d2: Directory, d3: Directory, mem: Image, rows: seq<SnapshotRow>,
                    archive: string, now: int)
    requires Shaped(d0) && mem.nextId >= 1 && WAL_FILE in d0
    requires archive == ArchiveName(SeqNoOf(ManifestOf(d0).value) + 1, now)
    requires var name := NewSegmentName(SeqNoOf(ManifestOf(d0).value) + 1);
             d1 == (d0 - {name + TMP_SUFFIX})[name := SegmentFile(rows)] && WAL_FILE in d1
    requires d2 == LogMoved(d1, archive)
    requires var m := KeepManifest(mem, SeqNoOf(ManifestOf(d0).value) + 1,
                                   ManifestOf(d0).value.walArchives + [archive]);
             d3 == (d2 - {MANIFEST_FILE + TMP_SUFFIX})[MANIFEST_FILE := ManifestFile(m)]
    ensures var k := SeqNoOf(ManifestOf(d0).value) + 1;
            var m := KeepManifest(mem, k, ManifestOf(d0).value.walArchives + [archive]);
            && ViewOf(d0).Ok? && Shaped(d3) && ManifestOf(d3) == Some(m) && SeqNoOf(m) == k && WAL_FILE !in d3
            && ViewOf(d3) == Ok(ListedAs(d0, mem, rows, ManifestOf(d0).value.walArchives + [archive]))
  {
    ShapedOpens(d0);
    ListedDiffers(d0, d1, d2, d3, mem, rows, archive, now);
    ListedView(d0, d3, mem, rows, archive, now);
  }

  /** What the rename of the log and of the manifest change. */
  lemma ListedDiffers(d0: Directory, d1: Directory, d2: Directory, d3: Directory, mem: Image, rows: seq<SnapshotRow>,
                      archive: string, now: int)
    requires Shaped(d0) && WAL_FILE in d0 && archive == ArchiveName(SeqNoOf(ManifestOf(d0).value) + 1, now)
    requires var name := NewSegmentName(SeqNoOf(ManifestOf(d0).value) + 1);
             d1 == (d0 - {name + TMP_SUFFIX})[name := SegmentFile(rows)] && WAL_FILE in d1
    requires d2 == LogMoved(d1, archive)
    requires var m := KeepManifest(mem, SeqNoOf(ManifestOf(d0).value) + 1,
                                   ManifestOf(d0).value.walArchives + [archive]);
             d3 == (d2 - {MANIFEST_FILE + TMP_SUFFIX})[MANIFEST_FILE := ManifestFile(m)]
    ensures var k := SeqNoOf(ManifestOf(d0).value) + 1;
            && SwitchedTo(d3, mem, k, ManifestOf(d0).value.walArchives + [archive], rows)
            && DiffersOnlyAt(d0, d3, ScratchNames(k - 1) + iset{archive, WAL_FILE, MANIFEST_FILE})
    ensures archive in d3 && d3[archive] == d0[WAL_FILE] && WAL_FILE !in d3
  {
    NamesApart(SeqNoOf(ManifestOf(d0).value) + 1, now);
    assert d1[WAL_FILE] == d0[WAL_FILE];
  }

  lemma KeepTraceJoined(t0: seq<Directory>, t1: seq<Directory>, t3: seq<Directory>, t4: seq<Directory>,
                        t5: seq<Directory>, d0: Directory, d3: Directory, d5: Directory,
                        mem: Image, rows: seq<SnapshotRow>, archives: seq<string>)
    requires Shaped(d0) && ViewOf(d0).Ok? && |t0| < |t1| && |t3| == |t1| + 3 && |t3| <= |t4| && t5 == t4 + [d5]
    requires t1[..|t0|] == t0 && t3[..|t1|] == t1 && t4[..|t3|] == t3 && t3[|t1| + 2] == d3
    requires AllRead(t1, |t0|, |t1|, ViewOf(d0))
    requires AllRead(t3, |t1|, |t1| + 2, Ok(ViewOf(d0).value.(live := [])))
    requires AllRead(t4, |t3|, |t4|, ViewOf(d3))
    requires var m := KeepManifest(mem, SeqNoOf(ManifestOf(d0).value) + 1, archives);
             && Shaped(d3) && ViewOf(d3) == Ok(ListedAs(d0, mem, rows, archives))
             && Shaped(d5) && ViewOf(d5) == ViewOf(d3)
    ensures t5[..|t0|] == t0 && KeepTrace(t5, |t0|, d0, mem, rows, archives)
  {
    var s, t := |t1|, |t1| + 2;
    var lost := Ok(ViewOf(d0).value.(live := []));
    assert t5[..|t0|] == t4[..|t3|][..|t1|][..|t0|];
    assert t5[..|t4|] == t4;
    AllReadLater(t1, t3, |t0|, s, ViewOf(d0));
    OneRead(t3, t, ViewOf(d3));
    AllReadTwice(t3, t4, t5, |t0|, s, ViewOf(d0));
    AllReadTwice(t3, t4, t5, s, t, lost);
    AllReadTwice(t3, t4, t5, t, |t3|, ViewOf(d3));
    AllReadTail(t4, t5, t, |t3|, d5, ViewOf(d3));
    assert KeepTraceAt(t5, |t0|, s, t, d0, mem, rows, archives);
  }

  lemma AllReadTail(a: seq<Directory>, b: seq<Directory>, lo: nat, mid: nat, d: Directory, v: Result<View, OpenError>)
    requires b == a + [d] && mid <= |a| && AllRead(b, lo, mid, v) && AllRead(a, mid, |a|, v)
    requires d in Reading(v)
    ensures AllRead(b, lo, |b|, v)
  {
    forall i | lo <= i < |b| ensures b[i] in Reading(v) {
      if mid <= i < |a| {
        assert b[i] == a[i];
      }
    }
  }

  /** The file actions of `checkpoint_keep_wal`, in the order the source performs them. */
  method WriteKeeping(folder: Folder, mem: Image, seqNo: nat, now: int, stuck: set<string>, ghost h: History)
    returns (ghost rows: seq<SnapshotRow>, archives: seq<string>)
    requires MemOk(mem, h.owners) && Kept(mem, h) && Shaped(folder.files) && WAL_FILE in folder.files
    requires seqNo == SeqNoOf(ManifestOf(folder.files).value) + 1
    modifies folder
    ensures archives == ManifestOf(old(folder.files)).value.walArchives + [ArchiveName(seqNo, now)]
    ensures KeepDone(old(folder.trace), folder.trace, old(folder.files), folder.files, mem, h, rows, archives)
    ensures Shaped(folder.files) && WAL_FILE in folder.files
    ensures ManifestOf(folder.files) == Some(KeepManifest(mem, seqNo, archives))
    ensures SeqNoOf(KeepManifest(mem, seqNo, archives)) == seqNo
  {
    ghost var d0, t0, t1 := folder.files, folder.trace, [];
    rows, archives, t1 := ListArchive(folder, mem, seqNo, now, h);
    FinishKeeping(folder, NewSegmentName(seqNo), stuck, t0, t1, d0, mem, rows, archives, h);
  }

  /** The part of `checkpoint_keep_wal` up to its manifest switch. */
  method ListArchive(folder: Folder, mem: Image, seqNo: nat, now: int, ghost h: History)
    returns (ghost rows: seq<SnapshotRow>, archives: seq<string>, ghost t1: seq<Directory>)
    requires MemOk(mem, h.owners) && Kept(mem, h) && Shaped(folder.files) && WAL_FILE in folder.files
    requires seqNo == SeqNoOf(ManifestOf(folder.files).value) + 1
    modifies folder
    ensures SnapshotOf(rows, mem, h.owners) && ViewOf(old(folder.files)).Ok?
    ensures archives == ManifestOf(old(folder.files)).value.walArchives + [ArchiveName(seqNo, now)]
    ensures |old(folder.trace)| < |t1| && t1[..|old(folder.trace)|] == old(folder.trace)
    ensures JustListed(folder.trace, folder.files, old(folder.trace), t1, old(folder.files), mem, rows, archives,
                       NewSegmentName(seqNo))
    ensures SeqNoOf(KeepManifest(mem, seqNo, archives)) == seqNo
  {
    ghost var d0, t0 := folder.files, folder.trace;
    rows := WriteSnapshot(folder, NewSegmentName(seqNo), mem.docs, mem.archive, mem, h.owners);
    ghost var d1 := folder.files;
    t1 := folder.trace;
    SnapshotWritten(d0, d1, seqNo - 1, rows, now);
    archives := ManifestOf(folder.files).value.walArchives;
    var archive := ArchiveName(seqNo, now);
    archives := archives + [archive];
    ArchiveLog(folder, archive, KeepManifest(mem, seqNo, archives));
    NowListed(t0, t1, folder.trace, d0, d1, folder.files, mem, rows, archive, now);
  }

  /** The part of `checkpoint_keep_wal` after its manifest switch. */
  method FinishKeeping(folder: Folder, name: string, stuck: set<string>, ghost t0: seq<Directory>,
                       ghost t1: seq<Directory>, ghost d0: Directory, ghost mem: Image, ghost rows: seq<SnapshotRow>,
                       ghost archives: seq<string>, ghost h: History)
    requires MemOk(mem, h.owners) && Kept(mem, h) && SnapshotOf(rows, mem, h.owners) && archives != []
    requires Shaped(d0) && ViewOf(d0).Ok? && |t0| < |t1| && t1[..|t0|] == t0
    requires JustListed(folder.trace, folder.files, t0, t1, d0, mem, rows, archives, name)
    modifies folder
    ensures KeepDone(t0, folder.trace, d0, folder.files, mem, h, rows, archives)
    ensures Shaped(folder.files) && WAL_FILE in folder.files
    ensures ManifestOf(folder.files) == ManifestOf(old(folder.files))
  {
    ghost var d3, t3 := folder.files, folder.trace;
    Cleanup(folder, [name], stuck);
    ghost var d4, t4 := folder.files, folder.trace;
    folder.Put(WAL_FILE, LogFile([]));
    KeepFinished(t0, t1, t3, t4, d0, d3, d4, mem, rows, archives, h);
  }

  /** The directory and its trace right after the archiving checkpoint has switched the manifest. */
  ghost predicate JustListed(t3: seq<Directory>, d3: Directory, t0: seq<Directory>, t1: seq<Directory>, d0: Directory,
                          mem: Image, rows: seq<SnapshotRow>, archives: seq<string>, name: string)
    requires Shaped(d0) && ViewOf(d0).Ok?
  {
    var m := KeepManifest(mem, SeqNoOf(ManifestOf(d0).value) + 1, archives);
    && |t3| == |t1| + 3 && t3[..|t1|] == t1 && t3[|t1| + 2] == d3
    && AllRead(t1, |t0|, |t1|, ViewOf(d0))
    && AllRead(t3, |t1|, |t1| + 2, Ok(ViewOf(d0).value.(live := [])))
    && Shaped(d3) && ManifestOf(d3) == Some(m) && m.snapshots == [name] && WAL_FILE !in d3
    && ViewOf(d3) == Ok(ListedAs(d0, mem, rows, archives))
  }

  /** Renames the live log away and only then switches the manifest: the window is in between. */
  method ArchiveLog(folder: Folder, archive: string, m: Manifest)
    requires WAL_FILE in folder.files && archive != WAL_FILE
    modifies folder
    ensures var moved := LogMoved(old(folder.files), archive);
            var t := old(folder.trace);
            && folder.files == (moved - {MANIFEST_FILE + TMP_SUFFIX})[MANIFEST_FILE := ManifestFile(m)]
            && |folder.trace| == |t| + 3 && folder.trace[..|t| + 1] == t + [moved]
            && DiffersOnlyAt(moved, folder.trace[|t| + 1], iset{MANIFEST_FILE + TMP_SUFFIX})
            && folder.trace[|t| + 2] == folder.files
  {
    folder.Rename(WAL_FILE, archive);
    WriteManifest(folder, m);
  }

  /** Up to the manifest rename: the old view, then the window. */
  lemma NowListed(t0: seq<Directory>, t1: seq<Directory>, t3: seq<Directory>, d0: Directory, d1: Directory,
                  d3: Directory, mem: Image, rows: seq<SnapshotRow>, archive: string, now: int)
    requires Shaped(d0) && WAL_FILE in d0 && WAL_FILE in d1 && mem.nextId >= 1
    requires archive == ArchiveName(SeqNoOf(ManifestOf(d0).value) + 1, now)
    requires DiffersOnlyAt(d0, d1, ScratchNames(SeqNoOf(ManifestOf(d0).value)))
    requires var name := NewSegmentName(SeqNoOf(ManifestOf(d0).value) + 1);
             && d1 == (d0 - {name + TMP_SUFFIX})[name := SegmentFile(rows)]
             && TouchedOnly(t0, t1, d0, iset{name, name + TMP_SUFFIX})
    requires var m := KeepManifest(mem, SeqNoOf(ManifestOf(d0).value) + 1,
                                   ManifestOf(d0).value.walArchives + [archive]);
             d3 == (LogMoved(d1, archive) - {MANIFEST_FILE + TMP_SUFFIX})[MANIFEST_FILE := ManifestFile(m)]
    requires |t3| == |t1| + 3 && t3[..|t1| + 1] == t1 + [LogMoved(d1, archive)] && t3[|t1| + 2] == d3
    requires DiffersOnlyAt(LogMoved(d1, archive), t3[|t1| + 1], iset{MANIFEST_FILE + TMP_SUFFIX})
    ensures ViewOf(d0).Ok?
    ensures JustListed(t3, d3, t0, t1, d0, mem, rows, ManifestOf(d0).value.walArchives + [archive],
                       NewSegmentName(SeqNoOf(ManifestOf(d0).value) + 1))
    ensures SeqNoOf(ManifestOf(d3).value) == SeqNoOf(ManifestOf(d0).value) + 1
  {
    var name := NewSegmentName(SeqNoOf(ManifestOf(d0).value) + 1);
    TouchedWiden(t0, t1, d0, iset{name, name + TMP_SUFFIX}, ScratchNames(SeqNoOf(ManifestOf(d0).value)));
    KeepPrepared(t0, t1, t3, d0, d1, archive, now);
    ListedPhase(d0, d1, LogMoved(d1, archive), d3, mem, rows, archive, now);
  }

  lemma KeepPrepared(t0: seq<Directory>, t1: seq<Directory>, t3: seq<Directory>, d0: Directory, d1: Directory,
                     archive: string, now: int)
    requires Shaped(d0) && WAL_FILE in d1
    requires archive == ArchiveName(SeqNoOf(ManifestOf(d0).value) + 1, now)
    requires TouchedOnly(t0, t1, d0, ScratchNames(SeqNoOf(ManifestOf(d0).value)))
    requires DiffersOnlyAt(d0, d1, ScratchNames(SeqNoOf(ManifestOf(d0).value)))
    requires |t3| == |t1| + 3 && t3[..|t1| + 1] == t1 + [LogMoved(d1, archive)]
    requires DiffersOnlyAt(LogMoved(d1, archive), t3[|t1| + 1], iset{MANIFEST_FILE + TMP_SUFFIX})
    ensures ViewOf(d0).Ok? && t3[..|t1|] == t1
    ensures AllRead(t1, |t0|, |t1|, ViewOf(d0))
    ensures AllRead(t3, |t1|, |t1| + 2, Ok(ViewOf(d0).value.(live := [])))
  {
    BeforePhase(t0, t1, d0);
    assert t3[..|t1|] == t3[..|t1| + 1][..|t1|] == t1;
    assert t3[|t1|] == t3[..|t1| + 1][|t1|] == LogMoved(d1, archive);
    WindowPhase(d0, d1, LogMoved(d1, archive), t3[|t1| + 1], archive, now);
    TwoRead(t3, |t1|, Ok(ViewOf(d0).value.(live := [])));
  }

  lemma TwoRead(states: seq<Directory>, lo: nat, v: Result<View, OpenError>)
    requires lo + 1 < |states| && states[lo] in Reading(v) && states[lo + 1] in Reading(v)
    ensures AllRead(states, lo, lo + 2, v)
  {
    OneRead(states, lo, v);
    OneRead(states, lo + 1, v);
    AllReadJoin(states, lo, lo + 1, lo + 2, v);
  }

  /** From the manifest rename on: the new view, through the cleanup and the new log. */
  lemma KeepFinished(t0: seq<Directory>, t1: seq<Directory>, t3: seq<Directory>, t4: seq<Directory>, d0: Directory,
                     d3: Directory, d4: Directory, mem: Image, rows: seq<SnapshotRow>, archives: seq<string>,
                     h: History)
    requires MemOk(mem, h.owners) && Kept(mem, h) && SnapshotOf(rows, mem, h.owners) && archives != []
    requires Shaped(d0) && ViewOf(d0).Ok? && |t0| < |t1| && |t3| == |t1| + 3
    requires t1[..|t0|] == t0 && t3[..|t1|] == t1 && t3[|t1| + 2] == d3
    requires AllRead(t1, |t0|, |t1|, ViewOf(d0))
    requires AllRead(t3, |t1|, |t1| + 2, Ok(ViewOf(d0).value.(live := [])))
    requires var m := KeepManifest(mem, SeqNoOf(ManifestOf(d0).value) + 1, archives);
             && Shaped(d3) && ManifestOf(d3) == Some(m) && WAL_FILE !in d3
             && ViewOf(d3) == Ok(ListedAs(d0, mem, rows, archives))
    requires TouchedOnly(t3, t4, d3, Unlisted(ManifestOf(d3).value.snapshots))
    requires DiffersOnlyAt(d3, d4, Unlisted(ManifestOf(d3).value.snapshots))
    ensures var d5 := d4[WAL_FILE := LogFile([])];
            && KeepDone(t0, t4 + [d5], d0, d5, mem, h, rows, archives)
            && Shaped(d5) && ManifestOf(d5) == ManifestOf(d3)
  {
    var d5 := d4[WAL_FILE := LogFile([])];
    CleanupPhase(t3, t4, d3);
    CleanupShaped(d3, d4);
    NewLogView(d4);
    KeepTraceJoined(t0, t1, t3, t4, t4 + [d5], d0, d3, d5, mem, rows, archives);
    KeepAchieved(t0, t4 + [d5], d0, d5, mem, h, rows, archives);
  }

  lemma SnapshotWritten(d0: Directory, d1: Directory, seqNo: nat, rows: seq<SnapshotRow>, now: int)
    requires Shaped(d0) && seqNo == SeqNoOf(ManifestOf(d0).value) && WAL_FILE in d0
    requires var name := NewSegmentName(seqNo + 1); d1 == (d0 - {name + TMP_SUFFIX})[name := SegmentFile(rows)]
    ensures DiffersOnlyAt(d0, d1, ScratchNames(seqNo))
    ensures ManifestOf(d1) == ManifestOf(d0) && WAL_FILE in d1
    ensures ArchiveName(seqNo + 1, now) != WAL_FILE
  {
    BeforeSwitch(d0, d1);
    NameShapes(seqNo + 1, now, WAL_FILE);
    ScratchManifest(d0, d1, seqNo);
  }

  lemma ScratchManifest(d0: Directory, d1: Directory, seqNo: nat)
    requires DiffersOnlyAt(d0, d1, ScratchNames(seqNo))
    ensures ManifestOf(d1) == ManifestOf(d0)
  {
    NameShapes(seqNo + 1, 0, NewSegmentName(seqNo + 1));
    if MANIFEST_FILE in ScratchNames(seqNo) {
      ScratchShapes(seqNo, MANIFEST_FILE);
      assert false;
    }
    assert SameFile(d0, d1, MANIFEST_FILE);
  }
}
