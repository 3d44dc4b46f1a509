/** Concrete inputs that show which guarantees the code does not give, and why the theorems carry their conditions. */
module Limits {
  import opened Wrappers
  import opened Records
  import opened Replay
  import opened Absorb
  import opened FileNames
  import opened Utf8
  import opened Disk
  import opened Invariants
  import opened Durability
  import opened Operations
  import opened Checkpoints

  function PlainRecord(id: nat): Record {
    Record(id, "note", None, [], 0, 0, None, 0.0, 0, None, [])
  }

  function PlainRow(id: nat, archived: bool): SnapshotRow {
    SnapshotRow(PlainRecord(id), Encoding([], [], [], 0), archived)
  }

  lemma ReplayOneOp(op: WalOp, img: Image)
    ensures ReplayAll([op], img) == Apply(op, img)
  {
    assert [op][1..] == [];
  }

  lemma ReplayThree(a: WalOp, b: WalOp, c: WalOp, img: Image)
    ensures ReplayAll([a, b, c], img) == Apply(c, Apply(b, Apply(a, img)))
  {
    assert [a, b, c][1..] == [b, c] && [b, c][1..] == [c];
    ReplayOneOp(c, Apply(b, Apply(a, img)));
    assert ReplayAll([b, c], Apply(a, img)) == ReplayAll([c], Apply(b, Apply(a, img)));
  }

  /** Touches are not idempotent: replaying one twice counts its hit twice. */
  lemma TouchCountsTwice()
    ensures var base := RouteRow(PlainRow(1, false), EmptyImage(1));
            var once := ReplayAll([Touch(1, 7)], base);
            var twice := ReplayAll([Touch(1, 7)], once);
            1 in once.docs && 1 in twice.docs && twice.docs[1].record.hits == once.docs[1].record.hits + 1
  {
    var base := RouteRow(PlainRow(1, false), EmptyImage(1));
    ReplayOneOp(Touch(1, 7), base);
    ReplayOneOp(Touch(1, 7), Apply(Touch(1, 7), base));
  }

  /**
   * Importing an archived row, hard-deleting it and importing the id again as a row of `docs` breaks replaying
   * twice: the id ends up in both maps, because a deletion removes only the copy in `docs`.
   */
  lemma ReusedIdSplits()
    ensures var log := [Remember(PlainRow(1, true)), HardDelete(1), Remember(PlainRow(1, false))];
            var once := ReplayAll(log, EmptyImage(1));
            && Disjoint(once)
            && !Disjoint(ReplayAll(log, once))
            && SplitsApart(log, 1, SlotOf(once, 1))
  {
    var a, b, c := Remember(PlainRow(1, true)), HardDelete(1), Remember(PlainRow(1, false));
    var log := [a, b, c];
    ReplayThree(a, b, c, EmptyImage(1));
    var once := ReplayAll(log, EmptyImage(1));
    assert 1 in once.docs && once.archive == map[];
    ReplayThree(a, b, c, once);
    var twice := ReplayAll(log, once);
    assert 1 in twice.docs.Keys && 1 in twice.archive.Keys;
    assert log[1..] == [b, c];
    FilesHead([b, c], 1);
    assert [b, c][1..] == [c];
    FilesHead([c], 1);
    assert !FilesAny([], 1);
  }

  /** The same with a row of `docs` first: the second replay gives the first one back. */
  lemma ReusedIdKeeps()
    ensures var log := [Remember(PlainRow(1, false)), HardDelete(1), Remember(PlainRow(1, false))];
            var once := ReplayAll(log, EmptyImage(1));
            1 in once.docs && ReplayAll(log, once).docs == once.docs && ReplayAll(log, once).archive == once.archive
  {
    var a, b := Remember(PlainRow(1, false)), HardDelete(1);
    ReplayThree(a, b, a, EmptyImage(1));
    ReplayThree(a, b, a, ReplayAll([a, b, a], EmptyImage(1)));
  }

  /** A record of the subject "b". */
  function OtherRow(id: nat): SnapshotRow {
    SnapshotRow(PlainRecord(id).(subject := Some("b")), Encoding([], [], [], 0), false)
  }

  /**
   * A compaction that drops a record leaves its id in the list of its subject. If the id is then imported for
   * another subject, forgetting the old subject ends the new record.
   */
  lemma ForeignEntryEnds()
    ensures var mem := Apply(Remember(OtherRow(1)), Image(map[], map[], map["a" := [1]], 2));
            && LiveVersion(mem, 1, "b") && !LiveVersion(mem, 1, "a")
            && ForgetOps(mem, SubjectIds(mem, "a"), 9) == [Forget(1, 9)]
            && !LiveVersion(Apply(Forget(1, 9), mem), 1, "b")
  {
    var mem := Apply(Remember(OtherRow(1)), Image(map[], map[], map["a" := [1]], 2));
    assert SubjectIds(mem, "a") == [1];
    assert [1][1..] == [];
    assert LiveId(mem, 1);
  }

  /**
   * A collection that remembers one record and then archives its log: a crash after the log's rename and
   * before the manifest's recovers an empty collection, and the id would be issued again.
   */
  lemma LostWindowLosesRecord()
    ensures var d := map[WAL_FILE := LogFile([Entry(Remember(PlainRow(1, false)))])];
            var e := (d - {WAL_FILE})[ArchiveName(1, 0) := d[WAL_FILE]];
            && Recover(d).Ok? && 1 in Recover(d).value.docs && Recover(d).value.nextId == 2
            && Recover(e) == Ok(EmptyImage(1))
  {
    var op := Remember(PlainRow(1, false));
    var d: Directory := map[WAL_FILE := LogFile([Entry(op)])];
    var e := (d - {WAL_FILE})[ArchiveName(1, 0) := d[WAL_FILE]];
    assert [Entry(op)][1..] == [];
    assert ParsedOps([Entry(op)]) == [op] && Readable([Entry(op)]);
    assert ManifestOf(d) == Some(Manifest(0, [], [])) && LogsReadable(d, Manifest(0, [], []));
    assert ViewOf(d) == Ok(View(Manifest(0, [], []), EmptyImage(1), [], [op]));
    assert [] + [op] == [op] && [op][1..] == [];
    assert ReplayAll([op], EmptyImage(1)) == Apply(op, EmptyImage(1));
    NameShapes(1, 0, WAL_FILE);
    assert ViewOf(e) == Ok(View(Manifest(0, [], []), EmptyImage(1), [], []));
  }

  /** A record whose text is one character of two bytes. */
  function AccentRow(id: nat): SnapshotRow {
    SnapshotRow(PlainRecord(id).(text := "\U{E9}"), Encoding([], [], [], 0), false)
  }

  /**
   * Remembering that text: a crash after the first of its two bytes leaves a log that is not UTF-8, and a
   * collection that cannot be opened.
   */
  lemma TornCharacter()
    ensures Encode("\U{E9}") == [0xC3, 0xA9] && !Valid(Encode("\U{E9}")[..1])
    ensures var op := Remember(AccentRow(1));
            var e := WithLine(map[WAL_FILE := LogFile([])], Broken);
            && e in AppendStates(map[WAL_FILE := LogFile([])], op)
            && Recover(e) == Err(UnreadableLog)
  {
    assert "\U{E9}"[1..] == "";
    assert Encode("\U{E9}") == EncodeChar('\U{E9}') + [];
    assert Encode("\U{E9}")[..1] == [0xC3];
    var op := Remember(AccentRow(1));
    var e := WithLine(map[WAL_FILE := LogFile([])], Broken);
    assert "\U{E9}"[0] in "\U{E9}";
    assert !Ascii("\U{E9}");
    assert AppendStates(map[WAL_FILE := LogFile([])], op)[0] == e;
    assert e[WAL_FILE].lines == [Broken];
    assert ManifestOf(e) == Some(Manifest(0, [], [])) && !ReadableIn(e, WAL_FILE);
  }

  /** The directory after: remember 1, a torn line, reopen, forget 1, and a completed archiving checkpoint. */
  function TornThenArchived(): Directory {
    var ended := PlainRow(1, false).(record := PlainRecord(1).(validTo := Some(9)));
    map[MANIFEST_FILE := ManifestFile(Manifest(2, [NewSegmentName(1)], [ArchiveName(1, 0)])),
        NewSegmentName(1) := SegmentFile([ended]),
        ArchiveName(1, 0) := LogFile(AppendLine([Entry(Remember(PlainRow(1, false))), Torn], Entry(Forget(1, 9)))),
        WAL_FILE := LogFile([])]
  }

  /**
   * The forget was appended behind a torn line and is not in the archived log, which still remembers the
   * record: opening the directory replays it over the snapshot, and the forgotten record is live again.
   */
  lemma TornLogRevives()
    ensures var e := TornThenArchived();
            && Recover(e).Ok? && 1 in Recover(e).value.docs && Recover(e).value.docs[1].record.IsLive()
            && e[NewSegmentName(1)].rows[0].record.validTo == Some(9)
    ensures !NothingUndone([Remember(PlainRow(1, false))], [Forget(1, 9)], RouteRow(PlainRow(1, false), EmptyImage(1)))
  {
    var op := Remember(PlainRow(1, false));
    var e := TornThenArchived();
    NameShapes(1, 0, WAL_FILE);
    NamesApart(1, 0);
    var lines := e[ArchiveName(1, 0)].lines;
    assert lines == [Entry(op), Garbled];
    assert lines[1..] == [Garbled];
    assert ParsedOps(lines) == [op] + ParsedOps(lines[1..]);
    var rows := e[NewSegmentName(1)].rows;
    assert rows[1..] == [];
    var snap := LoadRows(rows, EmptyImage(2));
    assert snap == LoadRows(rows[1..], RouteRow(rows[0], EmptyImage(2)));
    var m := Manifest(2, [NewSegmentName(1)], [ArchiveName(1, 0)]);
    assert m.snapshots[1..] == [] && m.walArchives[1..] == [];
    assert LoadSegments(e, m.snapshots, EmptyImage(2)) == LoadSegments(e, m.snapshots[1..], snap);
    assert ArchivedOps(e, m.walArchives) == OpsIn(e, ArchiveName(1, 0)) + ArchivedOps(e, m.walArchives[1..]);
    assert Readable(lines) && LogsReadable(e, m);
    assert ManifestOf(e) == Some(m) && OpsIn(e, WAL_FILE) == [];
    assert ParsedOps(lines[1..]) == [] && OpsIn(e, ArchiveName(1, 0)) == [op];
    assert ArchivedOps(e, m.walArchives) == [op];
    assert LoadSegments(e, m.snapshots, EmptyImage(2)) == Some(snap);
    assert ViewOf(e) == Ok(View(m, snap, [op], []));
    assert [op] + [] == [op];
    ReplayOneOp(op, snap);
    ReviveUnsafe();
  }

  lemma ReviveUnsafe()
    ensures !NothingUndone([Remember(PlainRow(1, false))], [Forget(1, 9)], RouteRow(PlainRow(1, false), EmptyImage(1)))
  {
    var op, later, shown := Remember(PlainRow(1, false)), [Forget(1, 9)], RouteRow(PlainRow(1, false), EmptyImage(1));
    assert [op][0].Remember? && OpId([op][0]) == 1;
    assert 1 in RememberedIds([op]);
    assert later[1..] == [] && LastForget(later, 1) == Some(9);
    assert 1 in Stored(shown) && SlotOf(shown, 1).doc.Some?;
    assert !SlotSafe([op], later, 1, SlotOf(shown, 1));
  }
}
