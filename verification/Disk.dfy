/**
 * The directory of one collection and what `Collection::open` reads from it.
 * Renames are atomic and a flushed append is durable; an append in progress can leave a torn line.
 */
module Disk {
  import opened Wrappers
  import opened Records
  import opened Replay
  import opened FileNames
  import opened Utf8

  /** The document-frequency table of the manifest takes no part in recovery of records. */
  datatype Manifest = Manifest(nextId: nat, snapshots: seq<string>, walArchives: seq<string>)

  /**
   * One line of a log. `Torn` is an unfinished line; `Unterminated` holds the whole operation but not yet
   * its newline, so it parses today and is glued to whatever is appended next; `Garbled` is such a glued
   * line, with its newline. `Broken` holds bytes that are not UTF-8, because a tear hit a character.
   */
  datatype Line = Entry(op: WalOp) | Unterminated(op: WalOp) | Torn | Garbled | Broken

  datatype File =
    | ManifestFile(manifest: Manifest)
    | SegmentFile(rows: seq<SnapshotRow>)
    | LogFile(lines: seq<Line>)

  type Directory = map<string, File>

  datatype OpenError = UnreadableManifest | MissingSnapshot | UnreadableLog

  // ----- Logs -----

  predicate Parses(line: Line) {
    line.Entry? || line.Unterminated?
  }

  function OpsOf(line: Line): seq<WalOp> {
    if Parses(line) then [line.op] else []
  }

  /** `wal::replay` applies operations up to the first line that does not parse. */
  function ParsedOps(lines: seq<Line>): seq<WalOp> {
    if lines == [] || !Parses(lines[0]) then []
    else [lines[0].op] + ParsedOps(lines[1..])
  }

  /** Reading stops at a line that does not parse; it fails if it reaches one that is not UTF-8 before. */
  predicate Readable(lines: seq<Line>) {
    lines == [] || if Parses(lines[0]) then Readable(lines[1..]) else !lines[0].Broken?
  }

  /** Reading stops before the end, so nothing appended will ever be read. */
  predicate Stopped(lines: seq<Line>) {
    lines != [] && if Parses(lines[0]) then Stopped(lines[1..]) else !lines[0].Broken?
  }

  predicate Intact(lines: seq<Line>) {
    forall i :: 0 <= i < |lines| ==> Parses(lines[i])
  }

  predicate Clean(lines: seq<Line>) {
    forall i :: 0 <= i < |lines| ==> lines[i].Entry?
  }

  predicate EndsOpen(lines: seq<Line>) {
    lines != [] && !lines[|lines| - 1].Entry? && !lines[|lines| - 1].Garbled?
  }

  /** What an unfinished line and the bytes appended behind it read as together. */
  function Glued(last: Line, line: Line): Line {
    if last.Broken? || line.Broken? then Broken
    else if line.Entry? || line.Garbled? then Garbled
    else Torn
  }

  function AppendLine(lines: seq<Line>, line: Line): seq<Line> {
    if EndsOpen(lines) then lines[..|lines| - 1] + [Glued(lines[|lines| - 1], line)] else lines + [line]
  }

  /** What one more line adds to a log that is read to its end, and to one that is not. */
  lemma {:induction false} ScanAppend(lines: seq<Line>, line: Line)
    ensures Readable(lines) <==> Stopped(lines) || Intact(lines)
    ensures Stopped(lines) ==> ParsedOps(lines + [line]) == ParsedOps(lines) && Stopped(lines + [line])
    ensures Intact(lines) ==>
              && ParsedOps(lines + [line]) == ParsedOps(lines) + OpsOf(line)
              && |ParsedOps(lines)| == |lines|
              && (Readable(lines + [line]) <==> !line.Broken?)
              && (Stopped(lines + [line]) <==> line.Torn? || line.Garbled?)
  {
    if lines == [] {
      assert ([line])[1..] == [];
    } else {
      assert (lines + [line])[1..] == lines[1..] + [line];
      assert (lines + [line])[0] == lines[0];
      ScanAppend(lines[1..], line);
      if Intact(lines) {
        assert Intact(lines[1..]);
      } else if Parses(lines[0]) {
        var i :| 0 <= i < |lines| && !Parses(lines[i]);
        assert !Parses(lines[1..][i - 1]);
      }
    }
  }

  /** Behind a line that does not parse, appending changes nothing that is read. */
  lemma StoppedAppend(lines: seq<Line>, line: Line)
    requires Stopped(lines)
    ensures !line.Broken? ==> Stopped(AppendLine(lines, line))
    ensures Readable(AppendLine(lines, line)) ==>
              Stopped(AppendLine(lines, line)) && ParsedOps(AppendLine(lines, line)) == ParsedOps(lines)
  {
    ScanAppend(lines, line);
    if EndsOpen(lines) {
      var front, last := lines[..|lines| - 1], lines[|lines| - 1];
      assert lines == front + [last];
      ScanAppend(front, last);
      ScanAppend(front, Glued(last, line));
      if !Stopped(front) {
        FirstBroken(front, last);
      }
    }
  }

  lemma {:induction false} FirstBroken(front: seq<Line>, last: Line)
    requires !Stopped(front) && Stopped(front + [last])
    ensures Intact(front)
  {
    if front != [] {
      assert (front + [last])[1..] == front[1..] + [last];
      assert (front + [last])[0] == front[0];
      FirstBroken(front[1..], last);
      forall i | 0 <= i < |front| ensures Parses(front[i]) {
        if i > 0 {
          assert front[1..][i - 1] == front[i];
        }
      }
    }
  }

  lemma CleanAppend(lines: seq<Line>, line: Line)
    requires Clean(lines)
    ensures AppendLine(lines, line) == lines + [line]
    ensures ParsedOps(lines + [line]) == ParsedOps(lines) + OpsOf(line)
    ensures |ParsedOps(lines)| == |lines| && (Readable(lines + [line]) <==> !line.Broken?)
  {
    ScanAppend(lines, line);
  }

  /**
   * In a log that was opened, an appended operation is read back if and only if every earlier line is a
   * complete one. After a torn tail appends are lost, because the torn bytes are kept; an operation that
   * only lacked its newline is lost with the first append.
   */
  lemma AppendReadBack(lines: seq<Line>, op: WalOp)
    requires Readable(lines) && forall i :: 0 <= i < |lines| - 1 ==> !lines[i].Unterminated?
    ensures Readable(AppendLine(lines, Entry(op)))
    ensures ParsedOps(AppendLine(lines, Entry(op))) == ParsedOps(lines) + [op] <==> Clean(lines)
  {
    var more := AppendLine(lines, Entry(op));
    if Clean(lines) {
      CleanAppend(lines, Entry(op));
    } else {
      UncleanAppend(lines, op);
      assert |ParsedOps(more)| < |ParsedOps(lines) + [op]|;
    }
  }

  lemma UncleanAppend(lines: seq<Line>, op: WalOp)
    requires Readable(lines) && !Clean(lines) && forall i :: 0 <= i < |lines| - 1 ==> !lines[i].Unterminated?
    ensures Readable(AppendLine(lines, Entry(op)))
    ensures |ParsedOps(AppendLine(lines, Entry(op)))| <= |ParsedOps(lines)|
  {
    ScanAppend(lines, Entry(op));
    if Stopped(lines) {
      StoppedAppend(lines, Entry(op));
      StoppedReadable(AppendLine(lines, Entry(op)));
    } else {
      UnterminatedLost(lines, op);
    }
  }

  lemma StoppedReadable(lines: seq<Line>)
    requires Stopped(lines)
    ensures Readable(lines)
  {
    ScanAppend(lines, Torn);
  }

  /** The first append behind an operation without its newline garbles that operation too. */
  lemma UnterminatedLost(lines: seq<Line>, op: WalOp)
    requires Intact(lines) && !Clean(lines) && forall i :: 0 <= i < |lines| - 1 ==> !lines[i].Unterminated?
    ensures Readable(AppendLine(lines, Entry(op)))
    ensures ParsedOps(AppendLine(lines, Entry(op))) == ParsedOps(lines[..|lines| - 1])
    ensures |ParsedOps(lines)| == |ParsedOps(lines[..|lines| - 1])| + 1
  {
    var front, last := lines[..|lines| - 1], lines[|lines| - 1];
    assert lines == front + [last];
    assert Intact(front);
    ScanAppend(front, last);
    ScanAppend(front, Garbled);
  }

  // ----- Tears -----

  /** The line a crash leaves after `k` bytes of the serialised operation. */
  function TornAfter(json: string, op: WalOp, k: nat): Line
    requires 0 < k <= |Encode(json)|
  {
    if k == |Encode(json)| then Unterminated(op)
    else if Valid(Encode(json)[..k]) then Torn
    else Broken
  }

  /** The read fails exactly for tears inside a character: some exist unless all characters take one byte. */
  lemma TearBreaks(json: string, op: WalOp, k: nat)
    requires 0 < k <= |Encode(json)|
    ensures TornAfter(json, op, k).Broken? <==> !AtBoundary(json, k)
    ensures Ascii(json) <==> forall n :: 0 < n <= |Encode(json)| ==> !TornAfter(json, op, n).Broken?
  {
    PrefixValid(json, k);
    PrefixValid(json, |Encode(json)|);
    assert Encode(json)[..|Encode(json)|] == Encode(json);
    EncodeValid(json);
    if Ascii(json) {
      forall n | 0 < n <= |Encode(json)| ensures !TornAfter(json, op, n).Broken? {
        PrefixValid(json, n);
        AsciiBoundary(json, n);
      }
    } else {
      var c :| c in json && c as int >= 0x80;
      var n := InsideChar(json, c);
      assert TornAfter(json, op, n).Broken?;
    }
  }

  // ----- Reading a directory -----

  function ManifestOf(d: Directory): Option<Manifest> {
    if MANIFEST_FILE !in d then Some(Manifest(0, [], []))
    else if d[MANIFEST_FILE].ManifestFile? then Some(d[MANIFEST_FILE].manifest)
    else None
  }

  function LoadRows(rows: seq<SnapshotRow>, img: Image): Image {
    if rows == [] then img else LoadRows(rows[1..], RouteRow(rows[0], img))
  }

  function LoadSegments(d: Directory, names: seq<string>, img: Image): Option<Image> {
    if names == [] then Some(img)
    else if names[0] in d && d[names[0]].SegmentFile? then
      LoadSegments(d, names[1..], LoadRows(d[names[0]].rows, img))
    else None
  }

  predicate ReadableIn(d: Directory, name: string) {
    name in d && d[name].LogFile? ==> Readable(d[name].lines)
  }

  predicate LogsReadable(d: Directory, m: Manifest) {
    ReadableIn(d, WAL_FILE) && forall n :: n in m.walArchives ==> ReadableIn(d, n)
  }

  function OpsIn(d: Directory, name: string): seq<WalOp> {
    if name in d && d[name].LogFile? then ParsedOps(d[name].lines) else []
  }

  function ArchivedOps(d: Directory, names: seq<string>): seq<WalOp> {
    if names == [] then [] else OpsIn(d, names[0]) + ArchivedOps(d, names[1..])
  }

  function EmptyImage(nextId: nat): Image {
    Image(map[], map[], map[], nextId)
  }

  /** The inputs of recovery: manifest, image of the snapshot, operations of the archived logs, of the live log. */
  datatype View = View(manifest: Manifest, snap: Image, arch: seq<WalOp>, live: seq<WalOp>)

  function ViewOf(d: Directory): Result<View, OpenError> {
    match ManifestOf(d)
    case None => Err(UnreadableManifest)
    case Some(m) =>
      match LoadSegments(d, m.snapshots, EmptyImage(Max(m.nextId, 1)))
      case None => Err(MissingSnapshot)
      case Some(snap) =>
        if LogsReadable(d, m) then Ok(View(m, snap, ArchivedOps(d, m.walArchives), OpsIn(d, WAL_FILE)))
        else Err(UnreadableLog)
  }

  /** The maps, the subject lists and the id counter that `Collection::open` rebuilds. */
  function Recover(d: Directory): Result<Image, OpenError> {
    match ViewOf(d)
    case Err(e) => Err(e)
    case Ok(v) => Ok(ReplayAll(v.arch + v.live, v.snap))
  }

  function SeqNoOf(m: Manifest): nat {
    if m.snapshots == [] then 0
    else match ParseSegSeq(m.snapshots[|m.snapshots| - 1]) case Some(k) => k case None => 0
  }

  // ----- Recovery reads only the files the manifest lists -----

  predicate Reads(m: Manifest, name: string) {
    name == MANIFEST_FILE || name == WAL_FILE || name in m.snapshots || name in m.walArchives
  }

  predicate SameFile(d: Directory, e: Directory, name: string) {
    (name in d <==> name in e) && (name in d ==> d[name] == e[name])
  }

  lemma {:induction false} LoadSegmentsFrame(d: Directory, e: Directory, names: seq<string>, img: Image)
    requires forall n :: n in names ==> SameFile(d, e, n)
    ensures LoadSegments(d, names, img) == LoadSegments(e, names, img)
  {
    if names != [] {
      assert SameFile(d, e, names[0]);
      if names[0] in d && d[names[0]].SegmentFile? {
        LoadSegmentsFrame(d, e, names[1..], LoadRows(d[names[0]].rows, img));
      }
    }
  }

  lemma {:induction false} ArchivedOpsFrame(d: Directory, e: Directory, names: seq<string>)
    requires forall n :: n in names ==> SameFile(d, e, n)
    ensures ArchivedOps(d, names) == ArchivedOps(e, names)
  {
    if names != [] {
      assert SameFile(d, e, names[0]);
      ArchivedOpsFrame(d, e, names[1..]);
    }
  }

  lemma LogsFrame(d: Directory, e: Directory, m: Manifest)
    requires LogsReadable(d, m) && forall n :: n in m.walArchives || n == WAL_FILE ==> SameFile(d, e, n)
    ensures LogsReadable(e, m)
  {
    assert SameFile(d, e, WAL_FILE);
    forall n | n in m.walArchives ensures ReadableIn(e, n) {
      assert SameFile(d, e, n);
    }
  }

  lemma ViewFrame(d: Directory, e: Directory)
    requires ManifestOf(d).Some?
    requires forall n :: Reads(ManifestOf(d).value, n) ==> SameFile(d, e, n)
    ensures ViewOf(d) == ViewOf(e)
  {
    var m := ManifestOf(d).value;
    assert SameFile(d, e, MANIFEST_FILE) && SameFile(d, e, WAL_FILE);
    LoadSegmentsFrame(d, e, m.snapshots, EmptyImage(Max(m.nextId, 1)));
    ArchivedOpsFrame(d, e, m.walArchives);
  }

  lemma {:induction false} ArchivedOpsAppend(d: Directory, names: seq<string>, name: string)
    ensures ArchivedOps(d, names + [name]) == ArchivedOps(d, names) + OpsIn(d, name)
  {
    if names == [] {
      assert ([name])[1..] == [];
    } else {
      assert (names + [name])[1..] == names[1..] + [name];
      ArchivedOpsAppend(d, names[1..], name);
    }
  }

  lemma {:induction false} LoadRowsAppend(rows: seq<SnapshotRow>, row: SnapshotRow, img: Image)
    ensures LoadRows(rows + [row], img) == RouteRow(row, LoadRows(rows, img))
  {
    if rows == [] {
      assert ([row])[1..] == [];
    } else {
      assert (rows + [row])[1..] == rows[1..] + [row];
      LoadRowsAppend(rows[1..], row, RouteRow(rows[0], img));
    }
  }
}
