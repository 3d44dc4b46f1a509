/**
 * A directory that changes one file action at a time. The ghost trace keeps every state the directory
 * has been in, which is what a crash can leave behind.
 */
module Folders {
  import opened Wrappers
  import opened Records
  import opened Replay
  import opened Absorb
  import opened FileNames
  import opened Disk
  import opened Invariants
  import opened Durability
  import opened Operations
  import opened Checkpoints

  class Folder {
    var files: Directory
    ghost var trace: seq<Directory>

    constructor ()
      ensures files == map[] && trace == []
    {
      files := map[];
      trace := [];
    }

    /** Create or truncate a file with the given content. */
    method Put(name: string, f: File)
      modifies this
      ensures files == old(files)[name := f]
      ensures trace == old(trace) + [files]
    {
      files := files[name := f];
      trace := trace + [files];
    }

    method Rename(from: string, to: string)
      requires from in files && from != to
      modifies this
      ensures files == (old(files) - {from})[to := old(files)[from]]
      ensures trace == old(trace) + [files]
    {
      files := (files - {from})[to := files[from]];
      trace := trace + [files];
    }

    method Remove(name: string)
      modifies this
      ensures files == old(files) - {name}
      ensures trace == old(trace) + [files]
    {
      files := files - {name};
      trace := trace + [files];
    }

    /** Append one operation to the live log; a crash can stop it inside the line or before its newline. */
    method Append(op: WalOp)
      modifies this
      ensures files == Logged(old(files), op)
      ensures trace == old(trace) + AppendStates(old(files), op)
    {
      trace := trace + AppendStates(files, op);
      files := files[WAL_FILE := LogFile(AppendLine(LogLines(files), Entry(op)))];
    }
  }

  /** The two directories differ in no file outside `names`. */
  ghost predicate DiffersOnlyAt(d: Directory, e: Directory, names: iset<string>) {
    forall n :: n !in names ==> SameFile(d, e, n)
  }

  function RowOf(doc: StoredDoc, archived: bool): SnapshotRow {
    SnapshotRow(doc.record, doc.enc, archived)
  }

  /** The rows written so far hold exactly these two maps. */
  ghost predicate Written(rows: seq<SnapshotRow>, mem: Image, owners: Owners,
                          docs: map<nat, StoredDoc>, archive: map<nat, StoredDoc>) {
    var img := Snapshot(rows, mem);
    && img.docs == docs && img.archive == archive && img.nextId == mem.nextId
    && Covered(img) && Agrees(img, owners) && IdsMatch(img)
  }

  /** `later` extends `earlier` by states that differ from `d` only at `names`. */
  ghost predicate TouchedOnly(earlier: seq<Directory>, later: seq<Directory>, d: Directory, names: iset<string>) {
    && |earlier| <= |later| && later[..|earlier|] == earlier
    && forall k :: |earlier| <= k < |later| ==> DiffersOnlyAt(d, later[k], names)
  }

  lemma PutDiffers(d: Directory, name: string, f: File)
    ensures DiffersOnlyAt(d, d[name := f], iset{name})
  {
  }

  lemma DiffersChain(d: Directory, e: Directory, f: Directory, names: iset<string>)
    requires DiffersOnlyAt(d, e, names) && DiffersOnlyAt(e, f, names)
    ensures DiffersOnlyAt(d, f, names)
  {
    forall n | n !in names ensures SameFile(d, f, n) {
      assert SameFile(d, e, n) && SameFile(e, f, n);
    }
  }

  lemma TouchedMore(earlier: seq<Directory>, later: seq<Directory>, d: Directory, names: iset<string>, e: Directory)
    requires TouchedOnly(earlier, later, d, names) && DiffersOnlyAt(d, e, names)
    ensures TouchedOnly(earlier, later + [e], d, names)
  {
    assert (later + [e])[..|earlier|] == earlier;
  }

  lemma TouchedChain(a: seq<Directory>, b: seq<Directory>, c: seq<Directory>, d: Directory, e: Directory,
                     names: iset<string>)
    requires TouchedOnly(a, b, d, names) && DiffersOnlyAt(d, e, names) && TouchedOnly(b, c, e, names)
    ensures TouchedOnly(a, c, d, names)
  {
    assert c[..|a|] == c[..|b|][..|a|];
    forall k | |a| <= k < |c| ensures DiffersOnlyAt(d, c[k], names) {
      if k < |b| {
        assert c[k] == c[..|b|][k];
      } else {
        DiffersChain(d, e, c[k], names);
      }
    }
  }

  lemma TouchedWiden(a: seq<Directory>, b: seq<Directory>, d: Directory, names: iset<string>, more: iset<string>)
    requires TouchedOnly(a, b, d, names) && names <= more
    ensures TouchedOnly(a, b, d, more)
  {
  }

  /** One more row of a snapshot being written. */
  lemma RowLoaded(rows: seq<SnapshotRow>, mem: Image, owners: Owners, doc: StoredDoc, archived: bool,
                  docs: map<nat, StoredDoc>, archive: map<nat, StoredDoc>)
    requires MemOk(mem, owners)
    requires var x := doc.record.id;
             if archived then x in mem.archive && mem.archive[x] == doc else x in mem.docs && mem.docs[x] == doc
    requires Written(rows, mem, owners, docs, archive)
    requires doc.record.id !in docs && doc.record.id !in archive
    ensures Written(rows + [RowOf(doc, archived)], mem, owners,
                    if archived then docs else docs[doc.record.id := doc],
                    if archived then archive[doc.record.id := doc] else archive)
  {
    var op := Remember(RowOf(doc, archived));
    var img := Snapshot(rows, mem);
    LoadRowsAppend(rows, RowOf(doc, archived), EmptyImage(mem.nextId));
    ApplyCovered(op, img);
    ApplyAgrees(op, img, owners);
  }

  method WriteRow(folder: Folder, tmp: string, before: seq<SnapshotRow>, row: SnapshotRow, ghost t0: seq<Directory>,
                  ghost seen: seq<Directory>, ghost d: Directory)
    returns (rows: seq<SnapshotRow>)
    requires folder.trace == seen && folder.files == d[tmp := SegmentFile(before)]
    requires TouchedOnly(t0, seen, d, iset{tmp})
    modifies folder
    ensures rows == before + [row] && folder.files == d[tmp := SegmentFile(rows)]
    ensures TouchedOnly(t0, folder.trace, d, iset{tmp})
  {
    rows := before + [row];
    folder.Put(tmp, SegmentFile(rows));
    PutDiffers(d, tmp, SegmentFile(rows));
    TouchedMore(t0, seen, d, iset{tmp}, folder.files);
  }

  /** Streams one of the two maps into the temporary file, in whatever order the map yields its keys. */
  method WriteRows(folder: Folder, tmp: string, start: seq<SnapshotRow>, docs: map<nat, StoredDoc>, archived: bool,
      ghost mem: Image, ghost owners: Owners)
    returns (rows: seq<SnapshotRow>)
    requires MemOk(mem, owners)
    requires docs == if archived then mem.archive else mem.docs
    requires Partly(start, mem, owners, archived, map[])
    modifies folder
    ensures Partly(rows, mem, owners, archived, docs)
    ensures folder.files == old(folder.files)[tmp := SegmentFile(rows)]
    ensures TouchedOnly(old(folder.trace), folder.trace, old(folder.files), iset{tmp})
  {
    rows := start;
    ghost var before := folder.files;
    folder.Put(tmp, SegmentFile(rows));
    var todo := docs.Keys;
    assert docs - todo == map[];
    while todo != {}
      invariant todo <= docs.Keys
      invariant Partly(rows, mem, owners, archived, docs - todo)
      invariant folder.files == before[tmp := SegmentFile(rows)]
      invariant TouchedOnly(old(folder.trace), folder.trace, before, iset{tmp})
    {
      var x :| x in todo;
      ghost var seen := folder.trace;
      NextRow(rows, mem, owners, archived, docs, todo, x);
      rows := WriteRow(folder, tmp, rows, RowOf(docs[x], archived), old(folder.trace), seen, before);
      todo := todo - {x};
    }
    assert docs - {} == docs;
  }

  ghost predicate Partly(rows: seq<SnapshotRow>, mem: Image, owners: Owners, archived: bool,
                         part: map<nat, StoredDoc>) {
    Written(rows, mem, owners, if archived then mem.docs else part, if archived then part else map[])
  }

  lemma NextRow(rows: seq<SnapshotRow>, mem: Image, owners: Owners, archived: bool,
                docs: map<nat, StoredDoc>, todo: set<nat>, x: nat)
    requires MemOk(mem, owners) && docs == if archived then mem.archive else mem.docs
    requires x in todo && todo <= docs.Keys
    requires Partly(rows, mem, owners, archived, docs - todo)
    ensures Partly(rows + [RowOf(docs[x], archived)], mem, owners, archived, docs - (todo - {x}))
  {
    RowLoaded(rows, mem, owners, docs[x], archived, if archived then mem.docs else docs - todo,
              if archived then docs - todo else map[]);
    assert (docs - todo)[x := docs[x]] == docs - (todo - {x});
  }

  /** What a rename of a temporary file written twice leaves. */
  lemma Renamed(before: Directory, middle: Directory, tmp: string, name: string, first: File, second: File)
    requires tmp != name && middle == before[tmp := first]
    ensures (middle[tmp := second] - {tmp})[name := second] == (before - {tmp})[name := second]
    ensures DiffersOnlyAt(before, middle, iset{name, tmp})
    ensures DiffersOnlyAt(before, (before - {tmp})[name := second], iset{name, tmp})
  {
  }

  /**
   * `write_snapshot`: every row goes to a temporary file, which is renamed into place at the end. Until
   * then only the temporary file differs from the directory before.
   */
  method WriteSnapshot(folder: Folder, name: string, docs: map<nat, StoredDoc>, archive: map<nat, StoredDoc>,
      ghost mem: Image, ghost owners: Owners)
    returns (ghost rows: seq<SnapshotRow>)
    requires MemOk(mem, owners) && docs == mem.docs && archive == mem.archive
    modifies folder
    ensures SnapshotOf(rows, mem, owners)
    ensures folder.files == (old(folder.files) - {name + TMP_SUFFIX})[name := SegmentFile(rows)]
    ensures TouchedOnly(old(folder.trace), folder.trace, old(folder.files), iset{name, name + TMP_SUFFIX})
    ensures |folder.trace| > |old(folder.trace)|
  {
    var tmp := name + TMP_SUFFIX;
    ghost var before, t0 := folder.files, folder.trace;
    ghost var names := iset{name, tmp};
    assert tmp != name;
    var live := WriteRows(folder, tmp, [], docs, false, mem, owners);
    ghost var middle, t1 := folder.files, folder.trace;
    TouchedWiden(t0, t1, before, iset{tmp}, names);
    var all := WriteRows(folder, tmp, live, archive, true, mem, owners);
    ghost var t2 := folder.trace;
    TouchedWiden(t1, t2, middle, iset{tmp}, names);
    TouchedChain(t0, t1, t2, before, middle, names);
    rows := all;
    folder.Rename(tmp, name);
    Renamed(before, middle, tmp, name, SegmentFile(live), SegmentFile(all));
    TouchedMore(t0, t2, before, names, folder.files);
  }

  /** `write_manifest_atomic`: the switch is one rename; before it only the temporary file differs. */
  method WriteManifest(folder: Folder, m: Manifest)
    modifies folder
    ensures folder.files == (old(folder.files) - {MANIFEST_FILE + TMP_SUFFIX})[MANIFEST_FILE := ManifestFile(m)]
    ensures |folder.trace| == |old(folder.trace)| + 2 && folder.trace[..|old(folder.trace)|] == old(folder.trace)
    ensures DiffersOnlyAt(old(folder.files), folder.trace[|old(folder.trace)|], iset{MANIFEST_FILE + TMP_SUFFIX})
    ensures folder.trace[|old(folder.trace)| + 1] == folder.files
  {
    folder.Put(MANIFEST_FILE + TMP_SUFFIX, ManifestFile(m));
    folder.Rename(MANIFEST_FILE + TMP_SUFFIX, MANIFEST_FILE);
  }

  ghost function Unlisted(listed: seq<string>): iset<string> {
    iset n | IsSegmentName(n) && n !in listed
  }

  /**
   * `cleanup_unlisted_segments`: removes segments the manifest does not list, and nothing else. A
   * removal that fails is ignored, which `stuck` stands for.
   */
  method Cleanup(folder: Folder, listed: seq<string>, stuck: set<string>)
    modifies folder
    ensures DiffersOnlyAt(old(folder.files), folder.files, Unlisted(listed))
    ensures forall n :: n in folder.files && IsSegmentName(n) ==> n in listed || n in stuck
    ensures TouchedOnly(old(folder.trace), folder.trace, old(folder.files), Unlisted(listed))
  {
    var names := folder.files.Keys;
    while names != {}
      invariant forall n :: n in folder.files && n !in names && IsSegmentName(n) ==> n in listed || n in stuck
      invariant DiffersOnlyAt(old(folder.files), folder.files, Unlisted(listed))
      invariant TouchedOnly(old(folder.trace), folder.trace, old(folder.files), Unlisted(listed))
    {
      var name :| name in names;
      names := names - {name};
      if IsSegmentName(name) && name !in listed && name !in stuck {
        ghost var seen := folder.trace;
        folder.Remove(name);
        TouchedMore(old(folder.trace), seen, old(folder.files), Unlisted(listed), folder.files);
      }
    }
  }
}
