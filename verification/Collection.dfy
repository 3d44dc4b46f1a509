/** `db/src/collection.rs`: the collection object, its operations on memory and its directory. */
module Collections {
  import opened Wrappers
  import opened Records
  import opened Replay
  import opened Absorb
  import opened FileNames
  import opened Disk
  import opened Invariants
  import opened Durability
  import opened Operations
  import opened Checkpoints
  import opened Folders
  import opened CheckpointSteps
  import opened Calls
  import opened Sorting
  import opened Actions
  import opened Consolidation
  import opened Outcomes

  datatype CollectionError = EmptyText | NotFound(id: nat)

  const MAX_SOURCES_PER_SUMMARY := 5

  /** The Unicode property `White_Space`, which trimming goes by. */
  predicate IsSpace(c: char) {
    var n := c as int;
    || 0x9 <= n <= 0xD || n == 0x20 || n == 0x85 || n == 0xA0 || n == 0x1680 || 0x2000 <= n <= 0x200A
    || n == 0x2028 || n == 0x2029 || n == 0x202F || n == 0x205F || n == 0x3000
  }

  /** The characters with that property. */
  const WHITE_SPACE := [
    0x9, 0xA, 0xB, 0xC, 0xD, 0x20, 0x85, 0xA0, 0x1680, 0x2000, 0x2001, 0x2002, 0x2003, 0x2004, 0x2005, 0x2006, 0x2007,
    0x2008, 0x2009, 0x200A, 0x2028, 0x2029, 0x202F, 0x205F, 0x3000]

  lemma SpacesAre(c: char)
    ensures IsSpace(c) <==> c as int in WHITE_SPACE
  {
  }

  lemma BlankIs(text: string)
    ensures IsBlank(text) <==> forall c :: c in text ==> c as int in WHITE_SPACE
  {
    forall c | c in text ensures IsSpace(c) <==> c as int in WHITE_SPACE {
      SpacesAre(c);
    }
  }

  predicate IsBlank(text: string) {
    forall c :: c in text ==> IsSpace(c)
  }

  function Clamp(v: real): real {
    if v < 0.0 then 0.0 else if v > 1.0 then 1.0 else v
  }

  /** `m` with every live record of the subject ended at `now`. */
  function SubjectEndedIn(m: map<nat, StoredDoc>, subject: Option<string>, now: int): map<nat, StoredDoc> {
    map x | x in m :: if subject.Some? && LiveUnder(m, x, subject.value) then Ended(m[x], now) else m[x]
  }

  function NewRecord(id: nat, text: string, subject: Option<string>, tags: seq<string>, importance: real,
                     eventTime: int, now: int): Record {
    Record(id, text, subject, tags, eventTime, now, None, Clamp(importance), 0, None, [])
  }

  /** A record as it was handed in: live, never hit, of no sources, with its importance brought into range. */
  ghost predicate RememberedAs(row: SnapshotRow, id: nat, text: string, subject: Option<string>, tags: seq<string>,
                               importance: real, eventTime: Option<int>, now: int, enc: Encoding) {
    var r := row.record;
    && row.enc == enc && !row.archived && r.id == id && r.text == text && r.subject == subject && r.tags == tags
    && r.ingestTime == now && (match eventTime case Some(t) => r.eventTime == t case None => r.eventTime == now)
    && r.validTo.None? && r.hits == 0 && r.lastHit.None? && r.sourceIds == []
    && 0.0 <= r.importance <= 1.0 && (0.0 <= importance <= 1.0 ==> r.importance == importance)
    && (importance < 0.0 ==> r.importance == 0.0) && (importance > 1.0 ==> r.importance == 1.0)
  }

  /** The row a remember stores. */
  function RememberedRow(id: nat, text: string, subject: Option<string>, tags: seq<string>, importance: real,
                         eventTime: Option<int>, now: int, enc: Encoding): SnapshotRow {
    var time := if eventTime.Some? then eventTime.value else now;
    SnapshotRow(NewRecord(id, text, subject, tags, importance, time, now), enc, false)
  }

  lemma RowRemembered(id: nat, text: string, subject: Option<string>, tags: seq<string>, importance: real,
                      eventTime: Option<int>, now: int, enc: Encoding)
    ensures RememberedAs(RememberedRow(id, text, subject, tags, importance, eventTime, now, enc), id, text, subject,
                         tags, importance, eventTime, now, enc)
  {
  }

  function SubjectOps(img: Image, subject: Option<string>, now: int): seq<WalOp> {
    match subject
    case None => []
    case Some(s) => ForgetOps(img, SubjectIds(img, s), now)
  }

  lemma SubjectOpsEffect(img: Image, subject: Option<string>, now: int, owners: Owners)
    requires MemOk(img, owners)
    ensures var mid := ReplayAll(SubjectOps(img, subject, now), img);
            && mid.docs == SubjectEndedIn(img.docs, subject, now)
            && mid.archive == SubjectEndedIn(img.archive, subject, now)
            && mid.nextId == img.nextId && mid.subjects == img.subjects
            && (subject.Some? ==> forall x :: !LiveVersion(mid, x, subject.value))
  {
    if subject.Some? {
      SubjectEnded(img, subject.value, now, owners);
    }
  }

  /** The state after a remember, read off the two maps. */
  lemma RememberEffect(img: Image, row: SnapshotRow, now: int, h: History)
    requires MemOk(img, h.owners)
    requires row.record.id == img.nextId && !row.archived && row.record.IsLive()
    ensures var r := ReplayAll(RememberOps(img, row, now), img);
            var subject := row.record.subject;
            && r.docs == SubjectEndedIn(img.docs, subject, now)[row.record.id := DocOf(row)]
            && r.archive == SubjectEndedIn(img.archive, subject, now) && r.nextId == img.nextId + 1
            && (subject.Some? ==> forall x :: LiveVersion(r, x, subject.value) <==> x == row.record.id)
  {
    var subject := row.record.subject;
    var first := SubjectOps(img, subject, now);
    var mid := ReplayAll(first, img);
    SubjectOpsEffect(img, subject, now, h.owners);
    assert RememberOps(img, row, now) == first + [Remember(row)];
    ReplayOne(first, Remember(row), img);
    var r := Apply(Remember(row), mid);
    if subject.Some? {
      forall x ensures LiveVersion(r, x, subject.value) <==> x == row.record.id {
        assert !LiveVersion(mid, x, subject.value);
      }
    }
  }

  /** What a consolidation in progress has dealt with: the clusters moved so far and the keywords seen. */
  datatype Part = Part(moves: seq<Move>, done: set<string>) {
    function Of(c: Call): Call {
      c.(ops := MovesOps(moves))
    }
  }

  ghost function Underway(c: Call, sc: Scoring, minCluster: nat, now: int, trace: seq<Directory>, mem: Image,
                          files: Directory, hist: History): iset<Part> {
    iset p: Part |
      && p.Of(c) in InProgress(trace, mem, files, hist) && MovesFit(p.moves, c.mem0)
      && p.done in Dealt(c.mem0.docs, c.mem0.archive, c.mem0.nextId, mem.docs, mem.archive, mem.nextId, sc, minCluster,
                         now)
  }

  lemma UnderwayHolds(c: Call, sc: Scoring, minCluster: nat, now: int, trace: seq<Directory>, mem: Image,
                      files: Directory, hist: History, p: Part)
    requires p in Underway(c, sc, minCluster, now, trace, mem, files, hist)
    ensures p.Of(c) in InProgress(trace, mem, files, hist) && MovesFit(p.moves, c.mem0)
    ensures p.done in
              Dealt(c.mem0.docs, c.mem0.archive, c.mem0.nextId, mem.docs, mem.archive, mem.nextId, sc, minCluster, now)
  {
  }

  lemma UnderwayIs(c: Call, sc: Scoring, minCluster: nat, now: int, trace: seq<Directory>, mem: Image, files: Directory,
                   hist: History, p: Part)
    requires p.Of(c) in InProgress(trace, mem, files, hist) && MovesFit(p.moves, c.mem0)
    requires p.done in
               Dealt(c.mem0.docs, c.mem0.archive, c.mem0.nextId, mem.docs, mem.archive, mem.nextId, sc, minCluster, now)
    ensures p in Underway(c, sc, minCluster, now, trace, mem, files, hist)
  {
  }

  lemma UnderwayStart(c: Call, sc: Scoring, minCluster: nat, now: int, trace: seq<Directory>, mem: Image,
                      files: Directory, hist: History, p: Part)
    requires c in InProgress(trace, mem, files, hist) && c.ops == [] && c.mem0 == mem && p == Part([], {})
    ensures p in Underway(c, sc, minCluster, now, trace, mem, files, hist)
  {
    CallHolds(c, trace, mem, files, hist);
    DealtStart(mem.docs, mem.archive, mem.nextId, sc, minCluster, now, p.done);
    assert p.Of(c) == c;
  }

  class Collection {
    const folder: Folder
    var docs: map<nat, StoredDoc>
    var archive: map<nat, StoredDoc>
    var subjects: map<string, seq<nat>>
    var nextId: nat
    var segSeq: nat
    ghost var hist: History

    function Memory(): Image
      reads this
    {
      Image(docs, archive, subjects, nextId)
    }

    ghost predicate Valid()
      reads this, folder
    {
      && MemOk(Memory(), hist.owners) && Kept(Memory(), hist)
      && Shaped(folder.files) && WAL_FILE in folder.files
      && SeqNoOf(ManifestOf(folder.files).value) == segSeq
    }

    /** Opening the directory now would give memory back. */
    ghost predicate Synced()
      reads this, folder
    {
      Durable(folder.files, Memory(), hist)
    }

    /** A call in progress: memory and directory show exactly what it has logged so far. */
    ghost predicate InCall(c: Call)
      reads this, folder
    {
      c in InProgress(folder.trace, Memory(), folder.files, hist)
    }

    constructor (folder: Folder, img: Image, segSeq: nat, ghost hist: History)
      ensures this.folder == folder && Memory() == img && this.segSeq == segSeq && this.hist == hist
    {
      this.folder := folder;
      this.docs := img.docs;
      this.archive := img.archive;
      this.subjects := img.subjects;
      this.nextId := img.nextId;
      this.segSeq := segSeq;
      this.hist := hist;
    }

    /**
     * The loop shared by `remember` and `forget_subject`: ends every listed record that is live, in
     * whichever map holds it, and logs one entry for each.
     */
    method EndListed(ids: seq<nat>, now: int) returns (n: nat, ghost ops: seq<WalOp>)
      requires Disjoint(Memory())
      modifies this`docs, this`archive, folder
      ensures ops == ForgetOps(old(Memory()), ids, now) && n == |ops|
      ensures Memory() == ReplayAll(ops, old(Memory()))
      ensures folder.files == LoggedAll(old(folder.files), ops)
      ensures Traced(old(folder.trace), folder.trace, old(folder.files), ops)
    {
      n, ops := 0, [];
      var i := 0;
      while i < |ids|
        invariant i <= |ids| && n == |ops|
        invariant Disjoint(Memory())
        invariant ops + ForgetOps(Memory(), ids[i..], now) == ForgetOps(old(Memory()), ids, now)
        invariant Memory() == ReplayAll(ops, old(Memory()))
        invariant folder.files == LoggedAll(old(folder.files), ops)
        invariant Traced(old(folder.trace), folder.trace, old(folder.files), ops)
      {
        var id := ids[i];
        ghost var before := Memory();
        ForgetOpsStep(before, ids, i, now, ops);
        var hit := false;
        if id in docs && docs[id].record.IsLive() {
          docs := docs[id := Ended(docs[id], now)];
          hit := true;
        } else if id in archive && archive[id].record.IsLive() {
          archive := archive[id := Ended(archive[id], now)];
          hit := true;
        }
        if hit {
          ghost var op := WalOp.Forget(id, now);
          assert Memory() == Apply(op, before);
          TracedAppend(old(folder.trace), folder.trace, old(folder.files), ops, op);
          ReplayOne(ops, op, old(Memory()));
          folder.Append(WalOp.Forget(id, now));
          n, ops := n + 1, ops + [op];
        }
        i := i + 1;
      }
      assert ops + [] == ops;
    }

    /** The part of `remember` that ends earlier versions of the subject. */
    method EndSubject(subject: Option<string>, now: int) returns (ghost ops: seq<WalOp>)
      requires Disjoint(Memory())
      modifies this`docs, this`archive, folder
      ensures ops == SubjectOps(old(Memory()), subject, now)
      ensures Memory() == ReplayAll(ops, old(Memory()))
      ensures folder.files == LoggedAll(old(folder.files), ops)
      ensures Traced(old(folder.trace), folder.trace, old(folder.files), ops)
    {
      ops := [];
      if subject.Some? {
        var ids := if subject.value in subjects then subjects[subject.value] else [];
        var n;
        n, ops := EndListed(ids, now);
      } else {
        assert folder.trace[..|folder.trace|] == folder.trace;
      }
    }

    /** Logs the new row, then lists and stores it. */
    method Store(row: SnapshotRow, ghost t0: seq<Directory>, ghost d0: Directory, ghost mem0: Image,
                 ghost first: seq<WalOp>)
      requires !row.archived && nextId == row.record.id + 1
      requires Memory().(nextId := row.record.id) == ReplayAll(first, mem0)
      requires folder.files == LoggedAll(d0, first) && Traced(t0, folder.trace, d0, first)
      modifies this`docs, this`subjects, folder
      ensures Memory() == ReplayAll(first + [WalOp.Remember(row)], mem0)
      ensures folder.files == LoggedAll(d0, first + [WalOp.Remember(row)])
      ensures Traced(t0, folder.trace, d0, first + [WalOp.Remember(row)])
    {
      TracedAppend(t0, folder.trace, d0, first, WalOp.Remember(row));
      ReplayOne(first, WalOp.Remember(row), mem0);
      folder.Append(WalOp.Remember(row));
      if row.record.subject.Some? {
        var s := row.record.subject.value;
        subjects := subjects[s := (if s in subjects then subjects[s] else []) + [row.record.id]];
      }
      docs := docs[row.record.id := StoredDoc(row.record, row.enc)];
    }

    /** The part of a remember that changes state: the subject's live versions end, then the new row is stored. */
    method RememberRow(row: SnapshotRow, now: int)
      requires Valid() && row.record.id == nextId && !row.archived && row.record.IsLive() && row.record.sourceIds == []
      modifies this, folder
      ensures Valid()
      ensures Performed(Remembering(row, now), old(folder.trace), folder.trace, old(folder.files), folder.files,
                        old(Memory()), Memory(), old(hist), hist)
      ensures row.record.id !in old(hist).owners
    {
      ghost var mem0, d0, t0, h0 := Memory(), folder.files, folder.trace, hist;
      ghost var first := EndSubject(row.record.subject, now);
      nextId := nextId + 1;
      Store(row, t0, d0, mem0, first);
      assert first + [WalOp.Remember(row)] == RememberOps(mem0, row, now);
      hist := ExtendAll(RememberOps(mem0, row, now), hist);
      ActionPerformed(Remembering(row, now), t0, folder.trace, d0, folder.files, mem0, Memory(), h0, hist);
    }

    /**
     * Stores a new record under the next id after ending every live version of its subject. The result
     * names the new record, every other record keeps its content, and a blank text changes nothing.
     */
    method Remember(text: string, subject: Option<string>, tags: seq<string>, importance: real,
        eventTime: Option<int>, now: int, enc: Encoding)
      returns (r: Result<nat, CollectionError>, ghost row: SnapshotRow)
      requires Valid()
      modifies this, folder
      ensures Valid()
      ensures (forall c :: c in text ==> c as int in WHITE_SPACE) ==>
                && r == Err(EmptyText)
                && Memory() == old(Memory()) && hist == old(hist) && folder.trace == old(folder.trace)
      ensures (exists c :: c in text && c as int !in WHITE_SPACE) ==>
                && r == Ok(old(nextId)) && old(nextId) !in old(hist).owners && nextId == old(nextId) + 1
                && RememberedAs(row, old(nextId), text, subject, tags, importance, eventTime, now, enc)
                && docs == SubjectEndedIn(old(docs), subject, now)[old(nextId) := StoredDoc(row.record, row.enc)]
                && archive == SubjectEndedIn(old(archive), subject, now)
                && Performed(Remembering(row, now), old(folder.trace), folder.trace, old(folder.files), folder.files,
                             old(Memory()), Memory(), old(hist), hist)
                && (subject.Some? ==> forall x :: LiveVersion(Memory(), x, subject.value) <==> x == old(nextId))
    {
      BlankIs(text);
      if IsBlank(text) {
        return Err(EmptyText), SnapshotRow(NewRecord(0, "", None, [], 0.0, 0, 0), enc, false);
      }
      var stored := RememberedRow(nextId, text, subject, tags, importance, eventTime, now, enc);
      RowRemembered(nextId, text, subject, tags, importance, eventTime, now, enc);
      row := stored;
      ghost var mem0, h0 := Memory(), hist;
      RememberRow(stored, now);
      RememberEffect(mem0, stored, now, h0);
      r := Ok(stored.record.id);
    }

    /** Appends the one operation whose effect memory already shows. */
    method LogOne(op: WalOp, ghost act: Action, ghost mem0: Image)
      requires MemOk(mem0, hist.owners) && Kept(mem0, hist) && Memory() == Apply(op, mem0)
      requires Fits(act, mem0, hist) && Logs(act, mem0) == [op]
      requires Shaped(folder.files) && SeqNoOf(ManifestOf(folder.files).value) == segSeq
      modifies this`hist, folder
      ensures Valid()
      ensures Performed(act, old(folder.trace), folder.trace, old(folder.files), folder.files,
                        mem0, Memory(), old(hist), hist)
    {
      ghost var d0, t0, h0 := folder.files, folder.trace, hist;
      folder.Append(op);
      hist := ExtendAll([op], Begun(act, hist));
      OneOp(t0, d0, mem0, op);
      ActionPerformed(act, t0, folder.trace, d0, folder.files, mem0, Memory(), h0, hist);
    }

    /** Ends one record, wherever it is stored. */
    method Forget(id: nat, now: int) returns (r: Result<(), CollectionError>)
      requires Valid()
      modifies this, folder
      ensures Valid()
      ensures r == if id in Stored(old(Memory())) then Ok(()) else Err(NotFound(id))
      ensures r.Ok? ==>
                Performed(Forgetting(id, now), old(folder.trace), folder.trace, old(folder.files), folder.files,
                          old(Memory()), Memory(), old(hist), hist)
      ensures r.Err? ==> hist == old(hist) && folder.trace == old(folder.trace) && folder.files == old(folder.files)
      ensures docs == if id in old(docs) then old(docs)[id := Ended(old(docs)[id], now)] else old(docs)
      ensures archive == if id in old(archive) then old(archive)[id := Ended(old(archive)[id], now)] else old(archive)
      ensures subjects == old(subjects) && nextId == old(nextId)
    {
      ghost var mem0 := Memory();
      if id in docs {
        docs := docs[id := Ended(docs[id], now)];
      } else if id in archive {
        archive := archive[id := Ended(archive[id], now)];
      } else {
        return Err(NotFound(id));
      }
      LogOne(WalOp.Forget(id, now), Forgetting(id, now), mem0);
      r := Ok(());
    }

    /** Ends every live record of a subject; the count is the number of live versions there were. */
    method ForgetSubject(subject: string, now: int) returns (n: nat)
      requires Valid()
      modifies this, folder
      ensures Valid()
      ensures Performed(ForgettingSubject(subject, now), old(folder.trace), folder.trace, old(folder.files),
                        folder.files, old(Memory()), Memory(), old(hist), hist)
      ensures SubjectForgotten(old(Memory()), Memory(), subject, now, n)
    {
      ghost var mem0, d0, t0, h0 := Memory(), folder.files, folder.trace, hist;
      var ids := if subject in subjects then subjects[subject] else [];
      ghost var ops;
      n, ops := EndListed(ids, now);
      ForgottenSubject(mem0, subject, now, h0);
      ActionPerformed(ForgettingSubject(subject, now), t0, folder.trace, d0, folder.files, mem0, Memory(), h0, hist);
    }

    /** Removes a stored record from memory, wherever it is. */
    method TakeOut(id: nat)
      requires id in docs || id in archive
      modifies this`docs, this`archive, this`subjects
      ensures Memory() == Apply(WalOp.HardDelete(id), old(Memory()))
      ensures Disjoint(old(Memory())) ==> docs == old(docs) - {id} && archive == old(archive) - {id}
    {
      var removed;
      if id in docs {
        removed := docs[id];
        docs := docs - {id};
      } else {
        removed := archive[id];
        archive := archive - {id};
      }
      if removed.record.subject.Some? {
        var s := removed.record.subject.value;
        if s in subjects {
          subjects := subjects[s := Without(subjects[s], id)];
        }
      }
    }

    /** Removes a record for good, also from the list of its subject; the id stays used. */
    method HardDelete(id: nat) returns (r: Result<(), CollectionError>)
      requires Valid()
      modifies this, folder
      ensures Valid()
      ensures r == if id in Stored(old(Memory())) then Ok(()) else Err(NotFound(id))
      ensures r.Ok? ==>
                && Performed(Deleting(id), old(folder.trace), folder.trace, old(folder.files), folder.files,
                             old(Memory()), Memory(), old(hist), hist)
                && forall s :: s in subjects ==> id !in subjects[s]
      ensures r.Err? ==> Memory() == old(Memory()) && hist == old(hist) && folder.trace == old(folder.trace)
      ensures docs == old(docs) - {id} && archive == old(archive) - {id}
      ensures nextId == old(nextId) && hist.owners == old(hist).owners
    {
      ghost var mem0 := Memory();
      if id !in docs && id !in archive {
        return Err(NotFound(id));
      }
      TakeOut(id);
      DeletedUnlisted(mem0, id, hist.owners);
      LogOne(WalOp.HardDelete(id), Deleting(id), mem0);
      assert ExtendAll([WalOp.HardDelete(id)], old(hist)).owners == old(hist).owners by {
        OneExtended(WalOp.HardDelete(id), old(hist));
      }
      r := Ok(());
    }

    /**
     * The last part of `recall`: every picked record counts a hit, which is logged, and the sources of
     * picked summaries are looked up, live map first.
     */
    method TouchPicked(picked: seq<nat>, now: int, expandSummaries: bool) returns (sources: seq<seq<string>>)
      requires Valid()
      requires forall id :: id in picked ==> id in docs
      modifies this`docs, folder
      ensures Valid()
      ensures Performed(Touching(picked, now), old(folder.trace), folder.trace, old(folder.files), folder.files,
                        old(Memory()), Memory(), old(hist), hist)
      ensures docs == TouchedIn(old(docs), picked, now)
      ensures SourcesMatch(sources, picked, old(Memory()), expandSummaries)
    {
      ghost var c := Call(Memory(), folder.files, folder.trace, hist, []);
      StartCall(c);
      ghost var last;
      sources, last := TouchLoop(picked, now, expandSummaries, c);
      assert last.ops == TouchOps(picked, now);
      EndCall(last, Touching(picked, now), folder.trace, folder.files, Memory(), hist);
    }

    method TouchLoop(picked: seq<nat>, now: int, expandSummaries: bool, ghost c: Call)
      returns (sources: seq<seq<string>>, ghost last: Call)
      requires InCall(c) && forall id :: id in picked ==> id in docs
      modifies this`docs, folder
      ensures InCall(last) && last == c.(ops := c.ops + TouchOps(picked, now))
      ensures docs == TouchedIn(old(docs), picked, now)
      ensures SourcesMatch(sources, picked, old(Memory()), expandSummaries)
    {
      ghost var mem0 := Memory();
      sources, last := [], c;
      assert picked[..0] == [] && picked[0..] == picked;
      assert docs == TouchedIn(mem0.docs, picked[..0], now);
      var i := 0;
      while i < |picked|
        invariant i <= |picked| && SourcesMatch(sources, picked[..i], mem0, expandSummaries)
        invariant InCall(last) && last == c.(ops := last.ops)
        invariant last.ops + TouchOps(picked[i..], now) == c.ops + TouchOps(picked, now)
        invariant docs == TouchedIn(mem0.docs, picked[..i], now)
      {
        assert picked[i] in picked;
        TouchOpsStep(picked, i, now, last.ops);
        var texts;
        texts, last := Visit(picked, i, now, expandSummaries, mem0, last);
        SourcesMatchNext(sources, picked, i, mem0, expandSummaries, texts);
        sources := sources + [texts];
        i := i + 1;
      }
      assert picked[..i] == picked && picked[i..] == [];
      assert last.ops + [] == last.ops;
    }

    /** One picked record: count the hit, log it, and look up its sources if asked to. */
    method Visit(picked: seq<nat>, i: nat, now: int, expandSummaries: bool, ghost mem0: Image, ghost c: Call)
      returns (texts: seq<string>, ghost next: Call)
      requires InCall(c) && i < |picked| && picked[i] in mem0.docs
      requires docs == TouchedIn(mem0.docs, picked[..i], now) && archive == mem0.archive
      modifies this`docs, folder
      ensures InCall(next) && next == c.Next(Touch(picked[i], now))
      ensures docs == TouchedIn(mem0.docs, picked[..i + 1], now)
      ensures texts == PickedSources(mem0, picked[i], expandSummaries)
    {
      next := TouchOne(picked[i], now, c);
      TouchedInNext(mem0.docs, picked, i, now);
      texts := [];
      if expandSummaries {
        FirstFive(docs[picked[i]].record.sourceIds);
        TouchedTexts(mem0, Memory(), picked[..i + 1], now, FirstSources(docs[picked[i]].record.sourceIds));
        texts := LookUpSources(docs[picked[i]].record.sourceIds);
      }
    }

    method TouchOne(id: nat, now: int, ghost c: Call) returns (ghost next: Call)
      requires id in docs && InCall(c)
      modifies this`docs, folder
      ensures docs == old(docs)[id := Touched(old(docs)[id], now)]
      ensures next == c.Next(Touch(id, now)) && InCall(next)
    {
      ghost var t0, mem0, d0 := folder.trace, Memory(), folder.files;
      CallHolds(c, t0, mem0, d0, hist);
      TouchKeeps(mem0, id, now, hist);
      docs := docs[id := Touched(docs[id], now)];
      folder.Append(Touch(id, now));
      next := c.Next(Touch(id, now));
      NextCall(c, Touch(id, now), t0, mem0, d0, hist, folder.trace, Memory(), folder.files, hist);
    }

    /** The texts of the first few sources that are still stored. */
    method LookUpSources(ids: seq<nat>) returns (texts: seq<string>)
      ensures texts == SourceTexts(Memory(), FirstSources(ids))
    {
      var first := FirstSources(ids);
      texts := [];
      var i := 0;
      while i < |first|
        invariant i <= |first|
        invariant texts + SourceTexts(Memory(), first[i..]) == SourceTexts(Memory(), first)
      {
        NextSource(Memory(), first, i, texts);
        if first[i] in docs {
          texts := texts + [docs[first[i]].record.text];
        } else if first[i] in archive {
          texts := texts + [archive[first[i]].record.text];
        }
        i := i + 1;
      }
      assert first[i..] == [];
    }

    /**
     * Stores a row from an export under its own id, unless that id is stored already. Opening the
     * directory right afterwards gives memory back for any id. For an id never used before, or one that is
     * reusable, the link that later checkpoints rely on is kept; the history then records the import.
     */
    method ImportRow(row: SnapshotRow) returns (imported: bool)
      requires Valid()
      modifies this, folder
      ensures imported <==> row.record.id !in Stored(old(Memory()))
      ensures !imported ==>
                Memory() == old(Memory()) && hist == old(hist) && folder.trace == old(folder.trace) && Valid()
      ensures imported ==>
                && Memory() == Apply(WalOp.Remember(row), old(Memory()))
                && folder.files == Logged(old(folder.files), WalOp.Remember(row))
                && ImportDone(row, old(folder.trace), folder.trace, old(folder.files), folder.files, old(Memory()),
                              Memory(), old(hist), hist)
      ensures old(Usable(row, Memory(), hist)) ==> Valid()
    {
      if row.record.id in docs || row.record.id in archive {
        return false;
      }
      ImportNew(row);
      imported := true;
    }

    method ImportNew(row: SnapshotRow)
      requires Valid()
      modifies this, folder
      ensures Memory() == Apply(WalOp.Remember(row), old(Memory()))
      ensures folder.files == Logged(old(folder.files), WalOp.Remember(row))
      ensures ImportDone(row, old(folder.trace), folder.trace, old(folder.files), folder.files, old(Memory()), Memory(),
                         old(hist), hist)
      ensures old(Usable(row, Memory(), hist)) ==> Valid()
    {
      ghost var mem0, d0, t0, h0 := Memory(), folder.files, folder.trace, hist;
      StoreImported(row);
      hist := ExtendAll([WalOp.Remember(row)], Begun(Importing(row), hist));
      ImportedSafe(row, t0, folder.trace, d0, folder.files, mem0, Memory(), h0, hist);
    }

    method StoreImported(row: SnapshotRow)
      modifies this`docs, this`archive, this`subjects, this`nextId, folder
      ensures Memory() == Apply(WalOp.Remember(row), old(Memory()))
      ensures folder.files == Logged(old(folder.files), WalOp.Remember(row))
      ensures folder.trace == old(folder.trace) + AppendStates(old(folder.files), WalOp.Remember(row))
    {
      if row.record.id >= nextId {
        nextId := row.record.id + 1;
      }
      folder.Append(WalOp.Remember(row));
      if row.record.subject.Some? {
        var s := row.record.subject.value;
        subjects := subjects[s := (if s in subjects then subjects[s] else []) + [row.record.id]];
      }
      if row.archived {
        archive := archive[row.record.id := StoredDoc(row.record, row.enc)];
      } else {
        docs := docs[row.record.id := StoredDoc(row.record, row.enc)];
      }
    }

    /**
     * Writes a snapshot of memory, switches the manifest to it, removes unlisted segments and starts an
     * empty log. Whatever the directory held before, opening it afterwards gives memory back exactly.
     */
    method Checkpoint(stuck: set<string>) returns (ghost rows: seq<SnapshotRow>)
      requires Valid()
      modifies this`segSeq, this`hist, folder
      ensures Valid() && Synced() && segSeq == old(segSeq) + 1
      ensures hist == CheckpointedHistory(Memory(), old(hist))
      ensures ManifestOf(folder.files) == Some(PlainManifest(Memory(), segSeq))
      ensures PlainDone(old(folder.trace), folder.trace, old(folder.files), folder.files, Memory(), old(hist), rows)
    {
      segSeq := segSeq + 1;
      rows := WritePlain(folder, Memory(), segSeq, stuck, hist);
      hist := CheckpointedHistory(Memory(), hist);
    }

    /**
     * A checkpoint that archives the log instead of dropping it. Any number of these can follow each
     * other: as long as opening the directory would have given memory back before, also with a log that
     * ends in a torn line, it does so afterwards.
     */
    method CheckpointKeepWal(now: int, stuck: set<string>)
      returns (ghost rows: seq<SnapshotRow>, ghost archives: seq<string>)
      requires Valid()
      modifies this`segSeq, this`hist, folder
      ensures Valid() && segSeq == old(segSeq) + 1 && hist == old(hist).(settled := 0)
      ensures archives == ManifestOf(old(folder.files)).value.walArchives + [ArchiveName(segSeq, now)]
      ensures ManifestOf(folder.files) == Some(KeepManifest(Memory(), segSeq, archives))
      ensures KeepDone(old(folder.trace), folder.trace, old(folder.files), folder.files, Memory(), old(hist), rows,
                       archives)
      ensures old(Survives(folder.files, Memory(), hist)) ==> Synced()
    {
      segSeq := segSeq + 1;
      var list;
      rows, list := WriteKeeping(folder, Memory(), segSeq, now, stuck, hist);
      archives := list;
      hist := hist.(settled := 0);
    }

    /** Moves one cluster to the archive and stores its summary, logging each step. */
    method ArchiveCluster(kw: string, members: seq<nat>, sc: Scoring, now: int, ghost c: Call)
      returns (ghost next: Call, ghost move: Move)
      requires InCall(c) && Distinct(members) && forall x :: x in members ==> x in docs
      modifies this`docs, this`archive, this`nextId, this`hist, folder
      ensures InCall(next) && next == c.(ops := c.ops + MoveOps(move)) && MoveFits(move, old(Memory()))
      ensures nextId == old(nextId) + 1
      ensures var row := SummaryRow(old(nextId), kw, members, old(docs), sc, now);
              && docs == (old(docs) - Elements(members))[old(nextId) := DocOf(row)]
              && archive == WithArchived(old(archive), old(docs), Elements(members))
    {
      var row := SummaryRow(nextId, kw, members, docs, sc, now);
      move := Move(members, row);
      next := ArchiveMembers(members, c);
      next := StoreSummary(row, next);
      MoveLogged(c.ops, move);
    }

    method ArchiveMember(members: seq<nat>, i: nat, ghost docs0: map<nat, StoredDoc>,
                         ghost archive0: map<nat, StoredDoc>, ghost c: Call)
      returns (ghost next: Call)
      requires InCall(c) && Distinct(members) && i < |members| && members[i] in docs0
      requires FirstArchived(docs0, archive0, members, i, docs, archive)
      modifies this`docs, this`archive, folder
      ensures InCall(next) && next == c.Next(WalOp.Archive(members[i]))
      ensures FirstArchived(docs0, archive0, members, i + 1, docs, archive)
    {
      assert members[i] !in members[..i];
      next := ArchiveOne(members[i], c);
      ArchivedNext(archive0, docs0, members, i);
    }

    method ArchiveMembers(members: seq<nat>, ghost c: Call) returns (ghost next: Call)
      requires InCall(c) && Distinct(members) && forall x :: x in members ==> x in docs
      modifies this`docs, this`archive, folder
      ensures InCall(next) && next == c.(ops := c.ops + ArchiveOps(members))
      ensures docs == old(docs) - Elements(members)
      ensures archive == WithArchived(old(archive), old(docs), Elements(members))
    {
      ghost var docs0, archive0 := docs, archive;
      next := c;
      NoneArchived(archive0, docs0, members);
      assert members[0..] == members;
      var i := 0;
      while i < |members|
        invariant i <= |members|
        invariant InCall(next) && next == c.(ops := next.ops)
        invariant next.ops + ArchiveOps(members[i..]) == c.ops + ArchiveOps(members)
        invariant FirstArchived(docs0, archive0, members, i, docs, archive)
      {
        ArchiveOpsStep(members, i, next.ops);
        next := ArchiveMember(members, i, docs0, archive0, next);
        i := i + 1;
      }
      assert members[..i] == members && members[i..] == [];
      assert next.ops + [] == next.ops;
    }

    method ArchiveOne(id: nat, ghost c: Call) returns (ghost next: Call)
      requires InCall(c) && id in docs
      modifies this`docs, this`archive, folder
      ensures docs == old(docs) - {id} && archive == old(archive)[id := old(docs)[id]]
      ensures next == c.Next(WalOp.Archive(id)) && InCall(next)
    {
      ghost var t0, mem0, d0 := folder.trace, Memory(), folder.files;
      CallHolds(c, t0, mem0, d0, hist);
      ArchiveKeeps(mem0, id, hist);
      var child := docs[id];
      docs := docs - {id};
      archive := archive[id := child];
      folder.Append(WalOp.Archive(id));
      next := c.Next(WalOp.Archive(id));
      NextCall(c, WalOp.Archive(id), t0, mem0, d0, hist, folder.trace, Memory(), folder.files, hist);
    }

    /** The sources were archived just before, so the new summary may point at them. */
    method StoreSummary(row: SnapshotRow, ghost c: Call) returns (ghost next: Call)
      requires InCall(c) && row.record.id == nextId && !row.archived
      requires row.record.subject.None? && forall x :: x in row.record.sourceIds ==> x in archive
      modifies this`docs, this`nextId, this`hist, folder
      ensures docs == old(docs)[old(nextId) := DocOf(row)] && nextId == old(nextId) + 1
      ensures next == c.Next(WalOp.Remember(row)) && InCall(next)
    {
      ghost var op := WalOp.Remember(row);
      ghost var t0, mem0, d0, h0 := folder.trace, Memory(), folder.files, hist;
      CallHolds(c, t0, mem0, d0, h0);
      SummaryKeeps(mem0, row, h0);
      nextId := nextId + 1;
      folder.Append(WalOp.Remember(row));
      docs := docs[row.record.id := StoredDoc(row.record, row.enc)];
      hist := Extend(op, hist);
      next := c.Next(op);
      NextCall(c, op, t0, mem0, d0, h0, folder.trace, Memory(), folder.files, hist);
    }

    /** A cluster at the threshold: sorted by salience, archived, and summarised. */
    method BigCluster(kw: string, ids: seq<nat>, sc: Scoring, minCluster: nat, now: int, ghost done: set<string>,
        ghost c: Call)
      returns (size: nat, ghost next: Call, ghost move: Move)
      requires InCall(c) && kw !in done && Big(c.mem0.docs, sc, minCluster, kw)
      requires Distinct(ids) && |ids| > 0 && forall x :: x in ids <==> x in Cluster(c.mem0.docs, sc, kw)
      requires forall x :: x in ids ==> x in docs && docs[x] == c.mem0.docs[x]
      requires forall x :: x in c.mem0.docs ==> x < c.mem0.nextId && x !in c.mem0.archive
      requires done in Dealt(c.mem0.docs, c.mem0.archive, c.mem0.nextId, docs, archive, nextId, sc, minCluster, now)
      modifies this`docs, this`archive, this`nextId, this`hist, folder
      ensures InCall(next) && next == c.(ops := c.ops + MoveOps(move)) && MoveFits(move, old(Memory()))
      ensures done + {kw} in Dealt(c.mem0.docs, c.mem0.archive, c.mem0.nextId, docs, archive, nextId, sc, minCluster,
                                   now)
      ensures nextId == old(nextId) + 1 && |archive| == |old(archive)| + size && size > 0
    {
      var members := SortBy(ids, BySalience(docs, sc));
      SortedMembers(ids, members, BySalience(docs, sc));
      ghost var row := SummaryRow(nextId, kw, members, docs, sc, now);
      ghost var docs1, archive1 := docs, archive;
      ClusterSummarized(c.mem0.docs, docs, sc, minCluster, kw, members, row, nextId, now);
      ArchivedSize(docs, archive, members);
      next, move := ArchiveCluster(kw, members, sc, now, c);
      DealtNext(c.mem0.docs, c.mem0.archive, c.mem0.nextId, docs1, archive1, old(nextId), sc, minCluster, now, done,
                kw, row, Elements(members), docs, archive, nextId, done + {kw});
      size := |members|;
    }

    /** The clusters of `part`, and no others, have been dealt with since `c` began. */
    ghost predicate Dealing(c: Call, sc: Scoring, minCluster: nat, now: int, part: Part)
      reads this, folder
    {
      part in Underway(c, sc, minCluster, now, folder.trace, Memory(), folder.files, hist)
    }

    /** One pass of the cluster loop; the size returned is 0 when the cluster was too small. */
    method OneCluster(groups: Groups, kw: string, sc: Scoring, minCluster: nat, now: int, ghost c: Call,
        ghost part: Part)
      returns (size: nat, ghost more: Part)
      requires Dealing(c, sc, minCluster, now, part) && kw in groups && kw !in part.done
      requires c.mem0 in Grouped(groups, sc, c.h0.owners)
      modifies this`docs, this`archive, this`nextId, this`hist, folder
      ensures Dealing(c, sc, minCluster, now, more) && more.done == part.done + {kw}
      ensures nextId == old(nextId) + (if size > 0 then 1 else 0) && |archive| == |old(archive)| + size
    {
      UnderwayHolds(c, sc, minCluster, now, folder.trace, Memory(), folder.files, hist, part);
      ClusterMembers(groups, c.mem0, c.h0.owners, sc, kw, docs, archive, nextId, minCluster, now, part.done);
      if |groups[kw]| >= minCluster && |groups[kw]| > 0 {
        ghost var next, move;
        size, next, move := BigCluster(kw, groups[kw], sc, minCluster, now, part.done, part.Of(c));
        MovesFitAppend(part.moves, move, c.mem0);
        more := Part(part.moves + [move], part.done + {kw});
      } else {
        size, more := 0, Part(part.moves, part.done + {kw});
        DealtSkip(c.mem0.docs, c.mem0.archive, c.mem0.nextId, docs, archive, nextId, sc, minCluster, now, part.done, kw,
                  more.done);
      }
      UnderwayIs(c, sc, minCluster, now, folder.trace, Memory(), folder.files, hist, more);
    }

    /**
     * Groups cold records by keyword, moves every large enough cluster to the archive, and leaves one
     * live summary per cluster whose sources are exactly that cluster.
     */
    method ConsolidateClusters(sc: Scoring, minCluster: nat, now: int)
      returns (clusters: nat, archived: nat, ghost moves: seq<Move>)
      requires Valid()
      modifies this`docs, this`archive, this`nextId, this`hist, folder
      ensures Valid()
      ensures Performed(Consolidating(moves), old(folder.trace), folder.trace, old(folder.files), folder.files,
                        old(Memory()), Memory(), old(hist), hist)
      ensures ColdMoved(old(docs), old(archive), docs, archive, sc, minCluster)
      ensures ColdSummarized(old(docs), old(nextId), docs, nextId, sc, minCluster, now)
      ensures clusters == nextId - old(nextId) && archived == |archive| - |old(archive)|
    {
      ghost var c := Call(Memory(), folder.files, folder.trace, hist, []);
      StartCall(c);
      var groups := GroupCold(docs, sc);
      ghost var part;
      clusters, archived, part := ClusterLoop(groups, sc, minCluster, now, c);
      UnderwayHolds(c, sc, minCluster, now, folder.trace, Memory(), folder.files, hist, part);
      moves := part.moves;
      ClustersDone(groups, c.mem0, c.h0.owners, docs, archive, nextId, sc, minCluster, now, part.done);
      EndCall(part.Of(c), Consolidating(moves), folder.trace, folder.files, Memory(), hist);
    }

    /** The keywords come in whatever order the map yields them. */
    method ClusterLoop(groups: Groups, sc: Scoring, minCluster: nat, now: int, ghost c: Call)
      returns (clusters: nat, archived: nat, ghost part: Part)
      requires InCall(c) && c.ops == [] && c.mem0 == Memory() && c.mem0 in Grouped(groups, sc, c.h0.owners)
      modifies this`docs, this`archive, this`nextId, this`hist, folder
      ensures Dealing(c, sc, minCluster, now, part) && part.done == groups.Keys
      ensures clusters == nextId - old(nextId) && archived == |archive| - |old(archive)|
    {
      ghost var next0, size0 := nextId, |archive|;
      part := Part([], {});
      var todo := groups.Keys;
      clusters, archived := 0, 0;
      UnderwayStart(c, sc, minCluster, now, folder.trace, Memory(), folder.files, hist, part);
      while todo != {}
        invariant Splits(groups.Keys, todo, part.done)
        invariant Dealing(c, sc, minCluster, now, part)
        invariant clusters == nextId - next0 && archived == |archive| - size0
        decreases todo
      {
        var kw :| kw in todo;
        SplitOff(groups.Keys, todo, part.done, kw);
        todo := todo - {kw};
        var size;
        size, part := OneCluster(groups, kw, sc, minCluster, now, c, part);
        if size > 0 {
          clusters, archived := clusters + 1, archived + size;
        }
      }
      assert part.done == groups.Keys;
    }

    /** The checkpoint that follows the clusters, if there were any. */
    method SettleClusters(clusters: nat, stuck: set<string>, ghost moves: seq<Move>, ghost t0: seq<Directory>,
        ghost d0: Directory, ghost mem0: Image, ghost h0: History)
      requires Valid()
      requires Performed(Consolidating(moves), t0, folder.trace, d0, folder.files, mem0, Memory(), h0, hist)
      modifies this`segSeq, this`hist, folder
      ensures Valid() && (clusters > 0 || Durable(d0, mem0, h0) ==> Synced())
      ensures clusters == 0 ==> segSeq == old(segSeq)
      ensures ConsolidateTrace(t0, folder.trace, d0, mem0, Memory(), h0, moves, hist)
    {
      ghost var t1, d1, h1, mem1 := folder.trace, folder.files, hist, Memory();
      if clusters > 0 {
        ghost var rows := Checkpoint(stuck);
        TwoPhases(t0, t1, folder.trace, d0, d1, folder.files, mem0, mem1, moves, h0, h1, rows);
      } else {
        OnePhase(t0, t1, d0, d1, mem0, mem1, moves, h0, h1);
      }
    }

    /**
     * Consolidation ends with a checkpoint if it created anything. A crash while clusters are being
     * logged recovers a prefix of them; a crash during the checkpoint recovers all of them.
     */
    method Consolidate(sc: Scoring, minCluster: nat, now: int, stuck: set<string>)
      returns (clusters: nat, archived: nat, ghost moves: seq<Move>)
      requires Valid()
      modifies this, folder
      ensures Valid() && (clusters > 0 || old(Synced()) ==> Synced())
      ensures MovesFit(moves, old(Memory())) && Memory() == ReplayAll(MovesOps(moves), old(Memory()))
      ensures ColdMoved(old(docs), old(archive), docs, archive, sc, minCluster)
      ensures ColdSummarized(old(docs), old(nextId), docs, nextId, sc, minCluster, now)
      ensures clusters == nextId - old(nextId) && archived == |archive| - |old(archive)|
      ensures clusters == 0 ==> segSeq == old(segSeq)
      ensures ConsolidateTrace(old(folder.trace), folder.trace, old(folder.files), old(Memory()), Memory(), old(hist),
                               moves, hist)
    {
      ghost var mem0, t0, d0, h0 := Memory(), folder.trace, folder.files, hist;
      clusters, archived, moves := ConsolidateClusters(sc, minCluster, now);
      SettleClusters(clusters, stuck, moves, t0, d0, mem0, h0);
    }

    /**
     * Drops records that ended, or archived history that happened, longer ago than the retention, except
     * summaries and sources of live summaries, and checkpoints.
     */
    method Compact(retention: nat, now: int, stuck: set<string>)
      returns (removedDocs: nat, removedArchived: nat, ghost referenced: set<nat>)
      requires Valid()
      modifies this, folder
      ensures Valid() && Synced()
      ensures forall sid :: sid in referenced <==> Referenced(old(docs), old(archive), sid)
      ensures Memory() == Compacted(old(Memory()), referenced, now, retention)
      ensures retention < 0x1_0000_0000_0000_0000 ==>
                DeadRemoved(old(docs), old(archive), docs, archive, now, retention)
      ensures subjects == old(subjects) && nextId == old(nextId)
      ensures removedDocs == |old(docs)| - |docs| && removedArchived == |old(archive)| - |archive|
      ensures |old(folder.trace)| <= |folder.trace|
      ensures old(Survives(folder.files, Memory(), hist)) ==>
                CompactTrace(folder.trace, |old(folder.trace)|, old(folder.files), old(Memory()), Memory())
    {
      ghost var before, d0, t0, h0 := Memory(), folder.files, folder.trace, hist;
      removedDocs, removedArchived, referenced := DropDead(retention, now);
      if retention < 0x1_0000_0000_0000_0000 {
        DroppedRightly(before, Memory(), referenced, now, retention, h0.owners);
      }
      ghost var rows := Checkpoint(stuck);
      if Survives(d0, before, h0) {
        CompactTraced(folder.trace, |t0|, d0, before, Memory(), rows, h0);
      }
    }

    /** The part of compaction that only touches memory; nothing of it is logged. */
    method DropDead(retention: nat, now: int)
      returns (removedDocs: nat, removedArchived: nat, ghost referenced: set<nat>)
      requires Valid()
      modifies this`docs, this`archive
      ensures Valid() && DropsFrom(old(Memory()), Memory()) && KeepsSources(old(Memory()), Memory())
      ensures forall sid :: sid in referenced <==> Referenced(old(docs), old(archive), sid)
      ensures Memory() == Compacted(old(Memory()), referenced, now, retention)
      ensures removedDocs == |old(docs)| - |docs| && removedArchived == |old(archive)| - |archive|
    {
      var before := Memory();
      var after;
      after, removedDocs, removedArchived, referenced := CompactMaps(before, now, retention);
      CompactKeeps(before, referenced, now, retention, hist);
      SetMaps(after);
    }

    method SetMaps(after: Image)
      requires after.subjects == subjects && after.nextId == nextId
      modifies this`docs, this`archive
      ensures Memory() == after
    {
      docs, archive := after.docs, after.archive;
    }
  }

  /**
   * The replay closure of `open` runs over one log file until a line does not parse, or fails on one that
   * is not UTF-8.
   */
  method ReplayLog(d: Directory, name: string, start: Image) returns (r: Option<Image>)
    ensures r == if ReadableIn(d, name) then Some(ReplayAll(OpsIn(d, name), start)) else None
  {
    var img := start;
    if name in d && d[name].LogFile? {
      var lines := d[name].lines;
      var i := 0;
      while i < |lines|
        invariant i <= |lines|
        invariant Readable(lines[i..]) <==> Readable(lines)
        invariant ReplayAll(ParsedOps(lines[i..]), img) == ReplayAll(ParsedOps(lines), start)
      {
        assert lines[i..][1..] == lines[i + 1..];
        if lines[i].Broken? {
          return None;
        }
        if !Parses(lines[i]) {
          break;
        }
        img := Apply(lines[i].op, img);
        i := i + 1;
      }
      assert i < |lines| || lines[i..] == [];
    }
    r := Some(img);
  }

  method LoadSnapshotRows(rows: seq<SnapshotRow>, start: Image) returns (img: Image)
    ensures img == LoadRows(rows, start)
  {
    img := start;
    var i := 0;
    while i < |rows|
      invariant i <= |rows|
      invariant LoadRows(rows[i..], img) == LoadRows(rows, start)
    {
      assert rows[i..][1..] == rows[i + 1..];
      img := RouteRow(rows[i], img);
      i := i + 1;
    }
    assert rows[i..] == [];
  }

  /** The first loop of `open`: every listed segment must exist. */
  method LoadSnapshots(d: Directory, names: seq<string>, start: Image) returns (r: Option<Image>)
    ensures r == LoadSegments(d, names, start)
  {
    var img := start;
    var i := 0;
    while i < |names|
      invariant i <= |names|
      invariant LoadSegments(d, names[i..], img) == LoadSegments(d, names, start)
    {
      assert names[i..][1..] == names[i + 1..];
      if names[i] !in d || !d[names[i]].SegmentFile? {
        return None;
      }
      img := LoadSnapshotRows(d[names[i]].rows, img);
      i := i + 1;
    }
    assert names[i..] == [];
    r := Some(img);
  }

  lemma NextArchive(d: Directory, names: seq<string>, i: nat, img: Image)
    requires i < |names|
    ensures ReplayAll(ArchivedOps(d, names[i..]), img) ==
            ReplayAll(ArchivedOps(d, names[i + 1..]), ReplayAll(OpsIn(d, names[i]), img))
  {
    assert names[i..][0] == names[i] && names[i..][1..] == names[i + 1..];
    ReplayAppend(OpsIn(d, names[i]), ArchivedOps(d, names[i + 1..]), img);
  }

  method ReplayArchives(d: Directory, names: seq<string>, start: Image) returns (r: Option<Image>)
    ensures r.Some? <==> forall n :: n in names ==> ReadableIn(d, n)
    ensures r.Some? ==> r.value == ReplayAll(ArchivedOps(d, names), start)
  {
    var img := start;
    var i := 0;
    assert names[0..] == names;
    while i < |names|
      invariant i <= |names|
      invariant forall j :: 0 <= j < i ==> ReadableIn(d, names[j])
      invariant ReplayAll(ArchivedOps(d, names[i..]), img) == ReplayAll(ArchivedOps(d, names), start)
    {
      NextArchive(d, names, i, img);
      var next := ReplayLog(d, names[i], img);
      if next.None? {
        assert names[i] in names;
        return None;
      }
      img := next.value;
      i := i + 1;
    }
    assert names[i..] == [];
    r := Some(img);
  }

  /**
   * `Collection::open`: reads the manifest, the segments, the archived logs and the live log in turn. It
   * fails exactly when recovery does, and otherwise yields the recovered image; a directory that survives
   * gives a collection linked to it.
   */
  method Open(folder: Folder, ghost mem: Image, ghost h: History) returns (r: Result<Collection, OpenError>)
    modifies folder
    ensures r.Ok? <==> Recover(old(folder.files)).Ok?
    ensures r.Err? ==> r.error == Recover(old(folder.files)).error && folder.files == old(folder.files)
    ensures r.Ok? ==>
              && fresh(r.value) && r.value.folder == folder
              && r.value.Memory() == Recover(old(folder.files)).value
              && folder.files == WithLog(old(folder.files))
    ensures r.Ok? && Survives(old(folder.files), mem, h) ==>
              && r.value.Valid() && r.value.hist == h
              && ViewOf(folder.files) == ViewOf(old(folder.files))
              && Survives(folder.files, r.value.Memory(), h)
              && Grows(mem, r.value.Memory())
              && (old(WAL_FILE in folder.files ==> WalClean(folder.files)) ==> r.value.Synced())
  {
    var d := folder.files;
    var manifest := ManifestOf(d);
    if manifest.None? {
      return Err(UnreadableManifest);
    }
    var m := manifest.value;
    var loaded := LoadSnapshots(d, m.snapshots, EmptyImage(1));
    BumpedSegments(d, m.snapshots, EmptyImage(1), m.nextId);
    if loaded.None? {
      return Err(MissingSnapshot);
    }
    var archived := ReplayArchives(d, m.walArchives, loaded.value);
    if archived.None? {
      return Err(UnreadableLog);
    }
    var live := ReplayLog(d, WAL_FILE, archived.value);
    if live.None? {
      return Err(UnreadableLog);
    }
    ReplayAppend(ArchivedOps(d, m.walArchives), OpsIn(d, WAL_FILE), loaded.value);
    BumpedReplay(ArchivedOps(d, m.walArchives) + OpsIn(d, WAL_FILE), loaded.value, m.nextId);
    var img := live.value.(nextId := Max(m.nextId, live.value.nextId));
    assert Recover(d) == Ok(img);
    if WAL_FILE !in folder.files {
      folder.Put(WAL_FILE, LogFile([]));
    }
    var c := new Collection(folder, img, SeqNoOf(m), h);
    if Survives(d, mem, h) {
      OpenedSurvives(d, folder.files, mem, h);
    }
    r := Ok(c);
  }

  /** Opening a log for appending creates it if it is missing. */
  function WithLog(d: Directory): Directory {
    if WAL_FILE in d then d else d[WAL_FILE := LogFile([])]
  }

  /** The image with its counter raised to at least `n`. */
  function Bumped(img: Image, n: nat): Image {
    img.(nextId := Max(n, img.nextId))
  }

  lemma {:induction false} BumpedReplay(ops: seq<WalOp>, img: Image, n: nat)
    ensures ReplayAll(ops, Bumped(img, n)) == Bumped(ReplayAll(ops, img), n)
  {
    if ops != [] {
      assert Apply(ops[0], Bumped(img, n)) == Bumped(Apply(ops[0], img), n);
      BumpedReplay(ops[1..], Apply(ops[0], img), n);
    }
  }

  lemma {:induction false} BumpedRows(rows: seq<SnapshotRow>, img: Image, n: nat)
    ensures LoadRows(rows, Bumped(img, n)) == Bumped(LoadRows(rows, img), n)
  {
    if rows != [] {
      assert RouteRow(rows[0], Bumped(img, n)) == Bumped(RouteRow(rows[0], img), n);
      BumpedRows(rows[1..], RouteRow(rows[0], img), n);
    }
  }

  /** Taking the maximum with the manifest's counter last or first makes no difference. */
  lemma {:induction false} BumpedSegments(d: Directory, names: seq<string>, img: Image, n: nat)
    ensures LoadSegments(d, names, Bumped(img, n)) ==
            match LoadSegments(d, names, img) case None => None case Some(i) => Some(Bumped(i, n))
  {
    if names != [] && names[0] in d && d[names[0]].SegmentFile? {
      BumpedRows(d[names[0]].rows, img, n);
      BumpedSegments(d, names[1..], LoadRows(d[names[0]].rows, img), n);
    }
  }

  lemma OpenedSurvives(d: Directory, e: Directory, mem: Image, h: History)
    requires Survives(d, mem, h) && e == WithLog(d)
    ensures Survives(e, Recover(d).value, h) && Grows(mem, Recover(d).value)
    ensures MemOk(Recover(d).value, h.owners) && Kept(Recover(d).value, h)
    ensures WAL_FILE in e && ((WAL_FILE in d ==> WalClean(d)) ==> WalClean(e))
    ensures ViewOf(e) == ViewOf(d) && ManifestOf(e) == ManifestOf(d)
  {
    if WAL_FILE !in d {
      NewLogView(d);
    }
    SurvivorRecovers(d, mem, h);
    assert Survives(e, mem, h);
    ReopenSurvives(e, mem, h);
    assert Recover(e) == Recover(d);
  }

  /** If memory and directory were linked, a crash leaves a prefix of the clusters, or all of them. */
  ghost predicate ConsolidateTrace(t0: seq<Directory>, t1: seq<Directory>, d0: Directory, mem0: Image, mem1: Image,
                                   h0: History, moves: seq<Move>, h1: History) {
    && |t0| <= |t1|
    && (Durable(d0, mem0, h0) ==> forall k :: |t0| <= k < |t1| ==>
          CrashOutcome(t1[k], d0, mem0, MovesOps(moves), h1) || OpensTo(t1[k], mem1, false))
  }

  lemma OnePhase(t0: seq<Directory>, t1: seq<Directory>, d0: Directory, d1: Directory, mem0: Image, mem1: Image,
                 moves: seq<Move>, h0: History, h1: History)
    requires Performed(Consolidating(moves), t0, t1, d0, d1, mem0, mem1, h0, h1)
    ensures ConsolidateTrace(t0, t1, d0, mem0, mem1, h0, moves, h1)
    ensures Durable(d0, mem0, h0) ==> Durable(d1, mem1, h1)
  {
    assert Logs(Consolidating(moves), mem0) == MovesOps(moves);
  }

  lemma TwoPhases(t0: seq<Directory>, t1: seq<Directory>, t2: seq<Directory>, d0: Directory, d1: Directory,
                  d2: Directory, mem0: Image, mem1: Image, moves: seq<Move>, h0: History, h1: History,
                  rows: seq<SnapshotRow>)
    requires Performed(Consolidating(moves), t0, t1, d0, d1, mem0, mem1, h0, h1)
    requires PlainDone(t1, t2, d1, d2, mem1, h1, rows)
    ensures ConsolidateTrace(t0, t2, d0, mem0, mem1, h0, moves, CheckpointedHistory(mem1, h1))
  {
    OnePhase(t0, t1, d0, d1, mem0, mem1, moves, h0, h1);
    if Durable(d0, mem0, h0) {
      forall k | |t0| <= k < |t2|
        ensures || CrashOutcome(t2[k], d0, mem0, MovesOps(moves), CheckpointedHistory(mem1, h1))
                || OpensTo(t2[k], mem1, false)
      {
        if k < |t1| {
          FirstPhase(t0, t1, t2, d0, mem0, mem1, moves, h0, h1, k);
        }
      }
    }
  }

  lemma FirstPhase(t0: seq<Directory>, t1: seq<Directory>, t2: seq<Directory>, d0: Directory, mem0: Image, mem1: Image,
                   moves: seq<Move>, h0: History, h1: History, k: nat)
    requires ConsolidateTrace(t0, t1, d0, mem0, mem1, h0, moves, h1) && Durable(d0, mem0, h0)
    requires |t0| <= k < |t1| <= |t2| && t2[..|t1|] == t1
    ensures || CrashOutcome(t2[k], d0, mem0, MovesOps(moves), CheckpointedHistory(mem1, h1))
            || OpensTo(t2[k], mem1, false)
  {
    assert t2[k] == t2[..|t1|][k];
    SamePromises(t1[k], d0, mem0, MovesOps(moves), h1, CheckpointedHistory(mem1, h1));
  }

  lemma SamePromises(e: Directory, d: Directory, mem: Image, ops: seq<WalOp>, g: History, h: History)
    requires g.imported == h.imported && g.deleted == h.deleted
    ensures CrashOutcome(e, d, mem, ops, g) <==> CrashOutcome(e, d, mem, ops, h)
  {
  }

  /** The sort key of cluster members: highest salience first. */
  function BySalience(docs: map<nat, StoredDoc>, sc: Scoring): nat -> real {
    id => if id in docs then -sc.salience(docs[id]) else 0.0
  }

  function Elements(ids: seq<nat>): set<nat> {
    set x | x in ids
  }

  lemma MergedSize(a: map<nat, StoredDoc>, b: map<nat, StoredDoc>, ids: set<nat>)
    requires b.Keys == ids && a.Keys !! ids
    ensures |a + b| == |a| + |ids|
  {
    assert (a + b).Keys == a.Keys + ids;
    assert |(a + b).Keys| == |a.Keys| + |ids|;
  }

  lemma ArchivedSize(docs: map<nat, StoredDoc>, archive: map<nat, StoredDoc>, members: seq<nat>)
    requires Distinct(members) && forall x :: x in members ==> x in docs && x !in archive
    ensures |WithArchived(archive, docs, Elements(members))| == |archive| + |members|
  {
    var ids := Elements(members);
    DistinctSize(members, ids);
    MergedSize(archive, map x | x in docs && x in ids :: docs[x], ids);
  }

  /** The first `i` members have moved to the archive. */
  predicate FirstArchived(docs0: map<nat, StoredDoc>, archive0: map<nat, StoredDoc>, members: seq<nat>, i: nat,
                          docs: map<nat, StoredDoc>, archive: map<nat, StoredDoc>)
    requires i <= |members|
  {
    docs == docs0 - Elements(members[..i]) && archive == WithArchived(archive0, docs0, Elements(members[..i]))
  }

  lemma NoneArchived(archive0: map<nat, StoredDoc>, docs0: map<nat, StoredDoc>, members: seq<nat>)
    ensures docs0 == docs0 - Elements(members[..0])
    ensures archive0 == WithArchived(archive0, docs0, Elements(members[..0]))
  {
  }

  lemma ArchivedNext(archive0: map<nat, StoredDoc>, docs0: map<nat, StoredDoc>, members: seq<nat>, i: nat)
    requires i < |members| && members[i] in docs0 && members[i] !in members[..i]
    ensures Elements(members[..i + 1]) == Elements(members[..i]) + {members[i]}
    ensures docs0 - Elements(members[..i + 1]) == (docs0 - Elements(members[..i])) - {members[i]}
    ensures WithArchived(archive0, docs0, Elements(members[..i + 1])) ==
            WithArchived(archive0, docs0, Elements(members[..i]))[members[i] := docs0[members[i]]]
  {
    assert members[..i + 1] == members[..i] + [members[i]];
  }

  /** The images whose cold records these groups hold. */
  ghost function Grouped(groups: Groups, sc: Scoring, owners: Owners): iset<Image> {
    iset img: Image | MemOk(img, owners) && GroupsOk(groups, img.docs, sc, img.docs.Keys)
  }

  lemma SortedMembers(ids: seq<nat>, members: seq<nat>, key: nat -> real)
    requires Distinct(ids) && members == SortBy(ids, key)
    ensures Distinct(members) && |members| == |ids| && SortedBy(members, key)
    ensures forall x :: x in members <==> x in ids
  {
    SortBySorts(ids, key);
    PermutationDistinct(ids, members);
  }

  lemma ClusterMembers(groups: Groups, mem0: Image, owners: Owners, sc: Scoring, kw: string,
                       docs: map<nat, StoredDoc>, archive: map<nat, StoredDoc>, next: nat, minCluster: nat, now: int,
                       done: set<string>)
    requires mem0 in Grouped(groups, sc, owners) && kw in groups && kw !in done
    requires done in Dealt(mem0.docs, mem0.archive, mem0.nextId, docs, archive, next, sc, minCluster, now)
    ensures Distinct(groups[kw]) && forall x :: x in groups[kw] <==> x in Cluster(mem0.docs, sc, kw)
    ensures |groups[kw]| == |Cluster(mem0.docs, sc, kw)|
    ensures forall x :: x in groups[kw] ==> x in docs && docs[x] == mem0.docs[x]
    ensures |groups[kw]| >= minCluster && |groups[kw]| > 0 <==> Big(mem0.docs, sc, minCluster, kw)
    ensures forall x :: x in mem0.docs ==> x < mem0.nextId && x !in mem0.archive
  {
    GroupIsCluster(groups, mem0.docs, sc, kw);
    DistinctSize(groups[kw], Cluster(mem0.docs, sc, kw));
    forall x | x in groups[kw] ensures x in docs && docs[x] == mem0.docs[x] {
      StillThere(mem0.docs, mem0.archive, docs, archive, sc, minCluster, done, kw, x);
    }
  }

  lemma GroupIsCluster(groups: Groups, docs: map<nat, StoredDoc>, sc: Scoring, kw: string)
    requires GroupsOk(groups, docs, sc, docs.Keys) && kw in groups
    ensures Distinct(groups[kw]) && forall x :: x in groups[kw] <==> x in Cluster(docs, sc, kw)
  {
    assert Members(groups, kw) == groups[kw];
    assert Distinct(Members(groups, kw));
    forall x ensures x in groups[kw] <==> x in Cluster(docs, sc, kw) {
      assert x in Members(groups, kw) <==> x in docs.Keys && x in Cluster(docs, sc, kw);
    }
  }

  /** The records of a cluster not yet dealt with are where they were. */
  lemma StillThere(docs0: map<nat, StoredDoc>, archive0: map<nat, StoredDoc>, docs: map<nat, StoredDoc>,
                   archive: map<nat, StoredDoc>, sc: Scoring, minCluster: nat, done: set<string>, kw: string, x: nat)
    requires MovedOk(docs0, archive0, docs, archive, sc, minCluster, done)
    requires x in Cluster(docs0, sc, kw) && kw !in done
    ensures x in docs && docs[x] == docs0[x]
  {
    assert !Moves(docs0, sc, minCluster, done, x);
  }

  lemma ClusterSummarized(docs0: map<nat, StoredDoc>, docs: map<nat, StoredDoc>, sc: Scoring, minCluster: nat,
                          kw: string, members: seq<nat>, row: SnapshotRow, id: nat, now: int)
    requires Big(docs0, sc, minCluster, kw) && Distinct(members)
    requires forall x :: x in members <==> x in Cluster(docs0, sc, kw)
    requires forall x :: x in members ==> x in docs && docs[x] == docs0[x]
    requires row == SummaryRow(id, kw, members, docs, sc, now) && SortedBy(members, BySalience(docs, sc))
    ensures Summarizes(DocOf(row), docs0, sc, minCluster, now, {kw})
    ensures Elements(members) == Cluster(docs0, sc, kw)
  {
    var d := DocOf(row);
    var ids := set x | x in members;
    assert ids == Cluster(docs0, sc, kw);
    MaxImportancePeak(docs, members);
    LatestEventLatest(docs, members);
    var some :| some in ids;
    assert some in members;
    assert PeakImportance(d.record.importance, docs, ids);
    assert LatestEventTime(d.record.eventTime, docs, ids);
    SamePeaks(docs, docs0, ids, d.record.importance, d.record.eventTime);
    assert d.record.tags[0] == SUMMARY_TAG;
    MostSalientFirst(docs, docs0, sc, members);
    assert SourcesAre(DocsOf(docs, members), docs0, members);
    assert SummaryOf(d, docs0, sc, minCluster, now, kw);
  }

  lemma MostSalientFirst(docs: map<nat, StoredDoc>, docs0: map<nat, StoredDoc>, sc: Scoring, members: seq<nat>)
    requires SortedBy(members, BySalience(docs, sc))
    requires forall x :: x in members ==> x in docs && x in docs0 && docs[x] == docs0[x]
    ensures SalienceFalls(docs0, sc, members) && SourcesAre(DocsOf(docs, members), docs0, members)
  {
    forall i, j | 0 <= i < j < |members|
      ensures members[i] in docs0 && members[j] in docs0
      ensures sc.salience(docs0[members[i]]) >= sc.salience(docs0[members[j]])
    {
      assert members[i] in members && members[j] in members;
      assert BySalience(docs, sc)(members[i]) <= BySalience(docs, sc)(members[j]);
    }
    DocsOfSources(docs, members);
    forall i | 0 <= i < |members| ensures members[i] in docs0 && DocsOf(docs, members)[i] == docs0[members[i]] {
      assert members[i] in members;
    }
  }

  lemma SamePeaks(a: map<nat, StoredDoc>, b: map<nat, StoredDoc>, ids: set<nat>, r: real, t: int)
    requires forall x :: x in ids ==> x in a && x in b && a[x] == b[x]
    requires PeakImportance(r, a, ids) && LatestEventTime(t, a, ids)
    ensures PeakImportance(r, b, ids) && LatestEventTime(t, b, ids)
  {
    var x :| x in ids && x in a && a[x].record.eventTime == t;
    assert x in b && b[x].record.eventTime == t;
    if r != 0.0 {
      var y :| y in ids && y in a && a[y].record.importance == r;
      assert y in b && b[y].record.importance == r;
    }
  }

  /** Keywords without a group have no cluster, so all of them are dealt with. */
  lemma KeywordsDone(groups: Groups, docs0: map<nat, StoredDoc>, archive0: map<nat, StoredDoc>, next0: nat,
                     docs: map<nat, StoredDoc>, archive: map<nat, StoredDoc>, next: nat,
                     sc: Scoring, minCluster: nat, now: int, done: set<string>)
    requires GroupsOk(groups, docs0, sc, docs0.Keys) && done == groups.Keys
    requires Consolidated(docs0, archive0, next0, docs, archive, next, sc, minCluster, now, done)
    ensures Consolidated(docs0, archive0, next0, docs, archive, next, sc, minCluster, now, Keywords(docs0, sc))
  {
    var all := Keywords(docs0, sc);
    forall x | x in docs0 && Eligible(docs0[x], sc) && GroupKey(docs0[x], sc).Some?
      ensures GroupKey(docs0[x], sc).value in done && GroupKey(docs0[x], sc).value in all
    {
      var kw := GroupKey(docs0[x], sc).value;
      assert x in Cluster(docs0, sc, kw);
      assert x in Members(groups, kw);
    }
    forall x ensures Moves(docs0, sc, minCluster, done, x) <==> Moves(docs0, sc, minCluster, all, x) {}
    forall x | x in docs && x !in docs0 ensures Summarizes(docs[x], docs0, sc, minCluster, now, all) {
      var kw :| kw in done && SummaryOf(docs[x], docs0, sc, minCluster, now, kw);
      var y :| y in Cluster(docs0, sc, kw);
      assert GroupKey(docs0[y], sc).value in all;
    }
    forall x | Moves(docs0, sc, minCluster, all, x) ensures HasSummary(docs, next0, next, x) {
      assert Moves(docs0, sc, minCluster, done, x);
    }
  }

  lemma DroppedRightly(before: Image, after: Image, referenced: set<nat>, now: int, retention: nat, owners: Owners)
    requires MemOk(before, owners) && after == Compacted(before, referenced, now, retention)
    requires retention < 0x1_0000_0000_0000_0000
    requires forall sid :: sid in referenced <==> Referenced(before.docs, before.archive, sid)
    ensures DeadRemoved(before.docs, before.archive, after.docs, after.archive, now, retention)
  {
    CompactedRightly(before, referenced, now, retention);
  }

  lemma ClustersDone(groups: Groups, mem0: Image, owners: Owners, docs: map<nat, StoredDoc>,
                     archive: map<nat, StoredDoc>, next: nat, sc: Scoring, minCluster: nat, now: int,
                     done: set<string>)
    requires mem0 in Grouped(groups, sc, owners) && done == groups.Keys
    requires done in Dealt(mem0.docs, mem0.archive, mem0.nextId, docs, archive, next, sc, minCluster, now)
    ensures ColdMoved(mem0.docs, mem0.archive, docs, archive, sc, minCluster)
    ensures ColdSummarized(mem0.docs, mem0.nextId, docs, next, sc, minCluster, now)
  {
    KeywordsDone(groups, mem0.docs, mem0.archive, mem0.nextId, docs, archive, next, sc, minCluster, now, done);
    ConsolidatedRightly(mem0.docs, mem0.archive, mem0.nextId, docs, archive, next, sc, minCluster, now);
  }

  // ----- Values behind the methods -----

  lemma OneExtended(op: WalOp, h: History)
    ensures ExtendAll([op], h) == Extend(op, h)
  {
    assert [op][1..] == [];
    assert ExtendAll([op][1..], Extend(op, h)) == Extend(op, h);
  }

  lemma OneOp(t0: seq<Directory>, d: Directory, mem: Image, op: WalOp)
    ensures LoggedAll(d, [op]) == Logged(d, op) && ReplayAll([op], mem) == Apply(op, mem)
    ensures Traced(t0, t0 + AppendStates(d, op), d, [op])
  {
    assert t0[..|t0|] == t0;
    assert Traced(t0, t0, d, []);
    TracedAppend(t0, t0, d, [], op);
    assert [] + [op] == [op];
    assert [op][1..] == [];
    assert LoggedAll(d, [op]) == LoggedAll(Logged(d, op), [op][1..]);
  }

  lemma EndCall(c: Call, act: Action, trace: seq<Directory>, files: Directory, mem: Image, hist: History)
    requires OnTrack(c, trace) && MemOk(c.mem0, c.h0.owners) && Kept(c.mem0, c.h0) && Shaped(c.d0)
    requires Fits(act, c.mem0, c.h0) && c.ops == Logs(act, c.mem0) && !act.Importing?
    requires files == c.Files() && mem == c.Memory() && hist == c.History()
    ensures Performed(act, c.t0, trace, c.d0, files, c.mem0, mem, c.h0, hist)
    ensures Shaped(files) && ManifestOf(files) == ManifestOf(c.d0) && (WAL_FILE in c.d0 ==> WAL_FILE in files)
  {
    ActionPerformed(act, c.t0, trace, c.d0, files, c.mem0, mem, c.h0, hist);
  }

  lemma TouchOpsStep(ids: seq<nat>, i: nat, now: int, ops: seq<WalOp>)
    requires i < |ids|
    ensures ops + TouchOps(ids[i..], now) == (ops + [Touch(ids[i], now)]) + TouchOps(ids[i + 1..], now)
  {
    assert ids[i..][0] == ids[i] && ids[i..][1..] == ids[i + 1..];
  }

  lemma ArchiveOpsStep(ids: seq<nat>, i: nat, ops: seq<WalOp>)
    requires i < |ids|
    ensures ops + ArchiveOps(ids[i..]) == (ops + [WalOp.Archive(ids[i])]) + ArchiveOps(ids[i + 1..])
  {
    assert ids[i..][0] == ids[i] && ids[i..][1..] == ids[i + 1..];
  }

  lemma MoveLogged(ops: seq<WalOp>, m: Move)
    ensures ops + ArchiveOps(m.members) + [WalOp.Remember(m.row)] == ops + MoveOps(m)
  {
  }

  /** Subject lists are honest, so the deleted record was listed under no other subject. */
  lemma DeletedUnlisted(img: Image, x: nat, owners: Owners)
    requires MemOk(img, owners) && x in Stored(img)
    ensures var r := Apply(WalOp.HardDelete(x), img); forall s :: s in r.subjects ==> x !in r.subjects[s]
  {
    var r := Apply(WalOp.HardDelete(x), img);
    forall s | s in r.subjects ensures x !in r.subjects[s] {
      if x in img.subjects[s] {
        assert owners[x] == Some(s);
      }
    }
  }

  /** Right after an import the directory opens to memory; under a never-used id it is a call like any other. */
  ghost predicate ImportDone(row: SnapshotRow, t0: seq<Directory>, t1: seq<Directory>, d0: Directory, d1: Directory,
                             mem0: Image, mem1: Image, h0: History, h1: History) {
    && (Durable(d0, mem0, h0) ==> OpensTo(d1, mem1, ManifestOf(d0).value.walArchives == []))
    && (Usable(row, mem0, h0) ==> Performed(Importing(row), t0, t1, d0, d1, mem0, mem1, h0, h1))
  }

  lemma ImportedSafe(row: SnapshotRow, t0: seq<Directory>, t1: seq<Directory>, d0: Directory, d1: Directory,
                     mem0: Image, mem1: Image, h0: History, h1: History)
    requires MemOk(mem0, h0.owners) && Kept(mem0, h0) && Shaped(d0)
    requires t1 == t0 + AppendStates(d0, WalOp.Remember(row)) && d1 == Logged(d0, WalOp.Remember(row))
    requires mem1 == Apply(WalOp.Remember(row), mem0) &&
             h1 == ExtendAll([WalOp.Remember(row)], Begun(Importing(row), h0))
    ensures ImportDone(row, t0, t1, d0, d1, mem0, mem1, h0, h1)
    ensures Usable(row, mem0, h0) ==>
              MemOk(mem1, h1.owners) && Kept(mem1, h1) && Shaped(d1) && ManifestOf(d1) == ManifestOf(d0)
    ensures WAL_FILE in d1
  {
    OneOp(t0, d0, mem0, WalOp.Remember(row));
    if Usable(row, mem0, h0) {
      ActionPerformed(Importing(row), t0, t1, d0, d1, mem0, mem1, h0, h1);
    }
    if Durable(d0, mem0, h0) {
      AppendedRecovers(d0, mem0, WalOp.Remember(row), h0);
    }
  }

  function TouchedBy(d: StoredDoc, n: nat, now: int): StoredDoc {
    if n == 0 then d else d.(record := d.record.(hits := d.record.hits + n, lastHit := Some(now)))
  }

  /** Each picked record gains one hit per pick. */
  ghost function TouchedIn(m: map<nat, StoredDoc>, picked: seq<nat>, now: int): map<nat, StoredDoc> {
    map x | x in m :: TouchedBy(m[x], multiset(picked)[x], now)
  }

  lemma TouchedInNext(m: map<nat, StoredDoc>, picked: seq<nat>, i: nat, now: int)
    requires i < |picked| && picked[i] in m
    ensures var t := TouchedIn(m, picked[..i], now);
            TouchedIn(m, picked[..i + 1], now) == t[picked[i] := Touched(t[picked[i]], now)]
  {
    assert picked[..i + 1] == picked[..i] + [picked[i]];
    var t := TouchedIn(m, picked[..i], now);
    var next := TouchedIn(m, picked[..i + 1], now);
    assert next.Keys == t[picked[i] := Touched(t[picked[i]], now)].Keys;
    forall x | x in m ensures next[x] == t[picked[i] := Touched(t[picked[i]], now)][x] {
      assert multiset(picked[..i + 1])[x] == multiset(picked[..i])[x] + if x == picked[i] then 1 else 0;
    }
  }

  function FirstSources(ids: seq<nat>): seq<nat> {
    if |ids| <= MAX_SOURCES_PER_SUMMARY then ids else ids[..MAX_SOURCES_PER_SUMMARY]
  }

  lemma FirstFive(ids: seq<nat>)
    ensures FirstSources(ids) == ids[..if |ids| < 5 then |ids| else 5]
  {
  }

  function SourceTexts(img: Image, ids: seq<nat>): seq<string> {
    if ids == [] then [] else SourceText(img, ids[0]) + SourceTexts(img, ids[1..])
  }

  function SourceText(img: Image, x: nat): seq<string> {
    if x in img.docs then [img.docs[x].record.text]
    else if x in img.archive then [img.archive[x].record.text]
    else []
  }

  lemma NextSource(img: Image, ids: seq<nat>, i: nat, texts: seq<string>)
    requires i < |ids|
    ensures texts + SourceTexts(img, ids[i..]) == (texts + SourceText(img, ids[i])) + SourceTexts(img, ids[i + 1..])
    ensures texts + [] == texts
  {
    assert ids[i..][1..] == ids[i + 1..];
  }

  function PickedSources(img: Image, x: nat, expandSummaries: bool): seq<string> {
    if expandSummaries && x in img.docs then ExpandedSources(img, x) else []
  }

  /** One list of source texts per picked record. */
  ghost predicate SourcesMatch(sources: seq<seq<string>>, picked: seq<nat>, img: Image, expandSummaries: bool) {
    && |sources| == |picked|
    && forall i :: 0 <= i < |picked| ==> sources[i] == PickedSources(img, picked[i], expandSummaries)
  }

  lemma SourcesMatchNext(sources: seq<seq<string>>, picked: seq<nat>, i: nat, img: Image, expandSummaries: bool,
                         texts: seq<string>)
    requires i < |picked| && SourcesMatch(sources, picked[..i], img, expandSummaries)
    requires texts == PickedSources(img, picked[i], expandSummaries)
    ensures SourcesMatch(sources + [texts], picked[..i + 1], img, expandSummaries)
  {
  }

  function ExpandedSources(img: Image, x: nat): seq<string>
    requires x in img.docs
  {
    var ids := img.docs[x].record.sourceIds;
    SourceTexts(img, ids[..if |ids| < 5 then |ids| else 5])
  }

  lemma {:induction false} SameTexts(a: Image, b: Image, ids: seq<nat>)
    requires a.docs.Keys == b.docs.Keys && a.archive == b.archive
    requires forall x :: x in a.docs ==> a.docs[x].record.text == b.docs[x].record.text
    ensures SourceTexts(a, ids) == SourceTexts(b, ids)
  {
    if ids != [] {
      SameTexts(a, b, ids[1..]);
    }
  }

  lemma TouchedTexts(a: Image, b: Image, picked: seq<nat>, now: int, ids: seq<nat>)
    requires b.docs == TouchedIn(a.docs, picked, now) && a.archive == b.archive
    ensures SourceTexts(a, ids) == SourceTexts(b, ids)
    ensures forall x :: x in a.docs ==> x in b.docs && a.docs[x].record.sourceIds == b.docs[x].record.sourceIds
  {
    assert a.docs.Keys == b.docs.Keys;
    SameTexts(a, b, ids);
  }

  /** Expanding a live summary finds every one of its first five sources, in order, in the archive. */
  lemma SourcesAllFound(img: Image, x: nat)
    requires SourcesSafe(img) && Disjoint(img)
    requires x in img.docs && img.docs[x].record.IsLive() && img.docs[x].record.IsSummary()
    ensures var ids := img.docs[x].record.sourceIds;
            && |ExpandedSources(img, x)| == (if |ids| < 5 then |ids| else 5)
            && forall j :: 0 <= j < |ExpandedSources(img, x)| ==>
                 ids[j] in img.archive && ExpandedSources(img, x)[j] == img.archive[ids[j]].record.text
  {
    var ids := img.docs[x].record.sourceIds;
    ArchivedTexts(img, ids[..if |ids| < 5 then |ids| else 5]);
  }

  lemma {:induction false} ArchivedTexts(img: Image, ids: seq<nat>)
    requires Disjoint(img) && forall sid :: sid in ids ==> sid in img.archive
    ensures |SourceTexts(img, ids)| == |ids|
    ensures forall j :: 0 <= j < |ids| ==> SourceTexts(img, ids)[j] == img.archive[ids[j]].record.text
  {
    if ids != [] {
      assert ids[0] in img.archive && ids[0] !in img.docs;
      ArchivedTexts(img, ids[1..]);
    }
  }

  /** Every live version of the subject is ended, no other record is touched, and `n` counts them. */
  ghost predicate SubjectForgotten(before: Image, after: Image, subject: string, now: int, n: nat) {
    && after.docs == SubjectEndedIn(before.docs, Some(subject), now)
    && after.archive == SubjectEndedIn(before.archive, Some(subject), now)
    && after.subjects == before.subjects && after.nextId == before.nextId
    && (forall x :: !LiveVersion(after, x, subject))
    && n == LiveCount(before, subject)
  }

  lemma ForgottenSubject(mem: Image, subject: string, now: int, h: History)
    requires MemOk(mem, h.owners) && Kept(mem, h)
    ensures var ops := ForgetOps(mem, SubjectIds(mem, subject), now);
            SubjectForgotten(mem, ReplayAll(ops, mem), subject, now, |ops|) && ExtendAll(ops, h) == h
  {
    ForgetOpsAllowed(mem, SubjectIds(mem, subject), now, h);
    SubjectOpsEffect(mem, Some(subject), now, h.owners);
    EndedCount(mem, SubjectIds(mem, subject), now, subject, h.owners);
  }

  function LiveCount(img: Image, subject: string): nat {
    |set x | x in Stored(img) && LiveVersion(img, x, subject)|
  }

  /** The walk ends one live version per entry it logs. */
  lemma {:induction false} EndedCount(img: Image, ids: seq<nat>, now: int, subject: string, owners: Owners)
    requires MemOk(img, owners)
    requires forall x :: x in ids ==> x in owners && owners[x] == Some(subject)
    requires forall x :: LiveVersion(img, x, subject) ==> x in ids
    ensures |ForgetOps(img, ids, now)| == LiveCount(img, subject)
    decreases |ids|
  {
    var live := set x | x in Stored(img) && LiveVersion(img, x, subject);
    if ids == [] {
      assert live == {};
    } else {
      assert ids[0] in ids;
      if LiveId(img, ids[0]) {
        var op := WalOp.Forget(ids[0], now);
        var next := Apply(op, img);
        ForgetMemOk(img, ids[0], now, owners);
        assert LiveVersion(img, ids[0], subject);
        OneLess(img, ids[0], now, subject);
        assert ids == [ids[0]] + ids[1..];
        EndedCount(next, ids[1..], now, subject, owners);
      } else {
        EndedCount(img, ids[1..], now, subject, owners);
      }
    }
  }

  /** Ending one live version leaves the others. */
  lemma OneLess(img: Image, x: nat, now: int, subject: string)
    requires Disjoint(img) && LiveVersion(img, x, subject)
    ensures var next := Apply(WalOp.Forget(x, now), img);
            && (forall y :: LiveVersion(next, y, subject) <==> LiveVersion(img, y, subject) && y != x)
            && LiveCount(img, subject) == LiveCount(next, subject) + 1
  {
    var next := Apply(WalOp.Forget(x, now), img);
    var live := set y | y in Stored(img) && LiveVersion(img, y, subject);
    var rest := set y | y in Stored(next) && LiveVersion(next, y, subject);
    assert Stored(next) == Stored(img);
    forall y ensures LiveVersion(next, y, subject) <==> LiveVersion(img, y, subject) && y != x {
    }
    assert rest == live - {x} && x in live;
  }

  lemma ForgetMemOk(img: Image, x: nat, now: int, owners: Owners)
    requires MemOk(img, owners) && x in Stored(img)
    ensures MemOk(Apply(WalOp.Forget(x, now), img), owners)
  {
    var h := History(img, owners, 0, Stored(img), {}, {}, true, true);
    MemOkExtend(img, WalOp.Forget(x, now), h);
  }
}
