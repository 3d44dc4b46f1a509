/**
 * The public calls that log: for each of them the operations it appends, as a function of its arguments
 * and of memory, and the proof that they keep what a collection promises.
 */
module Actions {
  import opened Wrappers
  import opened Records
  import opened Replay
  import opened Absorb
  import opened FileNames
  import opened Disk
  import opened Invariants
  import opened Durability
  import opened Operations
  import opened Checkpoints
  import opened Calls
  import opened Sorting

  /** One cluster of a consolidation: its members, in the order they are archived, and the row of its summary. */
  datatype Move = Move(members: seq<nat>, row: SnapshotRow)

  datatype Action =
    | Remembering(row: SnapshotRow, now: int)
    | Forgetting(id: nat, now: int)
    | ForgettingSubject(subject: string, now: int)
    | Deleting(id: nat)
    | Touching(ids: seq<nat>, now: int)
    | Consolidating(moves: seq<Move>)
    | Importing(row: SnapshotRow)

  function TouchOps(ids: seq<nat>, now: int): seq<WalOp> {
    if ids == [] then [] else [Touch(ids[0], now)] + TouchOps(ids[1..], now)
  }

  function ArchiveOps(ids: seq<nat>): seq<WalOp> {
    if ids == [] then [] else [Archive(ids[0])] + ArchiveOps(ids[1..])
  }

  function MoveOps(m: Move): seq<WalOp> {
    ArchiveOps(m.members) + [Remember(m.row)]
  }

  function MovesOps(moves: seq<Move>): seq<WalOp> {
    if moves == [] then [] else MoveOps(moves[0]) + MovesOps(moves[1..])
  }

  /** What the call appends to the log. */
  function Logs(act: Action, mem: Image): seq<WalOp> {
    match act
    case Remembering(row, now) => RememberOps(mem, row, now)
    case Forgetting(id, now) => [Forget(id, now)]
    case ForgettingSubject(subject, now) => ForgetOps(mem, SubjectIds(mem, subject), now)
    case Deleting(id) => [HardDelete(id)]
    case Touching(ids, now) => TouchOps(ids, now)
    case Consolidating(moves) => MovesOps(moves)
    case Importing(row) => [Remember(row)]
  }

  predicate MoveFits(m: Move, mem: Image) {
    && Distinct(m.members) && (forall x :: x in m.members ==> x in mem.docs)
    && m.row.record.id == mem.nextId && !m.row.archived
    && m.row.record.subject.None? && m.row.record.sourceIds == m.members
  }

  predicate MovesFit(moves: seq<Move>, mem: Image) {
    moves != [] ==> MoveFits(moves[0], mem) && MovesFit(moves[1..], ReplayAll(MoveOps(moves[0]), mem))
  }

  /** When the call gets as far as logging; an import must use an id that was never used before, or a reusable one. */
  ghost predicate Fits(act: Action, mem: Image, h: History) {
    match act
    case Remembering(row, _) =>
      row.record.id == mem.nextId && !row.archived && row.record.IsLive() && row.record.sourceIds == []
    case Forgetting(id, _) => id in Stored(mem)
    case ForgettingSubject(_, _) => true
    case Deleting(id) => id in Stored(mem)
    case Touching(ids, _) => forall id :: id in ids ==> id in mem.docs
    case Consolidating(moves) => MovesFit(moves, mem)
    case Importing(row) => Usable(row, mem, h)
  }

  function Begun(act: Action, h: History): History {
    if act.Importing? then h.(imported := true) else h
  }

  lemma {:induction false} TouchOpsAllowed(ids: seq<nat>, now: int, mem: Image, h: History)
    requires Kept(mem, h) && forall id :: id in ids ==> id in mem.docs
    ensures AllowedAll(TouchOps(ids, now), mem, h)
  {
    if ids != [] {
      var op := Touch(ids[0], now);
      TouchKeeps(mem, ids[0], now, h);
      assert ids[0] in ids;
      assert TouchOps(ids, now)[1..] == TouchOps(ids[1..], now);
      TouchOpsAllowed(ids[1..], now, Apply(op, mem), Extend(op, h));
    }
  }

  /** The members leave `docs` for the archive, and nothing else changes. */
  lemma {:induction false} ArchiveOpsEffect(ids: seq<nat>, mem: Image, h: History)
    requires Kept(mem, h) && Distinct(ids) && forall x :: x in ids ==> x in mem.docs
    ensures AllowedAll(ArchiveOps(ids), mem, h) && ExtendAll(ArchiveOps(ids), h) == h
    ensures var r := ReplayAll(ArchiveOps(ids), mem);
            && Kept(r, h) && r.nextId == mem.nextId
            && (forall x :: x in ids || x in mem.archive ==> x in r.archive)
  {
    if ids != [] {
      var op := WalOp.Archive(ids[0]);
      var next := Apply(op, mem);
      ArchiveKeeps(mem, ids[0], h);
      assert ids[0] in ids;
      assert ArchiveOps(ids)[1..] == ArchiveOps(ids[1..]);
      forall x | x in ids[1..] ensures x in next.docs {
        assert x in ids;
        var i :| 0 <= i < |ids[1..]| && ids[1..][i] == x;
        assert ids[i + 1] == x && ids[0] != ids[i + 1];
      }
      assert Distinct(ids[1..]);
      ArchiveOpsEffect(ids[1..], next, h);
    }
  }

  /** The sources were archived just before, so the new summary may point at them. */
  lemma SummaryKeeps(mem: Image, row: SnapshotRow, h: History)
    requires MemOk(mem, h.owners) && Kept(mem, h)
    requires row.record.id == mem.nextId && row.record.subject.None?
    requires forall x :: x in row.record.sourceIds ==> x in mem.archive
    ensures Allowed(Remember(row), mem, h)
    ensures Kept(Apply(Remember(row), mem), Extend(Remember(row), h))
  {
    assert row.record.id !in h.owners;
    assert row.record.id !in Stored(mem);
    if !h.imported {
      ApplySingleLive(Remember(row), mem);
      if !h.deleted {
        ApplySourcesSafe(Remember(row), mem);
      }
    }
  }

  lemma MoveAllowed(m: Move, mem: Image, h: History)
    requires MemOk(mem, h.owners) && Kept(mem, h) && MoveFits(m, mem)
    ensures AllowedAll(MoveOps(m), mem, h)
    ensures MemOk(ReplayAll(MoveOps(m), mem), ExtendAll(MoveOps(m), h).owners)
    ensures Kept(ReplayAll(MoveOps(m), mem), ExtendAll(MoveOps(m), h))
  {
    var first := ArchiveOps(m.members);
    ArchiveOpsEffect(m.members, mem, h);
    CallKeepsMemOk(first, mem, h);
    SummaryKeeps(ReplayAll(first, mem), m.row, h);
    AllowedAllAppend(first, Remember(m.row), mem, h);
    CallKeepsMemOk(MoveOps(m), mem, h);
  }

  lemma {:induction false} MovesAllowed(moves: seq<Move>, mem: Image, h: History)
    requires MemOk(mem, h.owners) && Kept(mem, h) && MovesFit(moves, mem)
    ensures AllowedAll(MovesOps(moves), mem, h)
  {
    if moves != [] {
      var first := MoveOps(moves[0]);
      MoveAllowed(moves[0], mem, h);
      MovesAllowed(moves[1..], ReplayAll(first, mem), ExtendAll(first, h));
      AllowedAllConcat(first, MovesOps(moves[1..]), mem, h);
    }
  }

  /** Every call keeps, at each operation it logs, one live version per subject and the sources of live summaries. */
  lemma ActionAllowed(act: Action, mem: Image, h: History)
    requires MemOk(mem, h.owners) && Kept(mem, h) && Fits(act, mem, h)
    ensures AllowedAll(Logs(act, mem), mem, Begun(act, h))
  {
    match act
    case Remembering(row, now) => RememberAllowed(mem, row, now, h);
    case Forgetting(id, now) =>
      ForgetKeeps(mem, id, now, h);
      OneAllowed(WalOp.Forget(id, now), mem, h);
    case ForgettingSubject(subject, now) => ForgetOpsAllowed(mem, SubjectIds(mem, subject), now, h);
    case Deleting(id) =>
      DeleteKeeps(mem, id, h);
      OneAllowed(WalOp.HardDelete(id), mem, h);
    case Touching(ids, now) => TouchOpsAllowed(ids, now, mem, h);
    case Consolidating(moves) => MovesAllowed(moves, mem, h);
    case Importing(row) => OneAllowed(Remember(row), mem, Begun(act, h));
  }

  lemma {:induction false} ForgetOpsIds(img: Image, ids: seq<nat>, now: int)
    ensures RememberedIds(ForgetOps(img, ids, now)) == {}
    decreases |ids|
  {
    if ids != [] {
      if LiveId(img, ids[0]) {
        var rest := ForgetOps(Apply(Forget(ids[0], now), img), ids[1..], now);
        HeadFacts([Forget(ids[0], now)] + rest, 0);
        assert ([Forget(ids[0], now)] + rest)[1..] == rest;
        ForgetOpsIds(Apply(Forget(ids[0], now), img), ids[1..], now);
      } else {
        ForgetOpsIds(img, ids[1..], now);
      }
    }
  }

  lemma {:induction false} PlainOpsIds(ids: seq<nat>, now: int)
    ensures RememberedIds(TouchOps(ids, now)) == {} && RememberedIds(ArchiveOps(ids)) == {}
  {
    if ids != [] {
      PlainOpsIds(ids[1..], now);
      HeadFacts(TouchOps(ids, now), 0);
      HeadFacts(ArchiveOps(ids), 0);
      assert TouchOps(ids, now)[1..] == TouchOps(ids[1..], now) && ArchiveOps(ids)[1..] == ArchiveOps(ids[1..]);
    }
  }

  lemma LastRemembered(ops: seq<WalOp>, op: WalOp)
    ensures RememberedIds(ops + [op]) == RememberedIds(ops) + if op.Remember? then {OpId(op)} else {}
  {
    RememberedExtend(ops, op);
  }

  lemma {:induction false} MovesIds(moves: seq<Move>, mem: Image)
    requires MovesFit(moves, mem)
    ensures forall x :: x in RememberedIds(MovesOps(moves)) ==> x >= mem.nextId
  {
    if moves != [] {
      var first := ArchiveOps(moves[0].members);
      var next := ReplayAll(MoveOps(moves[0]), mem);
      PlainOpsIds(moves[0].members, 0);
      LastRemembered(first, Remember(moves[0].row));
      RememberedConcat(MoveOps(moves[0]), MovesOps(moves[1..]));
      NextIdGrows(MoveOps(moves[0]), mem);
      MovesIds(moves[1..], next);
    }
  }

  /** Apart from imports, calls only use ids that were never used before. */
  lemma ActionIds(act: Action, mem: Image, h: History)
    requires Fits(act, mem, h)
    ensures forall x :: x in RememberedIds(Logs(act, mem)) ==>
              x >= mem.nextId || (act.Importing? && x == act.row.record.id)
  {
    match act
    case Remembering(row, now) =>
      if row.record.subject.Some? {
        ForgetOpsIds(mem, SubjectIds(mem, row.record.subject.value), now);
        LastRemembered(ForgetOps(mem, SubjectIds(mem, row.record.subject.value), now), Remember(row));
      } else {
        LastRemembered([], Remember(row));
      }
    case ForgettingSubject(subject, now) => ForgetOpsIds(mem, SubjectIds(mem, subject), now);
    case Touching(ids, now) => PlainOpsIds(ids, now);
    case Consolidating(moves) => MovesIds(moves, mem);
    case _ =>
  }

  /** Memory after the call keeps its invariants. */
  lemma ActionKeeps(act: Action, mem: Image, h: History)
    requires MemOk(mem, h.owners) && Kept(mem, h) && Fits(act, mem, h)
    ensures var ops, g := Logs(act, mem), Begun(act, h);
            MemOk(ReplayAll(ops, mem), ExtendAll(ops, g).owners) && Kept(ReplayAll(ops, mem), ExtendAll(ops, g))
  {
    ActionAllowed(act, mem, h);
    CallKeepsMemOk(Logs(act, mem), mem, Begun(act, h));
  }

  lemma {:induction false} MovesFitAppend(moves: seq<Move>, m: Move, mem: Image)
    requires MovesFit(moves, mem) && MoveFits(m, ReplayAll(MovesOps(moves), mem))
    ensures MovesFit(moves + [m], mem) && MovesOps(moves + [m]) == MovesOps(moves) + MoveOps(m)
  {
    var more := moves + [m];
    if moves == [] {
      assert more == [m] && more[1..] == [];
    } else {
      assert more[1..] == moves[1..] + [m] && more[0] == moves[0];
      ReplayAppend(MoveOps(moves[0]), MovesOps(moves[1..]), mem);
      MovesFitAppend(moves[1..], m, ReplayAll(MoveOps(moves[0]), mem));
    }
  }

  lemma DurableImported(d: Directory, mem: Image, h: History)
    requires Survives(d, mem, h)
    ensures Survives(d, mem, h.(imported := true))
  {
    var v := ViewOf(d).value;
    var g := h.(imported := true);
    forall p | h.settled <= p <= |v.live| ensures Kept(RecoveredAt(v, p), g) {
    }
    assert SnapshotFits(v, g) && Noted(v.arch + v.live, g);
  }

  /** Trace, directory, memory and history before and after a call. */
  datatype Change = Change(t0: seq<Directory>, t1: seq<Directory>, d0: Directory, d1: Directory,
                           mem0: Image, mem1: Image, h0: History, h1: History)

  /**
   * The contract of every logging call: memory becomes what replaying its operations makes of it, the
   * directory has exactly them appended, and if memory and directory were linked they still are, while a
   * crash at any moment of the call recovers some prefix of it, unless it tears a character.
   */
  ghost predicate Performs(act: Action, c: Change) {
    var ops := Logs(act, c.mem0);
    && Fits(act, c.mem0, c.h0)
    && c.mem1 == ReplayAll(ops, c.mem0) && c.d1 == LoggedAll(c.d0, ops) && c.h1 == ExtendAll(ops, Begun(act, c.h0))
    && Traced(c.t0, c.t1, c.d0, ops)
    && (Durable(c.d0, c.mem0, c.h0) ==>
          && Durable(c.d1, c.mem1, c.h1)
          && forall k :: |c.t0| <= k < |c.t1| ==> CrashOutcome(c.t1[k], c.d0, c.mem0, ops, c.h1))
  }

  ghost function Performances(act: Action): iset<Change> {
    iset c: Change | Performs(act, c)
  }

  ghost predicate Performed(act: Action, t0: seq<Directory>, t1: seq<Directory>, d0: Directory, d1: Directory,
                            mem0: Image, mem1: Image, h0: History, h1: History) {
    Change(t0, t1, d0, d1, mem0, mem1, h0, h1) in Performances(act)
  }

  lemma PerformedHow(act: Action, t0: seq<Directory>, t1: seq<Directory>, d0: Directory, d1: Directory,
                     mem0: Image, mem1: Image, h0: History, h1: History)
    requires Performed(act, t0, t1, d0, d1, mem0, mem1, h0, h1)
    ensures Performs(act, Change(t0, t1, d0, d1, mem0, mem1, h0, h1))
  {
  }

  lemma PerformedParts(act: Action, t0: seq<Directory>, t1: seq<Directory>, d0: Directory, d1: Directory,
                       mem0: Image, mem1: Image, h0: History, h1: History)
    requires Performed(act, t0, t1, d0, d1, mem0, mem1, h0, h1)
    ensures var ops := Logs(act, mem0);
            && Fits(act, mem0, h0) && mem1 == ReplayAll(ops, mem0) && d1 == LoggedAll(d0, ops)
            && h1 == ExtendAll(ops, Begun(act, h0)) && Traced(t0, t1, d0, ops)
  {
    PerformedHow(act, t0, t1, d0, d1, mem0, mem1, h0, h1);
  }

  lemma ActionPerforms(act: Action, t0: seq<Directory>, t1: seq<Directory>, d: Directory, mem: Image, h: History,
                       ops: seq<WalOp>)
    requires Fits(act, mem, h) && ops == Logs(act, mem) && AllowedAll(ops, mem, Begun(act, h))
    requires Traced(t0, t1, d, ops)
    ensures Performed(act, t0, t1, d, LoggedAll(d, ops), mem, ReplayAll(ops, mem), h, ExtendAll(ops, Begun(act, h)))
  {
    if Durable(d, mem, h) {
      BegunDurable(d, mem, h, act);
      CallSafe(t0, t1, d, mem, ops, Begun(act, h));
    }
    assert Performs(act, Change(t0, t1, d, LoggedAll(d, ops), mem, ReplayAll(ops, mem), h,
                                ExtendAll(ops, Begun(act, h))));
  }

  lemma BegunDurable(d: Directory, mem: Image, h: History, act: Action)
    requires Durable(d, mem, h)
    ensures Durable(d, mem, Begun(act, h))
  {
    DurableImported(d, mem, h);
  }

  lemma ActionPerformed(act: Action, t0: seq<Directory>, t1: seq<Directory>, d0: Directory, d1: Directory,
                        mem0: Image, mem1: Image, h0: History, h1: History)
    requires MemOk(mem0, h0.owners) && Kept(mem0, h0) && Fits(act, mem0, h0) && Shaped(d0)
    requires Traced(t0, t1, d0, Logs(act, mem0)) && d1 == LoggedAll(d0, Logs(act, mem0))
    requires mem1 == ReplayAll(Logs(act, mem0), mem0) && h1 == ExtendAll(Logs(act, mem0), Begun(act, h0))
    ensures Performed(act, t0, t1, d0, d1, mem0, mem1, h0, h1)
    ensures MemOk(mem1, h1.owners) && Kept(mem1, h1)
    ensures Shaped(d1) && ManifestOf(d1) == ManifestOf(d0) && (WAL_FILE in d0 ==> WAL_FILE in d1)
  {
    ActionAllowed(act, mem0, h0);
    ActionKeeps(act, mem0, h0);
    LoggedAllShaped(d0, Logs(act, mem0));
    ActionPerforms(act, t0, t1, d0, mem0, h0, Logs(act, mem0));
  }

  lemma CallSafe(t0: seq<Directory>, t1: seq<Directory>, d: Directory, mem: Image, ops: seq<WalOp>, h: History)
    requires Durable(d, mem, h) && AllowedAll(ops, mem, h) && Traced(t0, t1, d, ops)
    ensures Durable(LoggedAll(d, ops), ReplayAll(ops, mem), ExtendAll(ops, h))
    ensures forall k :: |t0| <= k < |t1| ==> CrashOutcome(t1[k], d, mem, ops, ExtendAll(ops, h))
  {
    CallKeepsDurable(d, mem, ops, h);
    forall k | |t0| <= k < |t1| ensures CrashOutcome(t1[k], d, mem, ops, ExtendAll(ops, h)) {
      CrashMidCall(t1[k], d, mem, ops, h);
    }
  }
}
