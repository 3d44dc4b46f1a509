/**
 * Sequences of logged operations: what a public call appends, what a crash in the middle of it leaves,
 * and what the calls that end records do to a subject.
 */
module Operations {
  import opened Wrappers
  import opened Records
  import opened Replay
  import opened Absorb
  import opened Disk
  import opened Invariants
  import opened Durability

  function LoggedAll(d: Directory, ops: seq<WalOp>): Directory
    decreases |ops|
  {
    if ops == [] then d else LoggedAll(Logged(d, ops[0]), ops[1..])
  }

  function ExtendAll(ops: seq<WalOp>, h: History): History {
    if ops == [] then h else ExtendAll(ops[1..], Extend(ops[0], h))
  }

  /** Each operation is allowed, and keeps what the history promises, in the state the earlier ones leave. */
  ghost predicate AllowedAll(ops: seq<WalOp>, mem: Image, h: History) {
    ops != [] ==>
      && Allowed(ops[0], mem, h)
      && Kept(Apply(ops[0], mem), Extend(ops[0], h))
      && AllowedAll(ops[1..], Apply(ops[0], mem), Extend(ops[0], h))
  }

  lemma {:induction false} LoggedAllAppend(d: Directory, ops: seq<WalOp>, op: WalOp)
    ensures LoggedAll(d, ops + [op]) == Logged(LoggedAll(d, ops), op)
    decreases |ops|
  {
    if ops == [] {
      assert ([op])[1..] == [];
      assert [] + [op] == [op];
    } else {
      assert (ops + [op])[1..] == ops[1..] + [op];
      LoggedAllAppend(Logged(d, ops[0]), ops[1..], op);
    }
  }

  lemma LoggedAllStep(d: Directory, ops: seq<WalOp>, j: nat)
    requires j < |ops|
    ensures LoggedAll(d, ops[..j + 1]) == Logged(LoggedAll(d, ops[..j]), ops[j])
  {
    assert ops[..j + 1] == ops[..j] + [ops[j]];
    LoggedAllAppend(d, ops[..j], ops[j]);
  }

  lemma {:induction false} AllowedAllConcat(xs: seq<WalOp>, ys: seq<WalOp>, mem: Image, h: History)
    requires AllowedAll(xs, mem, h) && AllowedAll(ys, ReplayAll(xs, mem), ExtendAll(xs, h))
    ensures AllowedAll(xs + ys, mem, h)
    ensures ExtendAll(xs + ys, h) == ExtendAll(ys, ExtendAll(xs, h))
  {
    var more := xs + ys;
    if xs == [] {
      assert more == ys;
    } else {
      assert more[1..] == xs[1..] + ys && more[0] == xs[0];
      AllowedAllConcat(xs[1..], ys, Apply(xs[0], mem), Extend(xs[0], h));
    }
  }

  lemma OneAllowed(op: WalOp, mem: Image, h: History)
    requires Allowed(op, mem, h) && Kept(Apply(op, mem), Extend(op, h))
    ensures AllowedAll([op], mem, h) && ExtendAll([op], h) == Extend(op, h)
  {
    assert [op][1..] == [];
    assert AllowedAll([op][1..], Apply(op, mem), Extend(op, h));
  }

  lemma AllowedAllAppend(ops: seq<WalOp>, op: WalOp, mem: Image, h: History)
    requires AllowedAll(ops, mem, h)
    requires Allowed(op, ReplayAll(ops, mem), ExtendAll(ops, h))
    requires Kept(Apply(op, ReplayAll(ops, mem)), Extend(op, ExtendAll(ops, h)))
    ensures AllowedAll(ops + [op], mem, h)
    ensures ExtendAll(ops + [op], h) == Extend(op, ExtendAll(ops, h))
  {
    OneAllowed(op, ReplayAll(ops, mem), ExtendAll(ops, h));
    AllowedAllConcat(ops, [op], mem, h);
  }

  lemma OneKeepsDurable(d: Directory, mem: Image, op: WalOp, h: History)
    requires Durable(d, mem, h) && Allowed(op, mem, h) && Kept(Apply(op, mem), Extend(op, h))
    ensures Durable(Logged(d, op), Apply(op, mem), Extend(op, h))
  {
    var g := Extend(op, h);
    assert g.(imported := h.imported) == g;
    LogKeepsDurable(d, mem, op, h, h.imported);
  }

  /** A whole call keeps the link between memory and directory. */
  lemma {:induction false} CallKeepsDurable(d: Directory, mem: Image, ops: seq<WalOp>, h: History)
    requires Durable(d, mem, h) && AllowedAll(ops, mem, h)
    ensures Durable(LoggedAll(d, ops), ReplayAll(ops, mem), ExtendAll(ops, h))
    decreases |ops|
  {
    if ops != [] {
      var g := Extend(ops[0], h);
      OneKeepsDurable(d, mem, ops[0], h);
      CallKeepsDurable(Logged(d, ops[0]), Apply(ops[0], mem), ops[1..], g);
    }
  }

  /** What an append leaves in turn: a torn line, an operation without its newline, the whole line. */
  function AppendStates(d: Directory, op: WalOp): seq<Directory> {
    (if SingleBytes(op) then [] else [WithLine(d, Broken)]) +
    [WithLine(d, Torn), WithLine(d, Unterminated(op)), Logged(d, op)]
  }

  /** The directories a call passes through while it appends `ops`: whole lines, and half-written ones. */
  ghost predicate Midway(e: Directory, d: Directory, ops: seq<WalOp>) {
    exists j :: 0 <= j <= |ops| && MidwayAt(e, d, ops, j)
  }

  predicate MidwayAt(e: Directory, d: Directory, ops: seq<WalOp>, j: nat)
    requires j <= |ops|
  {
    var before := LoggedAll(d, ops[..j]);
    e == before || (j < |ops| && e in AppendStates(before, ops[j]))
  }

  /** The crash tore a line inside a character of more than one byte. */
  ghost predicate CutInside(e: Directory, d: Directory, ops: seq<WalOp>) {
    exists j :: 0 <= j < |ops| && CutAt(e, d, ops, j)
  }

  predicate CutAt(e: Directory, d: Directory, ops: seq<WalOp>, j: nat)
    requires j < |ops|
  {
    !SingleBytes(ops[j]) && e == WithLine(LoggedAll(d, ops[..j]), Broken)
  }

  lemma MidwayExtend(e: Directory, d: Directory, ops: seq<WalOp>, op: WalOp)
    requires Midway(e, d, ops)
    ensures Midway(e, d, ops + [op])
  {
    var j :| 0 <= j <= |ops| && MidwayAt(e, d, ops, j);
    assert (ops + [op])[..j] == ops[..j];
    assert MidwayAt(e, d, ops + [op], j);
  }

  lemma MidwayAppended(d: Directory, ops: seq<WalOp>, op: WalOp, e: Directory)
    requires e in AppendStates(LoggedAll(d, ops), op)
    ensures Midway(e, d, ops + [op])
  {
    var more := ops + [op];
    assert more[..|ops|] == ops;
    assert MidwayAt(e, d, more, |ops|);
  }

  /** `open` finds memory as it was after some prefix of the call, and what the history promises still holds. */
  ghost predicate RecoversPrefix(e: Directory, mem: Image, ops: seq<WalOp>, h: History) {
    && Recover(e).Ok?
    && Kept(Recover(e).value, h)
    && exists j :: 0 <= j <= |ops| && Grows(ReplayAll(ops[..j], mem), Recover(e).value)
  }

  lemma {:induction false} AllowedPrefix(ops: seq<WalOp>, mem: Image, h: History, j: nat)
    requires AllowedAll(ops, mem, h) && j <= |ops|
    ensures AllowedAll(ops[..j], mem, h)
  {
    if j > 0 {
      assert ops[..j][1..] == ops[1..][..j - 1];
      AllowedPrefix(ops[1..], Apply(ops[0], mem), Extend(ops[0], h), j - 1);
    }
  }

  lemma {:induction false} ExtendAllWeakens(ops: seq<WalOp>, h: History)
    ensures ExtendAll(ops, h).imported == h.imported && ExtendAll(ops, h).settled == h.settled
    ensures ExtendAll(ops, h).base == h.base
    ensures h.deleted ==> ExtendAll(ops, h).deleted
    ensures h.deleted || (exists i :: 0 <= i < |ops| && ops[i].HardDelete?) <==> ExtendAll(ops, h).deleted
  {
    if ops != [] {
      ExtendAllWeakens(ops[1..], Extend(ops[0], h));
      forall i | 0 <= i < |ops[1..]| ensures ops[1..][i] == ops[i + 1] {}
      if ops[0].HardDelete? {
      } else if exists i :: 0 <= i < |ops| && ops[i].HardDelete? {
        var i :| 0 <= i < |ops| && ops[i].HardDelete?;
        assert ops[1..][i - 1].HardDelete?;
      }
    }
  }

  /**
   * A crash at any point of a call: recovery gives a prefix of the call, so a call is never seen half
   * applied beyond operation boundaries, and one live version per subject and safe sources survive it;
   * except that `open` fails exactly if the crash tore a line inside a character.
   */
  ghost predicate CrashOutcome(e: Directory, d: Directory, mem: Image, ops: seq<WalOp>, h: History) {
    if CutInside(e, d, ops) then Recover(e) == Err(UnreadableLog) else RecoversPrefix(e, mem, ops, h)
  }

  lemma CrashMidCall(e: Directory, d: Directory, mem: Image, ops: seq<WalOp>, h: History)
    requires Durable(d, mem, h) && AllowedAll(ops, mem, h)
    requires Midway(e, d, ops)
    ensures CrashOutcome(e, d, mem, ops, ExtendAll(ops, h))
    ensures (forall i :: 0 <= i < |ops| ==> SingleBytes(ops[i])) ==> RecoversPrefix(e, mem, ops, ExtendAll(ops, h))
  {
    var j :| 0 <= j <= |ops| && MidwayAt(e, d, ops, j);
    if CutInside(e, d, ops) {
      var i :| 0 <= i < |ops| && CutAt(e, d, ops, i);
      PrefixDurable(d, mem, ops, h, i);
      TornAppendRecovers(LoggedAll(d, ops[..i]), ReplayAll(ops[..i], mem), ops[i], ExtendAll(ops[..i], h));
    } else {
      assert j < |ops| ==> !CutAt(e, d, ops, j);
      CrashAt(e, d, mem, ops, h, j);
    }
  }

  lemma AppendStatesAre(d: Directory, op: WalOp, e: Directory)
    requires e in AppendStates(d, op)
    ensures || e == WithLine(d, Torn) || e == WithLine(d, Unterminated(op)) || e == Logged(d, op)
            || (!SingleBytes(op) && e == WithLine(d, Broken))
  {
  }

  lemma AppendStateReads(e: Directory, d: Directory, mem: Image, op: WalOp, h: History)
    requires Durable(d, mem, h) && e in AppendStates(d, op)
    requires !SingleBytes(op) ==> e != WithLine(d, Broken)
    ensures Recover(e) == Recover(d) || Recover(e) == Recover(Logged(d, op))
  {
    AppendStatesAre(d, op, e);
    TornAppendRecovers(d, mem, op, h);
  }

  lemma CrashAt(e: Directory, d: Directory, mem: Image, ops: seq<WalOp>, h: History, j: nat)
    requires Durable(d, mem, h) && AllowedAll(ops, mem, h)
    requires j <= |ops| && MidwayAt(e, d, ops, j) && (j < |ops| ==> !CutAt(e, d, ops, j))
    ensures RecoversPrefix(e, mem, ops, ExtendAll(ops, h))
  {
    var before := LoggedAll(d, ops[..j]);
    PrefixDurable(d, mem, ops, h, j);
    if e != before {
      AppendStateReads(e, before, ReplayAll(ops[..j], mem), ops[j], ExtendAll(ops[..j], h));
    }
    if Recover(e) == Recover(before) {
      PrefixRecovers(e, before, mem, ops, h, j);
    } else {
      CrashBeforeNewline(e, d, mem, ops, h, j);
    }
  }

  lemma CrashBeforeNewline(e: Directory, d: Directory, mem: Image, ops: seq<WalOp>, h: History, j: nat)
    requires Durable(d, mem, h) && AllowedAll(ops, mem, h)
    requires j < |ops| && Recover(e) == Recover(Logged(LoggedAll(d, ops[..j]), ops[j]))
    ensures RecoversPrefix(e, mem, ops, ExtendAll(ops, h))
  {
    LoggedAllStep(d, ops, j);
    PrefixDurable(d, mem, ops, h, j + 1);
    PrefixRecovers(e, LoggedAll(d, ops[..j + 1]), mem, ops, h, j + 1);
  }

  lemma PrefixDurable(d: Directory, mem: Image, ops: seq<WalOp>, h: History, j: nat)
    requires Durable(d, mem, h) && AllowedAll(ops, mem, h) && j <= |ops|
    ensures Durable(LoggedAll(d, ops[..j]), ReplayAll(ops[..j], mem), ExtendAll(ops[..j], h))
  {
    AllowedPrefix(ops, mem, h, j);
    CallKeepsDurable(d, mem, ops[..j], h);
  }

  lemma PrefixRecovers(e: Directory, before: Directory, mem: Image, ops: seq<WalOp>, h: History, j: nat)
    requires j <= |ops| && Recover(e) == Recover(before)
    requires Durable(before, ReplayAll(ops[..j], mem), ExtendAll(ops[..j], h))
    ensures RecoversPrefix(e, mem, ops, ExtendAll(ops, h))
  {
    SurvivorRecovers(before, ReplayAll(ops[..j], mem), ExtendAll(ops[..j], h));
    PrefixPromises(ops, h, j);
  }

  /** The whole call promises no more than a prefix of it. */
  lemma PrefixPromises(ops: seq<WalOp>, h: History, j: nat)
    requires j <= |ops|
    ensures ExtendAll(ops[..j], h).imported ==> ExtendAll(ops, h).imported
    ensures ExtendAll(ops[..j], h).deleted ==> ExtendAll(ops, h).deleted
  {
    ExtendAllWeakens(ops[..j], h);
    ExtendAllWeakens(ops, h);
    if ExtendAll(ops[..j], h).deleted && !h.deleted {
      var i :| 0 <= i < |ops[..j]| && ops[..j][i].HardDelete?;
      assert ops[i].HardDelete?;
    }
  }

  // ----- Ending every live record of a list of ids -----

  predicate LiveId(img: Image, x: nat) {
    (x in img.docs && img.docs[x].record.IsLive()) || (x in img.archive && img.archive[x].record.IsLive())
  }

  /** What `remember` and `forget_subject` log while they walk a subject list. */
  function ForgetOps(img: Image, ids: seq<nat>, now: int): seq<WalOp>
    decreases |ids|
  {
    if ids == [] then []
    else if LiveId(img, ids[0]) then
      [Forget(ids[0], now)] + ForgetOps(Apply(Forget(ids[0], now), img), ids[1..], now)
    else ForgetOps(img, ids[1..], now)
  }

  lemma ForgetOpsStep(img: Image, ids: seq<nat>, i: nat, now: int, ops: seq<WalOp>)
    requires i < |ids|
    ensures var op := Forget(ids[i], now);
            ops + ForgetOps(img, ids[i..], now) ==
            if LiveId(img, ids[i]) then (ops + [op]) + ForgetOps(Apply(op, img), ids[i + 1..], now)
            else ops + ForgetOps(img, ids[i + 1..], now)
  {
    assert ids[i..][0] == ids[i] && ids[i..][1..] == ids[i + 1..];
  }

  function SubjectIds(img: Image, s: string): seq<nat> {
    if s in img.subjects then img.subjects[s] else []
  }

  predicate EndedAs(a: Option<StoredDoc>, b: Option<StoredDoc>, ends: bool, now: int) {
    match a
    case None => b.None?
    case Some(d) => b == Some(if ends && d.record.IsLive() then Ended(d, now) else d)
  }

  /** Exactly the live records of the listed ids get an end time; every other slot is left alone. */
  lemma {:induction false} ForgetOpsEffect(img: Image, ids: seq<nat>, now: int, x: nat)
    requires Disjoint(img)
    ensures var r := ReplayAll(ForgetOps(img, ids, now), img);
            && EndedAs(SlotOf(img, x).doc, SlotOf(r, x).doc, x in ids, now)
            && EndedAs(SlotOf(img, x).arch, SlotOf(r, x).arch, x in ids, now)
            && r.nextId == img.nextId && r.subjects == img.subjects
    decreases |ids|
  {
    if ids != [] {
      if LiveId(img, ids[0]) {
        var op := Forget(ids[0], now);
        var rest := ForgetOps(Apply(op, img), ids[1..], now);
        assert ([op] + rest)[1..] == rest;
        ForgetOpsEffect(Apply(op, img), ids[1..], now, x);
      } else {
        ForgetOpsEffect(img, ids[1..], now, x);
      }
    }
  }

  lemma ForgetKeeps(img: Image, x: nat, now: int, h: History)
    requires Kept(img, h)
    ensures Kept(Apply(Forget(x, now), img), Extend(Forget(x, now), h))
  {
    if !h.imported {
      ApplySingleLive(Forget(x, now), img);
    }
    if !h.imported && !h.deleted {
      ApplySourcesSafe(Forget(x, now), img);
    }
  }

  lemma {:induction false} ForgetOpsAllowed(img: Image, ids: seq<nat>, now: int, h: History)
    requires Kept(img, h)
    ensures AllowedAll(ForgetOps(img, ids, now), img, h)
    ensures ExtendAll(ForgetOps(img, ids, now), h) == h
    ensures Kept(ReplayAll(ForgetOps(img, ids, now), img), h)
    decreases |ids|
  {
    if ids != [] {
      if LiveId(img, ids[0]) {
        var op := Forget(ids[0], now);
        var rest := ForgetOps(Apply(op, img), ids[1..], now);
        assert ([op] + rest)[1..] == rest;
        ForgetKeeps(img, ids[0], now, h);
        assert Extend(op, h) == h;
        ForgetOpsAllowed(Apply(op, img), ids[1..], now, h);
      } else {
        ForgetOpsAllowed(img, ids[1..], now, h);
      }
    }
  }

  /** Because subject lists are complete, walking one ends the subject's every live version, and no other record. */
  lemma SubjectEnded(img: Image, s: string, now: int, owners: Owners)
    requires MemOk(img, owners)
    ensures var r := ReplayAll(ForgetOps(img, SubjectIds(img, s), now), img);
            && r.nextId == img.nextId && r.subjects == img.subjects
            && r.docs.Keys == img.docs.Keys && r.archive.Keys == img.archive.Keys
            && (forall x :: !LiveVersion(r, x, s))
            && (forall x :: x in img.docs ==>
                  r.docs[x] == if LiveUnder(img.docs, x, s) then Ended(img.docs[x], now) else img.docs[x])
            && (forall x :: x in img.archive ==>
                  r.archive[x] == if LiveUnder(img.archive, x, s) then Ended(img.archive[x], now) else img.archive[x])
  {
    var ids := SubjectIds(img, s);
    var r := ReplayAll(ForgetOps(img, ids, now), img);
    ForgetOpsEffect(img, ids, now, 0);
    forall x
      ensures x in r.docs <==> x in img.docs
      ensures x in r.archive <==> x in img.archive
      ensures x in img.docs ==>
                r.docs[x] == if LiveUnder(img.docs, x, s) then Ended(img.docs[x], now) else img.docs[x]
      ensures x in img.archive ==>
                r.archive[x] == if LiveUnder(img.archive, x, s) then Ended(img.archive[x], now) else img.archive[x]
    {
      ForgetOpsEffect(img, ids, now, x);
      assert SlotOf(r, x) == Slot(Lookup(r.docs, x), Lookup(r.archive, x));
    }
    assert r.docs.Keys == img.docs.Keys;
    assert r.archive.Keys == img.archive.Keys;
  }

  // ----- Remembering -----

  function RememberOps(img: Image, row: SnapshotRow, now: int): seq<WalOp> {
    (match row.record.subject
     case None => []
     case Some(s) => ForgetOps(img, SubjectIds(img, s), now)) + [Remember(row)]
  }

  /**
   * Remembering under the next id: the new row is stored, earlier live versions of its subject are ended
   * first, so at every operation boundary there is at most one live version.
   */
  lemma RememberAllowed(img: Image, row: SnapshotRow, now: int, h: History)
    requires MemOk(img, h.owners) && Kept(img, h)
    requires row.record.id == img.nextId && !row.archived
    requires row.record.IsLive() && row.record.sourceIds == []
    ensures AllowedAll(RememberOps(img, row, now), img, h)
    ensures Kept(ReplayAll(RememberOps(img, row, now), img), h)
    ensures ExtendAll(RememberOps(img, row, now), h) == Extend(Remember(row), h)
    ensures MemOk(ReplayAll(RememberOps(img, row, now), img), Extend(Remember(row), h).owners)
  {
    var first := match row.record.subject case None => [] case Some(s) => ForgetOps(img, SubjectIds(img, s), now);
    var mid := ReplayAll(first, img);
    var op := Remember(row);
    if row.record.subject.Some? {
      ForgetOpsAllowed(img, SubjectIds(img, row.record.subject.value), now, h);
      SubjectEnded(img, row.record.subject.value, now, h.owners);
    }
    assert img.nextId !in h.owners;
    assert OpId(op) !in Stored(mid);
    if !h.imported {
      ApplySingleLive(op, mid);
      if !h.deleted {
        ApplySourcesSafe(op, mid);
      }
    }
    AllowedAllAppend(first, op, img, h);
    ReplayOne(first, op, img);
    CallKeepsMemOk(first, img, h);
    MemOkExtend(mid, op, h);
  }

  lemma {:induction false} CallKeepsMemOk(ops: seq<WalOp>, mem: Image, h: History)
    requires MemOk(mem, h.owners) && AllowedAll(ops, mem, h)
    ensures MemOk(ReplayAll(ops, mem), ExtendAll(ops, h).owners)
    ensures ops != [] ==> Kept(ReplayAll(ops, mem), ExtendAll(ops, h))
  {
    if ops != [] {
      MemOkExtend(mem, ops[0], h);
      CallKeepsMemOk(ops[1..], Apply(ops[0], mem), Extend(ops[0], h));
    }
  }
}
