/**
 * Whole runs of a collection: calls, imports, both kinds of checkpoint, compactions, reopenings, and a
 * crash at any file action of them, in any order and number, also on a log that ends in a torn line or in
 * an operation without its newline.
 */
module Runs {
  import opened Wrappers
  import opened Records
  import opened Replay
  import opened Absorb
  import opened FileNames
  import opened Disk
  import opened Invariants
  import opened Durability
  import opened Operations
  import opened Checkpoints
  import opened CheckpointSteps
  import opened Setbacks
  import opened Actions
  import opened Calls
  import opened Consolidation
  import opened Collections

  /**
   * A directory, the memory it is linked to, what is known of its past, and the operations called since
   * that it will not give back, because they were appended behind a torn line.
   */
  datatype State = State(dir: Directory, shown: Image, hist: History, ahead: seq<WalOp>) {
    function Memory(): Image {
      ReplayAll(ahead, shown)
    }

    function Past(): History {
      ExtendAll(ahead, hist)
    }
  }

  const FRESH := State(map[], EmptyImage(1), History(EmptyImage(1), map[], 0, {}, {}, {}, false, false), [])

  predicate LogStopped(d: Directory) {
    Stopped(LogLines(d))
  }

  /** The log ends in an operation that lacks its newline. */
  predicate LogUnterminated(d: Directory) {
    var lines := LogLines(d);
    lines != [] && lines[|lines| - 1].Unterminated? && Clean(lines[..|lines| - 1])
  }

  // ----- Steps -----

  /** The first append will garble the last operation of the log, which is known from having opened it. */
  ghost predicate CanCut(s: State) {
    && LogUnterminated(s.dir) && s.ahead == [] && Recover(s.dir) == Ok(s.shown)
    && Cuttable(ViewOf(s.dir).value, s.hist)
  }

  /** What an append will find: an operation about to be garbled is one that memory is ahead by. */
  ghost function Ready(s: State): State {
    if CanCut(s) then
      var v := ViewOf(s.dir).value;
      var op := v.live[|v.live| - 1];
      State(s.dir, Recovered(CutView(v)), CutHistory(op, s.hist), [op])
    else s
  }

  /** A call on a clean log is read back; one behind a line that does not parse is not. */
  ghost function CallState(s: State, act: Action): State {
    var r := Ready(s);
    var ops := Logs(act, r.Memory());
    if ops == [] then s
    else if WalClean(s.dir) then
      State(LoggedAll(s.dir, ops), ReplayAll(ops, r.Memory()), ExtendAll(ops, Begun(act, r.Past())), [])
    else
      State(LoggedAll(s.dir, ops), r.shown, Begun(act, r.hist), r.ahead + ops)
  }

  /** Unless the log is clean, an import must use an id that was never used before. */
  ghost predicate CanCall(s: State, act: Action) {
    && (WalClean(s.dir) || LogStopped(s.dir) || CanCut(s))
    && Fits(act, Ready(s).Memory(), Ready(s).Past())
    && (act.Importing? && !WalClean(s.dir) ==> act.row.record.id !in Ready(s).hist.owners)
  }

  ghost predicate CallStep(s: State, t: State) {
    exists act :: CanCall(s, act) && t == CallState(s, act)
  }

  /** A crash during a call that leaves a log that can be read, then `open`. */
  ghost predicate CrashedCallStep(s: State, t: State) {
    exists act, j: nat :: CrashedCallBy(s, t, act, j)
  }

  ghost predicate CrashedCallBy(s: State, t: State, act: Action, j: nat) {
    var r := Ready(s);
    var ops := Logs(act, r.Memory());
    && CanCall(s, act) && j <= |ops| && MidwayAt(t.dir, s.dir, ops, j)
    && Recover(t.dir) == Ok(t.shown) && t.ahead == []
    && t.hist == if WalClean(s.dir) then CrashedHistory(s.dir, Begun(act, r.Past()), t.dir, ops, j)
                 else if t.dir == s.dir then s.hist else r.hist
  }

  function CrashedHistory(d: Directory, h: History, e: Directory, ops: seq<WalOp>, j: nat): History
    requires j <= |ops|
  {
    if j < |ops| && WholeLine(LoggedAll(d, ops[..j]), ops[j], e) then ExtendAll(ops[..j + 1], h)
    else ExtendAll(ops[..j], h)
  }

  /** All bytes of the operation arrived, with or without the newline. */
  predicate WholeLine(d: Directory, op: WalOp, e: Directory) {
    e == WithLine(d, Unterminated(op)) || e == Logged(d, op)
  }

  /** What compaction makes of memory, for some time and retention. */
  ghost predicate CompactedTo(before: Image, after: Image) {
    exists referenced, now, retention: nat :: CompactedBy(before, after, referenced, now, retention)
  }

  ghost predicate CompactedBy(before: Image, after: Image, referenced: set<nat>, now: int, retention: nat) {
    && (forall sid :: sid in referenced <==> Referenced(before.docs, before.archive, sid))
    && after == Compacted(before, referenced, now, retention)
  }

  /** The image a plain checkpoint writes: memory, or memory compacted. */
  ghost predicate Saves(before: Image, after: Image) {
    after == before || CompactedTo(before, after)
  }

  /** A completed plain checkpoint or compaction. */
  ghost predicate CheckpointStep(s: State, t: State) {
    exists rows :: CheckpointBy(s, t, rows)
  }

  ghost predicate CheckpointBy(s: State, t: State, rows: seq<SnapshotRow>) {
    && Shaped(s.dir) && Shaped(t.dir) && WalClean(t.dir)
    && Saves(s.Memory(), t.shown) && t.ahead == []
    && SnapshotOf(rows, t.shown, s.Past().owners)
    && ViewOf(t.dir) == Ok(View(PlainManifest(t.shown, SeqNoOf(ManifestOf(s.dir).value) + 1), Snapshot(rows, t.shown),
                                [], []))
    && t.hist == CheckpointedHistory(t.shown, s.Past())
  }

  /**
   * A crash at any file action of it, then `open`. Between the manifest switch and the new log, the old
   * log must not undo what was called behind a torn line.
   */
  ghost predicate CrashedCheckpointStep(s: State, t: State) {
    exists mem, states, from: nat, sw: nat, i: nat, rows :: CrashedCheckpointBy(s, t, mem, states, from, sw, i, rows)
  }

  ghost predicate CrashedCheckpointBy(s: State, t: State, mem: Image, states: seq<Directory>, from: nat, sw: nat,
                                      i: nat, rows: seq<SnapshotRow>) {
    && Saves(s.Memory(), mem) && SnapshotOf(rows, mem, s.Past().owners)
    && from < sw < |states| - 1 && PlainTraceAt(states, from, sw, s.dir, mem, rows) && ViewOf(s.dir).Ok?
    && from <= i < |states| && t.dir == states[i] && Recover(t.dir) == Ok(t.shown) && t.ahead == []
    && (sw <= i < |states| - 1 ==> NothingUndone(ViewOf(s.dir).value.live, s.ahead, s.shown))
    && t.hist == if i < sw then s.hist
                 else if i < |states| - 1 then MixedHistory(ViewOf(s.dir).value, s.hist, s.ahead, mem)
                 else CheckpointedHistory(mem, s.Past())
  }

  /**
   * A completed checkpoint that archives the log; what is archived must not undo what was called behind a
   * torn line.
   */
  ghost predicate ArchivingStep(s: State, t: State) {
    exists states, from: nat, sw: nat, lt: nat, rows, archives ::
      ArchivingBy(s, t, states, from, sw, lt, rows, archives)
  }

  ghost predicate ArchivingBy(s: State, t: State, states: seq<Directory>, from: nat, sw: nat, lt: nat,
                              rows: seq<SnapshotRow>, archives: seq<string>) {
    && ArchiveTrace(s, states, from, sw, lt, rows, archives)
    && NothingUndone(ViewOf(s.dir).value.arch + ViewOf(s.dir).value.live, s.ahead, s.shown)
    && WalClean(t.dir)
    && t == State(states[|states| - 1], s.Memory(), ArchivedHistory(ViewOf(s.dir).value, s.hist, s.ahead), [])
  }

  ghost predicate ArchiveTrace(s: State, states: seq<Directory>, from: nat, sw: nat, lt: nat,
                               rows: seq<SnapshotRow>, archives: seq<string>) {
    && SnapshotOf(rows, s.Memory(), s.Past().owners) && archives != [] && ViewOf(s.dir).Ok?
    && from < sw < lt < |states| && KeepTraceAt(states, from, sw, lt, s.dir, s.Memory(), rows, archives)
  }

  /** A crash at any file action of it outside the window between the two renames, then `open`. */
  ghost predicate CrashedArchivingStep(s: State, t: State) {
    exists states, from: nat, sw: nat, lt: nat, i: nat, rows, archives ::
      CrashedArchivingBy(s, t, states, from, sw, lt, i, rows, archives)
  }

  ghost predicate CrashedArchivingBy(s: State, t: State, states: seq<Directory>, from: nat, sw: nat, lt: nat, i: nat,
                                     rows: seq<SnapshotRow>, archives: seq<string>) {
    && ArchiveTrace(s, states, from, sw, lt, rows, archives)
    && (from <= i < sw || lt <= i < |states|)
    && (lt <= i ==> NothingUndone(ViewOf(s.dir).value.arch + ViewOf(s.dir).value.live, s.ahead, s.shown))
    && t.dir == states[i] && Recover(t.dir) == Ok(t.shown) && t.ahead == []
    && t.hist == if i < sw then s.hist else ArchivedHistory(ViewOf(s.dir).value, s.hist, s.ahead)
  }

  /** A crash in the window between the two renames, then `open`: the log since the last checkpoint is gone. */
  ghost predicate LostStep(s: State, t: State) {
    exists states, from: nat, sw: nat, lt: nat, i: nat, rows, archives ::
      LostBy(s, t, states, from, sw, lt, i, rows, archives)
  }

  ghost predicate LostBy(s: State, t: State, states: seq<Directory>, from: nat, sw: nat, lt: nat, i: nat,
                         rows: seq<SnapshotRow>, archives: seq<string>) {
    && ArchiveTrace(s, states, from, sw, lt, rows, archives)
    && sw <= i < lt && t.dir == states[i] && Recover(t.dir) == Ok(t.shown) && t.ahead == []
    && t.hist == LostHistory(ViewOf(s.dir).value, s.hist)
  }

  /** `open` gives back what the directory shows. */
  ghost predicate ReopenStep(s: State, t: State) {
    t.dir == WithLog(s.dir) && Recover(s.dir) == Ok(t.shown) && t.hist == s.hist && t.ahead == []
  }

  ghost predicate Step(s: State, t: State) {
    || CallStep(s, t) || CrashedCallStep(s, t)
    || CheckpointStep(s, t) || CrashedCheckpointStep(s, t)
    || ArchivingStep(s, t) || CrashedArchivingStep(s, t) || LostStep(s, t)
    || ReopenStep(s, t)
  }

  ghost predicate IsRun(run: seq<State>) {
    && |run| > 0 && run[0] == FRESH
    && forall i :: 0 <= i < |run| - 1 ==> Step(run[i], run[i + 1])
  }

  // ----- What every step keeps -----

  ghost predicate Good(s: State) {
    Behind(s.dir, s.shown, s.hist, s.ahead) && (s.ahead != [] ==> LogStopped(s.dir))
  }

  lemma FreshGood()
    ensures Good(FRESH)
  {
    var v := ViewOf(FRESH.dir).value;
    assert v == View(Manifest(0, [], []), EmptyImage(1), [], []);
    forall x: nat
      ensures LandsOn([], x, SlotOf(EmptyImage(1), x)) && StaysFiled([], x) && LandsFrom([], x, EmptyImage(1))
    {
    }
    assert Recovered(v) == EmptyImage(1);
    assert v.arch + v.live == [];
    assert forall p :: 0 <= p <= |v.live| ==> RecoveredAt(v, p) == EmptyImage(1);
  }

  lemma {:induction false} CleanRuns(lines: seq<Line>)
    requires Clean(lines)
    ensures !Stopped(lines)
  {
    if lines != [] {
      CleanRuns(lines[1..]);
    }
  }

  /** On a clean log nothing is behind a torn line. */
  lemma CleanInStep(s: State)
    requires Good(s) && WalClean(s.dir)
    ensures s.ahead == [] && s.Memory() == s.shown && s.Past() == s.hist && Durable(s.dir, s.shown, s.hist)
  {
    CleanRuns(LogLines(s.dir));
  }

  lemma MemoryGood(s: State)
    requires Good(s)
    ensures MemOk(s.Memory(), s.Past().owners) && Kept(s.Memory(), s.Past())
  {
    MemoryKept(s.shown, s.hist, s.ahead);
  }

  lemma BegunSurvives(d: Directory, mem: Image, h: History, act: Action)
    requires Survives(d, mem, h)
    ensures Survives(d, mem, Begun(act, h))
  {
    DurableImported(d, mem, h);
  }

  lemma {:induction false} BegunAllowed(ops: seq<WalOp>, mem: Image, h: History, act: Action)
    requires AllowedAll(ops, mem, h)
    ensures AllowedAll(ops, mem, Begun(act, h)) && ExtendAll(ops, Begun(act, h)) == Begun(act, ExtendAll(ops, h))
  {
    if ops != [] {
      assert Extend(ops[0], Begun(act, h)) == Begun(act, Extend(ops[0], h));
      BegunAllowed(ops[1..], Apply(ops[0], mem), Extend(ops[0], h), act);
    }
  }

  /** Behind a torn line, calls change the file but nothing that `open` reads. */
  lemma {:induction false} LoggedAllStopped(d: Directory, ops: seq<WalOp>)
    requires Shaped(d) && LogStopped(d)
    ensures Shaped(LoggedAll(d, ops)) && LogStopped(LoggedAll(d, ops)) && ViewOf(LoggedAll(d, ops)) == ViewOf(d)
    decreases |ops|
  {
    if ops != [] {
      StoppedView(d, Entry(ops[0]));
      LoggedAllStopped(Logged(d, ops[0]), ops[1..]);
    }
  }

  lemma SameViewSurvives(d: Directory, e: Directory, mem: Image, h: History)
    requires Survives(d, mem, h) && Shaped(e) && ViewOf(e) == ViewOf(d)
    ensures Survives(e, mem, h) && OpensWith(e, h)
  {
    ReopenSurvives(e, mem, h);
  }

  lemma NotCut(s: State)
    requires Good(s) && (WalClean(s.dir) || LogStopped(s.dir))
    ensures Ready(s) == s
  {
    UnterminatedUnclean(s.dir);
  }

  lemma UnterminatedUnclean(d: Directory)
    ensures LogUnterminated(d) ==> !WalClean(d) && !LogStopped(d)
  {
    var lines := LogLines(d);
    if LogUnterminated(d) {
      UnterminatedRuns(lines);
      assert lines[|lines| - 1].Unterminated?;
    }
  }

  lemma IntactMore(front: seq<Line>, last: Line)
    requires Clean(front) && Parses(last)
    ensures Intact(front) && Intact(front + [last])
  {
  }

  lemma UnterminatedRuns(lines: seq<Line>)
    requires lines != [] && lines[|lines| - 1].Unterminated? && Clean(lines[..|lines| - 1])
    ensures Intact(lines) && !Stopped(lines) && Readable(lines)
    ensures ParsedOps(lines) == ParsedOps(lines[..|lines| - 1]) + [lines[|lines| - 1].op]
  {
    var front, last := lines[..|lines| - 1], lines[|lines| - 1];
    assert lines == front + [last];
    IntactMore(front, last);
    ScanAppend(front, last);
    IntactRuns(lines);
  }

  lemma {:induction false} IntactRuns(lines: seq<Line>)
    requires Intact(lines)
    ensures !Stopped(lines)
  {
    if lines != [] {
      IntactRuns(lines[1..]);
    }
  }

  /** Whatever is appended behind an operation without its newline takes it along, or is not UTF-8. */
  lemma GluedView(d: Directory, line: Line)
    requires Shaped(d) && LogUnterminated(d) && ViewOf(d).Ok?
    ensures ViewOf(d).value.live != []
    ensures line.Broken? ==> Recover(WithLine(d, line)) == Err(UnreadableLog)
    ensures !line.Broken? ==>
              && Shaped(WithLine(d, line)) && LogStopped(WithLine(d, line))
              && ViewOf(WithLine(d, line)) == Ok(CutView(ViewOf(d).value))
  {
    var lines := LogLines(d);
    var front, last := lines[..|lines| - 1], lines[|lines| - 1];
    UnterminatedRuns(lines);
    var glued := Glued(last, line);
    assert AppendLine(lines, line) == front + [glued];
    assert Intact(front);
    ScanAppend(front, glued);
    assert ViewOf(d).value.live == ParsedOps(front) + [last.op];
    assert ParsedOps(front + [glued]) == ParsedOps(front);
    if line.Broken? {
      BrokenView(d, front + [glued]);
    } else {
      WalWriteView(d, front + [glued]);
    }
  }

  /** Once something was appended, the state is one behind a line that does not parse. */
  lemma ReadyBehind(s: State, line: Line)
    requires Good(s) && CanCut(s) && !line.Broken?
    ensures var r, e := Ready(s), WithLine(s.dir, line);
            && Behind(e, r.shown, r.hist, r.ahead) && Shaped(e) && LogStopped(e)
            && r.Memory() == s.Memory()
  {
    GluedView(s.dir, line);
    CutBehind(s.dir, WithLine(s.dir, line), s.shown, s.hist);
  }

  lemma ReadyMemory(s: State)
    requires Good(s) && (WalClean(s.dir) || LogStopped(s.dir) || CanCut(s))
    ensures var r := Ready(s);
            && r.Memory() == s.Memory() && AllowedAll(r.ahead, r.shown, r.hist) && Unowned(r.ahead, r.hist.owners)
            && MemOk(r.shown, r.hist.owners) && Kept(r.shown, r.hist)
            && MemOk(r.Memory(), r.Past().owners) && Kept(r.Memory(), r.Past())
  {
    if CanCut(s) {
      ReadyBehind(s, Torn);
    }
    MemoryKept(Ready(s).shown, Ready(s).hist, Ready(s).ahead);
  }

  /** Apart from the imports of unowned ids that are allowed then, calls behind such a line use new ids. */
  lemma CallUnowned(s: State, act: Action)
    requires Good(s) && CanCall(s, act) && !WalClean(s.dir)
    ensures Unowned(Logs(act, Ready(s).Memory()), Ready(s).hist.owners)
  {
    var r := Ready(s);
    ReadyMemory(s);
    ActionIds(act, r.Memory(), r.Past());
    ExtendAllGrows(r.ahead, r.hist);
  }

  lemma BehindMore(d: Directory, e: Directory, r: State, act: Action, ops: seq<WalOp>)
    requires Behind(d, r.shown, r.hist, r.ahead) && Shaped(e) && ViewOf(e) == ViewOf(d)
    requires ops == Logs(act, r.Memory()) && AllowedAll(ops, r.Memory(), Begun(act, r.Past()))
    requires Unowned(ops, r.hist.owners)
    ensures Behind(e, r.shown, Begun(act, r.hist), r.ahead + ops)
    ensures ExtendAll(r.ahead + ops, Begun(act, r.hist)) == ExtendAll(ops, Begun(act, r.Past()))
    ensures ReplayAll(r.ahead + ops, r.shown) == ReplayAll(ops, r.Memory())
  {
    BegunSurvives(d, r.shown, r.hist, act);
    SameViewSurvives(d, e, r.shown, Begun(act, r.hist));
    BegunAllowed(r.ahead, r.shown, r.hist, act);
    AllowedAllConcat(r.ahead, ops, r.shown, Begun(act, r.hist));
    RememberedConcat(r.ahead, ops);
    ReplayAppend(r.ahead, ops, r.shown);
  }

  /** The directory once the operations are behind a line that does not parse. */
  lemma AppendedBehind(s: State, act: Action, ops: seq<WalOp>)
    requires Good(s) && CanCall(s, act) && !WalClean(s.dir) && ops == Logs(act, Ready(s).Memory()) && ops != []
    ensures var r, e := Ready(s), LoggedAll(s.dir, ops);
            Behind(e, r.shown, r.hist, r.ahead) && Shaped(e) && LogStopped(e)
  {
    var r := Ready(s);
    if CanCut(s) {
      var d := Logged(s.dir, ops[0]);
      ReadyBehind(s, Entry(ops[0]));
      LoggedAllStopped(d, ops[1..]);
      SameViewSurvives(d, LoggedAll(d, ops[1..]), r.shown, r.hist);
    } else {
      NotCut(s);
      LoggedAllStopped(s.dir, ops);
      SameViewSurvives(s.dir, LoggedAll(s.dir, ops), r.shown, r.hist);
    }
  }

  lemma CallGood(s: State, act: Action)
    requires Good(s) && CanCall(s, act)
    ensures Good(CallState(s, act))
  {
    var r := Ready(s);
    var ops := Logs(act, r.Memory());
    ReadyMemory(s);
    ActionAllowed(act, r.Memory(), r.Past());
    if ops != [] {
      if WalClean(s.dir) {
        NotCut(s);
        CleanInStep(s);
        BegunSurvives(s.dir, s.shown, s.hist, act);
        CallKeepsDurable(s.dir, s.shown, ops, Begun(act, s.hist));
      } else {
        var e := LoggedAll(s.dir, ops);
        CallUnowned(s, act);
        AppendedBehind(s, act, ops);
        BehindMore(e, e, r, act, ops);
      }
    }
  }

  /** Memory and past after a call, whether or not the log will give it back. */
  lemma CallMemory(s: State, act: Action)
    requires Good(s) && CanCall(s, act)
    ensures var ops := Logs(act, s.Memory());
            && CallState(s, act).Memory() == ReplayAll(ops, s.Memory())
            && (ops != [] ==> CallState(s, act).Past() == ExtendAll(ops, Begun(act, Ready(s).Past())))
  {
    var r := Ready(s);
    var ops := Logs(act, r.Memory());
    ReadyMemory(s);
    if ops != [] && !WalClean(s.dir) {
      ActionAllowed(act, r.Memory(), r.Past());
      CallUnowned(s, act);
      AppendedBehind(s, act, ops);
      BehindMore(LoggedAll(s.dir, ops), LoggedAll(s.dir, ops), r, act, ops);
    }
  }

  lemma CrashedCallGood(s: State, t: State, act: Action, j: nat)
    requires Good(s) && CrashedCallBy(s, t, act, j)
    ensures Good(t)
  {
    var r := Ready(s);
    var ops := Logs(act, r.Memory());
    ReadyMemory(s);
    if WalClean(s.dir) {
      NotCut(s);
      ActionAllowed(act, r.Memory(), r.Past());
      CleanInStep(s);
      BegunSurvives(s.dir, s.shown, s.hist, act);
      CrashedOpens(s.dir, s.shown, Begun(act, s.hist), t.dir, ops, j);
    } else if t.dir == s.dir {
      SameViewSurvives(s.dir, t.dir, s.shown, s.hist);
    } else if CanCut(s) {
      CrashedCut(s, t.dir, ops, j);
    } else {
      NotCut(s);
      CrashedStopped(s.dir, s.shown, s.hist, t.dir, ops, j);
    }
  }

  lemma CutLine(s: State, e: Directory, op: WalOp) returns (line: Line)
    requires Good(s) && CanCut(s) && e in AppendStates(s.dir, op) && Recover(e).Ok?
    ensures !line.Broken? && e == WithLine(s.dir, line)
  {
    AppendStatesAre(s.dir, op, e);
    GluedView(s.dir, Broken);
    line := if e == WithLine(s.dir, Torn) then Torn
            else if e == WithLine(s.dir, Unterminated(op)) then Unterminated(op) else Entry(op);
  }

  lemma MidwayRest(e: Directory, d: Directory, ops: seq<WalOp>, j: nat)
    requires 0 < j <= |ops| && MidwayAt(e, d, ops, j)
    ensures MidwayAt(e, Logged(d, ops[0]), ops[1..], j - 1)
  {
    assert ops[..j][1..] == ops[1..][..j - 1] && ops[..j][0] == ops[0];
  }

  lemma CrashedFirst(s: State, e: Directory, op: WalOp)
    requires Good(s) && CanCut(s) && e in AppendStates(s.dir, op) && Recover(e).Ok?
    ensures OpensWith(e, Ready(s).hist)
  {
    var line := CutLine(s, e, op);
    ReadyBehind(s, line);
    ReopenSurvives(e, Ready(s).shown, Ready(s).hist);
  }

  lemma CrashedLater(s: State, e: Directory, ops: seq<WalOp>, j: nat)
    requires Good(s) && CanCut(s) && 0 < j <= |ops| && MidwayAt(e, s.dir, ops, j) && Recover(e).Ok?
    ensures OpensWith(e, Ready(s).hist)
  {
    MidwayRest(e, s.dir, ops, j);
    ReadyBehind(s, Entry(ops[0]));
    CrashedStopped(Logged(s.dir, ops[0]), Ready(s).shown, Ready(s).hist, e, ops[1..], j - 1);
  }

  /** A crash after the first bytes behind an operation without its newline. */
  lemma CrashedCut(s: State, e: Directory, ops: seq<WalOp>, j: nat)
    requires Good(s) && CanCut(s) && j <= |ops| && MidwayAt(e, s.dir, ops, j) && Recover(e).Ok? && e != s.dir
    ensures OpensWith(e, Ready(s).hist)
  {
    if j == 0 {
      CrashedFirst(s, e, ops[0]);
    } else {
      CrashedLater(s, e, ops, j);
    }
  }

  lemma StoppedCrash(d: Directory, op: WalOp, e: Directory)
    requires Shaped(d) && LogStopped(d) && e in AppendStates(d, op) && Recover(e).Ok?
    ensures Shaped(e) && ViewOf(e) == ViewOf(d)
  {
    AppendStatesAre(d, op, e);
    StoppedView(d, Torn);
    StoppedView(d, Unterminated(op));
    StoppedView(d, Entry(op));
    StoppedView(d, Broken);
  }

  lemma CrashedStopped(d: Directory, mem: Image, h: History, e: Directory, ops: seq<WalOp>, j: nat)
    requires Survives(d, mem, h) && LogStopped(d) && j <= |ops| && MidwayAt(e, d, ops, j) && Recover(e).Ok?
    ensures OpensWith(e, h)
  {
    var before := LoggedAll(d, ops[..j]);
    LoggedAllStopped(d, ops[..j]);
    if e != before {
      StoppedCrash(before, ops[j], e);
    }
    SameViewSurvives(d, e, mem, h);
  }

  lemma CrashedOpens(d: Directory, mem: Image, h: History, e: Directory, ops: seq<WalOp>, j: nat)
    requires Durable(d, mem, h) && AllowedAll(ops, mem, h) && j <= |ops| && MidwayAt(e, d, ops, j) && Recover(e).Ok?
    ensures OpensWith(e, CrashedHistory(d, h, e, ops, j))
  {
    if j < |ops| && WholeLine(LoggedAll(d, ops[..j]), ops[j], e) {
      CrashedAfter(d, mem, h, e, ops, j);
    } else {
      CrashedBefore(d, mem, h, e, ops, j);
    }
  }

  lemma CrashedBefore(d: Directory, mem: Image, h: History, e: Directory, ops: seq<WalOp>, j: nat)
    requires Durable(d, mem, h) && AllowedAll(ops, mem, h) && j <= |ops| && MidwayAt(e, d, ops, j) && Recover(e).Ok?
    requires j < |ops| ==> !WholeLine(LoggedAll(d, ops[..j]), ops[j], e)
    ensures OpensWith(e, ExtendAll(ops[..j], h))
  {
    var before := LoggedAll(d, ops[..j]);
    if e != before {
      PartLine(before, ops[j], e);
    }
    PrefixDurable(d, mem, ops, h, j);
    PartLineOpens(before, ReplayAll(ops[..j], mem), ExtendAll(ops[..j], h), e);
  }

  lemma PartLine(d: Directory, op: WalOp, e: Directory)
    requires e in AppendStates(d, op) && !WholeLine(d, op, e)
    ensures e == WithLine(d, Torn) || e == WithLine(d, Broken)
  {
    AppendStatesAre(d, op, e);
  }

  lemma CrashedAfter(d: Directory, mem: Image, h: History, e: Directory, ops: seq<WalOp>, j: nat)
    requires Durable(d, mem, h) && AllowedAll(ops, mem, h) && j < |ops| && WholeLine(LoggedAll(d, ops[..j]), ops[j], e)
    ensures OpensWith(e, ExtendAll(ops[..j + 1], h))
  {
    PrefixDurable(d, mem, ops, h, j);
    PrefixDurable(d, mem, ops, h, j + 1);
    LoggedAllStep(d, ops, j);
    WholeLineOpens(LoggedAll(d, ops[..j]), ReplayAll(ops[..j], mem), ExtendAll(ops[..j], h), ops[j], e,
                   LoggedAll(d, ops[..j + 1]), ReplayAll(ops[..j + 1], mem), ExtendAll(ops[..j + 1], h));
  }

  lemma PartLineOpens(d: Directory, mem: Image, h: History, e: Directory)
    requires Durable(d, mem, h) && Recover(e).Ok?
    requires e == d || e == WithLine(d, Torn) || e == WithLine(d, Broken)
    ensures OpensWith(e, h)
  {
    TornAppendRecovers(d, mem, WalOp.HardDelete(0), h);
    if e != d {
      LoggedView(d, Torn);
      assert ViewOf(d).value.live + [] == ViewOf(d).value.live;
    }
    SameViewSurvives(d, e, mem, h);
  }

  lemma WholeLineOpens(d: Directory, mem: Image, h: History, op: WalOp, e: Directory, logged: Directory, after: Image,
                       g: History)
    requires Durable(d, mem, h) && WholeLine(d, op, e) && logged == Logged(d, op) && Durable(logged, after, g)
    ensures OpensWith(e, g)
  {
    LoggedView(d, Unterminated(op));
    LoggedView(d, Entry(op));
    SameViewSurvives(logged, e, after, g);
  }

  /** Whatever a plain checkpoint saves keeps what memory kept. */
  lemma SavesKeeps(before: Image, after: Image, h: History)
    requires MemOk(before, h.owners) && Kept(before, h) && Saves(before, after)
    ensures MemOk(after, h.owners) && Kept(after, h)
    ensures DropsFrom(before, after) && KeepsSources(before, after) && after.subjects == before.subjects
  {
    if after != before {
      var referenced, now, retention: nat :| CompactedBy(before, after, referenced, now, retention);
      CompactKeeps(before, referenced, now, retention, h);
    }
  }

  lemma CheckpointSurvives(d: Directory, shown: Image, h: History, ahead: seq<WalOp>, e: Directory, after: Image,
                           rows: seq<SnapshotRow>)
    requires Behind(d, shown, h, ahead) && Saves(ReplayAll(ahead, shown), after) && Shaped(d) && Shaped(e)
    requires SnapshotOf(rows, after, ExtendAll(ahead, h).owners)
    requires ViewOf(e) == Ok(View(PlainManifest(after, SeqNoOf(ManifestOf(d).value) + 1), Snapshot(rows, after), [],
                                  []))
    ensures Survives(e, after, CheckpointedHistory(after, ExtendAll(ahead, h)))
  {
    MemoryKept(shown, h, ahead);
    SavedSurvives(d, e, ReplayAll(ahead, shown), after, rows, ExtendAll(ahead, h));
  }

  lemma CheckpointGood(s: State, t: State, rows: seq<SnapshotRow>)
    requires Good(s) && CheckpointBy(s, t, rows)
    ensures Good(t)
  {
    CheckpointSurvives(s.dir, s.shown, s.hist, s.ahead, t.dir, t.shown, rows);
    RestsGood(t);
  }

  lemma SavedSurvives(d: Directory, e: Directory, before: Image, after: Image, rows: seq<SnapshotRow>, h: History)
    requires MemOk(before, h.owners) && Kept(before, h) && Saves(before, after) && Shaped(d) && Shaped(e)
    requires SnapshotOf(rows, after, h.owners)
    requires ViewOf(e) == Ok(View(PlainManifest(after, SeqNoOf(ManifestOf(d).value) + 1), Snapshot(rows, after), [],
                                  []))
    ensures Survives(e, after, CheckpointedHistory(after, h))
  {
    SavesKeeps(before, after, h);
    AfterTruncateSafe(e, d, after, rows, h);
  }

  lemma RestsGood(t: State)
    requires Survives(t.dir, t.shown, t.hist) && t.ahead == []
    ensures Good(t)
  {
  }

  lemma CrashedCheckpointGood(s: State, t: State, mem: Image, states: seq<Directory>, from: nat, sw: nat, i: nat,
                              rows: seq<SnapshotRow>)
    requires Good(s) && CrashedCheckpointBy(s, t, mem, states, from, sw, i, rows)
    ensures Good(t)
  {
    MemoryGood(s);
    SavesKeeps(s.Memory(), mem, s.Past());
    CompactCrashSafe(states, from, sw, s.dir, s.shown, s.hist, s.ahead, s.Memory(), mem, rows, i);
  }

  lemma ArchivingGood(s: State, t: State, states: seq<Directory>, from: nat, sw: nat, lt: nat,
                      rows: seq<SnapshotRow>, archives: seq<string>)
    requires Good(s) && ArchivingBy(s, t, states, from, sw, lt, rows, archives)
    ensures Good(t)
  {
    KeepCheckpointCrash(states, from, sw, lt, s.dir, s.shown, s.hist, s.ahead, s.Memory(), rows, archives,
                        |states| - 1);
  }

  lemma CrashedArchivingGood(s: State, t: State, states: seq<Directory>, from: nat, sw: nat, lt: nat, i: nat,
                             rows: seq<SnapshotRow>, archives: seq<string>)
    requires Good(s) && CrashedArchivingBy(s, t, states, from, sw, lt, i, rows, archives)
    ensures Good(t)
  {
    KeepCheckpointCrash(states, from, sw, lt, s.dir, s.shown, s.hist, s.ahead, s.Memory(), rows, archives, i);
    if lt <= i {
      ReopenSurvives(t.dir, s.Memory(), t.hist);
    }
  }

  lemma LostGood(s: State, t: State, states: seq<Directory>, from: nat, sw: nat, lt: nat, i: nat,
                 rows: seq<SnapshotRow>, archives: seq<string>)
    requires Good(s) && LostBy(s, t, states, from, sw, lt, i, rows, archives)
    ensures Good(t)
  {
    assert states[i] in Reading(Ok(ViewOf(s.dir).value.(live := [])));
    LostSafe(t.dir, ViewOf(s.dir).value, s.shown, s.hist);
  }

  lemma ReopenGood(s: State, t: State)
    requires Good(s) && ReopenStep(s, t)
    ensures Good(t)
  {
    ShapedOpens(s.dir);
    if WAL_FILE !in s.dir {
      NewLogView(s.dir);
    }
    SameViewSurvives(s.dir, t.dir, s.shown, s.hist);
  }

  lemma CallsGood(s: State, t: State)
    requires Good(s) && (CallStep(s, t) || CrashedCallStep(s, t))
    ensures Good(t)
  {
    if CallStep(s, t) {
      var act :| CanCall(s, act) && t == CallState(s, act);
      CallGood(s, act);
    } else {
      var act, j: nat :| CrashedCallBy(s, t, act, j);
      CrashedCallGood(s, t, act, j);
    }
  }

  lemma CheckpointsGood(s: State, t: State)
    requires Good(s) && (CheckpointStep(s, t) || CrashedCheckpointStep(s, t))
    ensures Good(t)
  {
    if CheckpointStep(s, t) {
      var rows :| CheckpointBy(s, t, rows);
      CheckpointGood(s, t, rows);
    } else {
      var mem, states, from: nat, sw: nat, i: nat, rows :| CrashedCheckpointBy(s, t, mem, states, from, sw, i, rows);
      CrashedCheckpointGood(s, t, mem, states, from, sw, i, rows);
    }
  }

  lemma ArchivingsGood(s: State, t: State)
    requires Good(s) && (ArchivingStep(s, t) || CrashedArchivingStep(s, t))
    ensures Good(t)
  {
    if ArchivingStep(s, t) {
      var states, from: nat, sw: nat, lt: nat, rows, archives :|
        ArchivingBy(s, t, states, from, sw, lt, rows, archives);
      ArchivingGood(s, t, states, from, sw, lt, rows, archives);
    } else {
      var states, from: nat, sw: nat, lt: nat, i: nat, rows, archives :|
        CrashedArchivingBy(s, t, states, from, sw, lt, i, rows, archives);
      CrashedArchivingGood(s, t, states, from, sw, lt, i, rows, archives);
    }
  }

  lemma StepGood(s: State, t: State)
    requires Good(s) && Step(s, t)
    ensures Good(t)
  {
    if CallStep(s, t) || CrashedCallStep(s, t) {
      CallsGood(s, t);
    } else if CheckpointStep(s, t) || CrashedCheckpointStep(s, t) {
      CheckpointsGood(s, t);
    } else if ArchivingStep(s, t) || CrashedArchivingStep(s, t) {
      ArchivingsGood(s, t);
    } else if LostStep(s, t) {
      var states, from: nat, sw: nat, lt: nat, i: nat, rows, archives :|
        LostBy(s, t, states, from, sw, lt, i, rows, archives);
      LostGood(s, t, states, from, sw, lt, i, rows, archives);
    } else {
      ReopenGood(s, t);
    }
  }

  /**
   * Safety over whole runs: in every state of every run the directory opens, and to the memory it is
   * linked to, with hit counters never smaller and exact while no log is archived; that is all of memory
   * unless calls were made behind a torn line. The two maps are disjoint; without imports each subject has
   * at most one live version, and without imports and hard deletions every source of every live summary is
   * archived, both in memory and in what `open` would give.
   */
  lemma {:induction false} RunSafe(run: seq<State>, i: nat)
    requires IsRun(run) && i < |run|
    ensures Good(run[i])
    ensures var s := run[i];
            && Recover(s.dir).Ok?
            && var img := Recover(s.dir).value;
            && Grows(s.shown, img) && img.nextId == s.shown.nextId
            && (ManifestOf(s.dir).value.walArchives == [] ==>
                  img.docs == s.shown.docs && img.archive == s.shown.archive)
            && (WalClean(s.dir) ==> s.Memory() == s.shown)
            && Disjoint(s.Memory()) && Disjoint(img)
            && (!s.Past().imported ==> SingleLive(s.Memory()) && SingleLive(img))
            && (!s.Past().imported && !s.Past().deleted ==> SourcesSafe(s.Memory()) && SourcesSafe(img))
  {
    if i == 0 {
      FreshGood();
    } else {
      RunSafe(run, i - 1);
      assert Step(run[i - 1], run[i - 1 + 1]);
      StepGood(run[i - 1], run[i]);
    }
    GoodSafe(run[i]);
  }

  lemma GoodSafe(s: State)
    requires Good(s)
    ensures Recover(s.dir).Ok?
    ensures var img := Recover(s.dir).value;
            && Grows(s.shown, img) && img.nextId == s.shown.nextId
            && (ManifestOf(s.dir).value.walArchives == [] ==>
                  img.docs == s.shown.docs && img.archive == s.shown.archive)
            && (WalClean(s.dir) ==> s.Memory() == s.shown)
            && Disjoint(s.Memory()) && Disjoint(img)
            && (!s.Past().imported ==> SingleLive(s.Memory()) && SingleLive(img))
            && (!s.Past().imported && !s.Past().deleted ==> SourcesSafe(s.Memory()) && SourcesSafe(img))
  {
    MemoryGood(s);
    SurvivorRecovers(s.dir, s.shown, s.hist);
    ExtendAllWeakens(s.ahead, s.hist);
    if WalClean(s.dir) {
      CleanInStep(s);
    }
  }

  lemma {:induction false} ExtendAllGrows(ops: seq<WalOp>, h: History)
    ensures h.owners.Keys <= ExtendAll(ops, h).owners.Keys
  {
    if ops != [] {
      ExtendAllGrows(ops[1..], Extend(ops[0], h));
    }
  }

  /**
   * The steps after which the directory shows less than it did: a crash between the two renames, and an append
   * behind an operation without its newline.
   */
  ghost predicate SetsBack(s: State, t: State) {
    LostStep(s, t) || (LogUnterminated(s.dir) && (CallStep(s, t) || CrashedCallStep(s, t)))
  }

  lemma CallOwnersGrow(s: State, act: Action)
    requires !LogUnterminated(s.dir)
    ensures s.hist.owners.Keys <= CallState(s, act).hist.owners.Keys
  {
    ExtendAllGrows(s.ahead, s.hist);
    ExtendAllGrows(Logs(act, s.Memory()), Begun(act, s.Past()));
  }

  lemma CrashedOwnersGrow(s: State, t: State, act: Action, j: nat)
    requires CrashedCallBy(s, t, act, j) && !LogUnterminated(s.dir)
    ensures s.hist.owners.Keys <= t.hist.owners.Keys
  {
    var ops := Logs(act, s.Memory());
    ExtendAllGrows(s.ahead, s.hist);
    ExtendAllGrows(ops[..j], Begun(act, s.Past()));
    if j < |ops| {
      ExtendAllGrows(ops[..j + 1], Begun(act, s.Past()));
    }
  }

  lemma StepOwnersGrow(s: State, t: State)
    requires Step(s, t) && !SetsBack(s, t)
    ensures s.hist.owners.Keys <= t.hist.owners.Keys
  {
    if CallStep(s, t) {
      var act :| CanCall(s, act) && t == CallState(s, act);
      CallOwnersGrow(s, act);
    } else if CrashedCallStep(s, t) {
      var act, j: nat :| CrashedCallBy(s, t, act, j);
      CrashedOwnersGrow(s, t, act, j);
    } else {
      SavedOwnersGrow(s, t);
    }
  }

  lemma SavedOwnersGrow(s: State, t: State)
    requires CheckpointStep(s, t) || CrashedCheckpointStep(s, t) || ArchivingStep(s, t) || CrashedArchivingStep(s, t) ||
             ReopenStep(s, t)
    ensures s.hist.owners.Keys <= t.hist.owners.Keys
  {
    ExtendAllGrows(s.ahead, s.hist);
  }

  /**
   * An id whose record the directory has once shown, even if it is gone since, is not issued again before the
   * directory is set back.
   */
  lemma {:induction false} IdsNeverReissued(run: seq<State>, i: nat, j: nat, x: nat)
    requires IsRun(run) && i <= j < |run| && x in run[i].hist.owners
    requires forall k :: i <= k < j ==> !SetsBack(run[k], run[k + 1])
    ensures x in run[j].hist.owners && x < run[j].Memory().nextId
    decreases j - i
  {
    if i < j {
      assert Step(run[i], run[i + 1]);
      StepOwnersGrow(run[i], run[i + 1]);
      IdsNeverReissued(run, i + 1, j, x);
    } else {
      RunSafe(run, j);
      MemoryGood(run[j]);
      ExtendAllGrows(run[j].ahead, run[j].hist);
    }
  }

  // ----- The methods of a collection are steps of a run -----

  lemma CrashedCallIsStep(s: State, t: State, act: Action, j: nat)
    requires CrashedCallBy(s, t, act, j)
    ensures Step(s, t)
  {
    assert CrashedCallStep(s, t);
  }

  lemma CallCrashIsStep(s: State, act: Action, e: Directory)
    requires Good(s) && CanCall(s, act) && Midway(e, s.dir, Logs(act, Ready(s).Memory())) && Recover(e).Ok?
    ensures exists t :: Step(s, t) && t.dir == e
  {
    var r := Ready(s);
    var ops := Logs(act, r.Memory());
    var j: nat :| j <= |ops| && MidwayAt(e, s.dir, ops, j);
    var h := if WalClean(s.dir) then CrashedHistory(s.dir, Begun(act, r.Past()), e, ops, j)
             else if e == s.dir then s.hist else r.hist;
    var t := State(e, Recover(e).value, h, []);
    CrashedCallIsStep(s, t, act, j);
  }

  lemma CallTaken(s: State, act: Action, t0: seq<Directory>, t1: seq<Directory>, d1: Directory, mem1: Image,
                  h1: History)
    requires Good(s) && (WalClean(s.dir) || LogStopped(s.dir) || CanCut(s))
    requires act.Importing? && !WalClean(s.dir) ==> act.row.record.id !in Ready(s).hist.owners
    requires Performed(act, t0, t1, s.dir, d1, s.Memory(), mem1, Ready(s).Past(), h1)
    ensures CanCall(s, act) && Ready(s).Memory() == s.Memory()
    ensures var ops := Logs(act, s.Memory());
            && mem1 == ReplayAll(ops, s.Memory()) && d1 == LoggedAll(s.dir, ops)
            && h1 == ExtendAll(ops, Begun(act, Ready(s).Past())) && Traced(t0, t1, s.dir, ops)
  {
    ReadyMemory(s);
    PerformedParts(act, t0, t1, s.dir, d1, s.Memory(), mem1, Ready(s).Past(), h1);
  }

  lemma CallEnds(s: State, act: Action, ops: seq<WalOp>)
    requires Good(s) && CanCall(s, act) && Ready(s).Memory() == s.Memory() && ops == Logs(act, s.Memory())
    ensures var t := CallState(s, act);
            && CallStep(s, t) && t.dir == LoggedAll(s.dir, ops) && t.Memory() == ReplayAll(ops, s.Memory())
            && (ops != [] ==> t.Past() == ExtendAll(ops, Begun(act, Ready(s).Past())))
  {
    CallDir(s, act);
    CallMemory(s, act);
  }

  lemma CallDir(s: State, act: Action)
    ensures CallState(s, act).dir == LoggedAll(s.dir, Logs(act, Ready(s).Memory()))
  {
  }

  /** A performed call is a step, and each directory it passes through that opens is one of its crash steps. */
  lemma CallIsStep(s: State, act: Action, t0: seq<Directory>, t1: seq<Directory>, d1: Directory, mem1: Image,
                   h1: History)
    requires Good(s) && (WalClean(s.dir) || LogStopped(s.dir) || CanCut(s))
    requires act.Importing? && !WalClean(s.dir) ==> act.row.record.id !in Ready(s).hist.owners
    requires Performed(act, t0, t1, s.dir, d1, s.Memory(), mem1, Ready(s).Past(), h1)
    ensures var t := CallState(s, act);
            && Step(s, t) && t.dir == d1 && t.Memory() == mem1
            && (Logs(act, s.Memory()) != [] ==> t.Past() == h1)
    ensures forall k :: |t0| <= k < |t1| && Recover(t1[k]).Ok? ==> exists t :: Step(s, t) && t.dir == t1[k]
  {
    CallTaken(s, act, t0, t1, d1, mem1, h1);
    CallEnds(s, act, Logs(act, s.Memory()));
    forall k | |t0| <= k < |t1| && Recover(t1[k]).Ok? ensures exists t :: Step(s, t) && t.dir == t1[k] {
      CallCrashIsStep(s, act, t1[k]);
    }
  }

  /** A plain checkpoint, also as the end of a compaction or of a consolidation. */
  lemma CheckpointIsStep(s: State, t0: seq<Directory>, t1: seq<Directory>, d1: Directory, mem: Image,
                         rows: seq<SnapshotRow>)
    requires Good(s) && Saves(s.Memory(), mem)
    requires PlainDone(t0, t1, s.dir, d1, mem, s.Past(), rows)
    ensures Step(s, State(d1, mem, CheckpointedHistory(mem, s.Past()), []))
    ensures NothingUndone(ViewOf(s.dir).value.live, s.ahead, s.shown) ==>
              forall k :: |t0| <= k < |t1| && Recover(t1[k]).Ok? ==> exists t :: Step(s, t) && t.dir == t1[k]
  {
    var sw := CheckpointTrace(s, t0, t1, d1, mem, rows);
    assert CheckpointBy(s, State(d1, mem, CheckpointedHistory(mem, s.Past()), []), rows);
    if NothingUndone(ViewOf(s.dir).value.live, s.ahead, s.shown) {
      forall k | |t0| <= k < |t1| && Recover(t1[k]).Ok? ensures exists t :: Step(s, t) && t.dir == t1[k] {
        CheckpointCrashIsStep(s, mem, t1, |t0|, sw, k, rows);
      }
    }
  }

  lemma CheckpointTrace(s: State, t0: seq<Directory>, t1: seq<Directory>, d1: Directory, mem: Image,
                        rows: seq<SnapshotRow>)
    returns (sw: nat)
    requires PlainDone(t0, t1, s.dir, d1, mem, s.Past(), rows)
    ensures |t0| < sw < |t1| - 1 && PlainTraceAt(t1, |t0|, sw, s.dir, mem, rows)
    ensures Shaped(s.dir) && Shaped(d1) && WalClean(d1) && SnapshotOf(rows, mem, s.Past().owners)
    ensures ViewOf(d1) == Ok(View(PlainManifest(mem, SeqNoOf(ManifestOf(s.dir).value) + 1), Snapshot(rows, mem), [],
                                  []))
  {
    SavedPlainly(Save(t0, t1, s.dir, d1, mem, s.Past(), rows));
    sw :| |t0| < sw < |t1| - 1 && PlainTraceAt(t1, |t0|, sw, s.dir, mem, rows);
    assert t1[|t1| - 1] == d1;
  }

  lemma CheckpointCrashIsStep(s: State, mem: Image, states: seq<Directory>, from: nat, sw: nat, i: nat,
                              rows: seq<SnapshotRow>)
    requires Good(s) && Saves(s.Memory(), mem) && SnapshotOf(rows, mem, s.Past().owners)
    requires from < sw < |states| - 1 && PlainTraceAt(states, from, sw, s.dir, mem, rows)
    requires from <= i < |states| && Recover(states[i]).Ok?
    requires NothingUndone(ViewOf(s.dir).value.live, s.ahead, s.shown)
    ensures exists t :: Step(s, t) && t.dir == states[i]
  {
    var h := if i < sw then s.hist
             else if i < |states| - 1 then MixedHistory(ViewOf(s.dir).value, s.hist, s.ahead, mem)
             else CheckpointedHistory(mem, s.Past());
    var t := State(states[i], Recover(states[i]).value, h, []);
    assert CrashedCheckpointBy(s, t, mem, states, from, sw, i, rows);
    assert Step(s, t);
  }

  /** A checkpoint that archives the log. */
  lemma ArchivingIsStep(s: State, t0: seq<Directory>, t1: seq<Directory>, d1: Directory, rows: seq<SnapshotRow>,
                        archives: seq<string>)
    requires Good(s) && KeepDone(t0, t1, s.dir, d1, s.Memory(), s.Past(), rows, archives)
    requires NothingUndone(ViewOf(s.dir).value.arch + ViewOf(s.dir).value.live, s.ahead, s.shown)
    ensures Step(s, State(d1, s.Memory(), ArchivedHistory(ViewOf(s.dir).value, s.hist, s.ahead), []))
    ensures forall k :: |t0| <= k < |t1| && Recover(t1[k]).Ok? ==> exists t :: Step(s, t) && t.dir == t1[k]
  {
    var h := ArchivedHistory(ViewOf(s.dir).value, s.hist, s.ahead);
    SavedKeeping(Save(t0, t1, s.dir, d1, s.Memory(), s.Past(), rows), archives);
    var sw, lt :| |t0| < sw < lt < |t1| && KeepTraceAt(t1, |t0|, sw, lt, s.dir, s.Memory(), rows, archives);
    assert ArchiveTrace(s, t1, |t0|, sw, lt, rows, archives);
    assert ArchivingBy(s, State(d1, s.Memory(), h, []), t1, |t0|, sw, lt, rows, archives);
    forall k | |t0| <= k < |t1| && Recover(t1[k]).Ok? ensures exists t :: Step(s, t) && t.dir == t1[k] {
      ArchivingCrashIsStep(s, t1, |t0|, sw, lt, k, rows, archives);
    }
  }

  lemma ArchivingCrashIsStep(s: State, states: seq<Directory>, from: nat, sw: nat, lt: nat, i: nat,
                             rows: seq<SnapshotRow>, archives: seq<string>)
    requires Good(s) && ArchiveTrace(s, states, from, sw, lt, rows, archives)
    requires NothingUndone(ViewOf(s.dir).value.arch + ViewOf(s.dir).value.live, s.ahead, s.shown)
    requires from <= i < |states| && Recover(states[i]).Ok?
    ensures exists t :: Step(s, t) && t.dir == states[i]
  {
    var v, img := ViewOf(s.dir).value, Recover(states[i]).value;
    if sw <= i < lt {
      var t := State(states[i], img, LostHistory(v, s.hist), []);
      assert LostBy(s, t, states, from, sw, lt, i, rows, archives);
      assert Step(s, t);
    } else {
      var t := State(states[i], img, if i < sw then s.hist else ArchivedHistory(v, s.hist, s.ahead), []);
      assert CrashedArchivingBy(s, t, states, from, sw, lt, i, rows, archives);
      assert Step(s, t);
    }
  }
}
