/** A call in progress: what it has logged, the states it has passed through, and what one more entry adds. */
module Calls {
  import opened Wrappers
  import opened Records
  import opened Replay
  import opened Absorb
  import opened FileNames
  import opened Disk
  import opened Invariants
  import opened Durability
  import opened Operations

  /** `later` extends `earlier` by states passed through while appending `ops` to `d`. */
  ghost predicate Traced(earlier: seq<Directory>, later: seq<Directory>, d: Directory, ops: seq<WalOp>) {
    && |earlier| <= |later| && later[..|earlier|] == earlier
    && forall k :: |earlier| <= k < |later| ==> Midway(later[k], d, ops)
  }

  lemma TracedAppend(earlier: seq<Directory>, later: seq<Directory>, d: Directory, ops: seq<WalOp>, op: WalOp)
    requires Traced(earlier, later, d, ops)
    ensures Traced(earlier, later + AppendStates(LoggedAll(d, ops), op), d, ops + [op])
    ensures LoggedAll(d, ops + [op]) == Logged(LoggedAll(d, ops), op)
  {
    var more := later + AppendStates(LoggedAll(d, ops), op);
    LoggedAllAppend(d, ops, op);
    assert more[..|earlier|] == later[..|earlier|];
    forall k | |earlier| <= k < |more| ensures Midway(more[k], d, ops + [op]) {
      if k < |later| {
        assert more[k] == later[k];
        MidwayExtend(later[k], d, ops, op);
      } else {
        assert more[k] in AppendStates(LoggedAll(d, ops), op);
        MidwayAppended(d, ops, op, more[k]);
      }
    }
  }

  /** A call in progress: where it started and what it has logged so far. */
  datatype Call = Call(mem0: Image, d0: Directory, t0: seq<Directory>, h0: History, ops: seq<WalOp>) {
    function Memory(): Image {
      ReplayAll(ops, mem0)
    }

    function Files(): Directory {
      LoggedAll(d0, ops)
    }

    function History(): History {
      ExtendAll(ops, h0)
    }

    function Next(op: WalOp): Call {
      this.(ops := ops + [op])
    }
  }

  /** Everything logged so far was allowed, and the trace shows nothing else. */
  ghost predicate OnTrack(c: Call, trace: seq<Directory>) {
    AllowedAll(c.ops, c.mem0, c.h0) && Traced(c.t0, trace, c.d0, c.ops)
  }

  /** The calls in progress when trace, memory, directory and history are these. */
  ghost function InProgress(trace: seq<Directory>, mem: Image, files: Directory, hist: History): iset<Call> {
    iset c: Call |
      && OnTrack(c, trace) && Kept(mem, hist) && MemOk(mem, hist.owners)
      && c.Memory() == mem && c.Files() == files && c.History() == hist
  }

  lemma StartCall(c: Call)
    requires c.ops == []
    ensures OnTrack(c, c.t0) && c.Memory() == c.mem0 && c.Files() == c.d0 && c.History() == c.h0
  {
    assert c.t0[..|c.t0|] == c.t0;
  }

  lemma CallHolds(c: Call, trace: seq<Directory>, mem: Image, files: Directory, hist: History)
    requires c in InProgress(trace, mem, files, hist)
    ensures Kept(mem, hist) && MemOk(mem, hist.owners) && OnTrack(c, trace)
    ensures c.Memory() == mem && c.Files() == files && c.History() == hist
  {
  }

  /** One more entry, once memory shows its effect and the log holds it. */
  lemma NextCall(c: Call, op: WalOp, trace: seq<Directory>, mem: Image, files: Directory, hist: History,
                 trace': seq<Directory>, mem': Image, files': Directory, hist': History)
    requires c in InProgress(trace, mem, files, hist) && Allowed(op, mem, hist) &&
             Kept(Apply(op, mem), Extend(op, hist))
    requires trace' == trace + AppendStates(files, op) && files' == Logged(files, op)
    requires mem' == Apply(op, mem) && hist' == Extend(op, hist)
    ensures c.Next(op) in InProgress(trace', mem', files', hist')
  {
    MemOkExtend(mem, op, hist);
    AllowedAllAppend(c.ops, op, c.mem0, c.h0);
    TracedAppend(c.t0, trace, c.d0, c.ops, op);
    ReplayOne(c.ops, op, c.mem0);
  }

  /** An appended operation never makes a readable log unreadable. */
  lemma EntryReadable(lines: seq<Line>, op: WalOp)
    requires Readable(lines)
    ensures Readable(AppendLine(lines, Entry(op)))
  {
    ScanAppend(lines, Entry(op));
    if Stopped(lines) {
      StoppedAppend(lines, Entry(op));
      StoppedReadable(AppendLine(lines, Entry(op)));
    } else if EndsOpen(lines) {
      assert lines == lines[..|lines| - 1] + [lines[|lines| - 1]];
      ScanAppend(lines[..|lines| - 1], Garbled);
    } else {
      assert AppendLine(lines, Entry(op)) == lines + [Entry(op)];
    }
  }

  /** Logging touches no file but the live log. */
  lemma {:induction false} LoggedAllShaped(d: Directory, ops: seq<WalOp>)
    requires Shaped(d)
    ensures Shaped(LoggedAll(d, ops)) && ManifestOf(LoggedAll(d, ops)) == ManifestOf(d)
    ensures WAL_FILE in d ==> WAL_FILE in LoggedAll(d, ops)
    decreases |ops|
  {
    if ops != [] {
      ShapedOpens(d);
      EntryReadable(LogLines(d), ops[0]);
      WalWriteView(d, AppendLine(LogLines(d), Entry(ops[0])));
      assert ManifestOf(Logged(d, ops[0])) == ManifestOf(d);
      LoggedAllShaped(Logged(d, ops[0]), ops[1..]);
    }
  }

  // ----- One touch, one deletion, one archival -----

  lemma TouchKeeps(img: Image, x: nat, now: int, h: History)
    requires Kept(img, h)
    ensures Kept(Apply(Touch(x, now), img), Extend(Touch(x, now), h))
  {
    if !h.imported {
      ApplySingleLive(Touch(x, now), img);
      if !h.deleted {
        ApplySourcesSafe(Touch(x, now), img);
      }
    }
  }

  lemma DeleteKeeps(img: Image, x: nat, h: History)
    requires Kept(img, h)
    ensures Kept(Apply(HardDelete(x), img), Extend(HardDelete(x), h))
  {
    if !h.imported {
      ApplySingleLive(HardDelete(x), img);
    }
  }

  lemma ArchiveKeeps(img: Image, x: nat, h: History)
    requires Kept(img, h)
    ensures Kept(Apply(Archive(x), img), Extend(Archive(x), h))
  {
    if !h.imported {
      ApplySingleLive(Archive(x), img);
      if !h.deleted {
        ApplySourcesSafe(Archive(x), img);
      }
    }
  }
}
