/** Values behind `consolidate`, `compact` and the loops of `open`. */
module Consolidation {
  import opened Wrappers
  import opened Records
  import opened Replay
  import opened Absorb
  import opened FileNames
  import opened Disk
  import opened Invariants
  import opened Durability
  import opened Operations
  import opened Checkpoints
  import opened Folders
  import opened CheckpointSteps
  import opened Calls
  import opened Sorting

  /** What the scoring code supplies to consolidation: the top keyword, the salience and the summary text. */
  datatype Scoring = Scoring(
    keyword: StoredDoc -> Option<string>,
    salience: StoredDoc -> real,
    coldMax: real,
    summarize: (string, seq<StoredDoc>) -> (string, Encoding))

  predicate Eligible(d: StoredDoc, sc: Scoring) {
    d.record.IsLive() && !d.record.IsSummary() && d.record.hits == 0 && sc.salience(d) <= sc.coldMax
  }

  /** The keyword a record is grouped under: its top keyword, or its subject if it has none. */
  function GroupKey(d: StoredDoc, sc: Scoring): Option<string> {
    var kw := sc.keyword(d);
    if kw.Some? then kw else d.record.subject
  }

  /** Live, no summary, never hit, and of a salience that is at most the threshold. */
  ghost predicate Cold(d: StoredDoc, sc: Scoring) {
    d.record.validTo.None? && SUMMARY_TAG !in d.record.tags && d.record.hits == 0 && sc.salience(d) <= sc.coldMax
  }

  /** The keyword is the top keyword of the record or, if it has none, its subject. */
  ghost predicate Keyed(d: StoredDoc, sc: Scoring, kw: string) {
    sc.keyword(d) == Some(kw) || (sc.keyword(d).None? && d.record.subject == Some(kw))
  }

  /** The cold records under one keyword. */
  ghost function Cluster(docs: map<nat, StoredDoc>, sc: Scoring, kw: string): set<nat> {
    set x | x in docs && Cold(docs[x], sc) && Keyed(docs[x], sc, kw)
  }

  /** Every keyword some eligible record is grouped under. */
  function Keywords(docs: map<nat, StoredDoc>, sc: Scoring): set<string> {
    set x | x in docs && Eligible(docs[x], sc) && GroupKey(docs[x], sc).Some? :: GroupKey(docs[x], sc).value
  }

  type Groups = map<string, seq<nat>>

  function Members(groups: Groups, kw: string): seq<nat> {
    if kw in groups then groups[kw] else []
  }

  /** Each list enumerates its cluster among the documents seen, without repetition. */
  ghost predicate GroupsOk(groups: Groups, docs: map<nat, StoredDoc>, sc: Scoring, seen: set<nat>) {
    forall kw ::
      && Distinct(Members(groups, kw))
      && forall x :: x in Members(groups, kw) <==> x in seen && x in Cluster(docs, sc, kw)
  }

  /** The grouping loop of `consolidate`, in whatever order the map yields its records. */
  method GroupCold(docs: map<nat, StoredDoc>, sc: Scoring) returns (groups: Groups)
    ensures GroupsOk(groups, docs, sc, docs.Keys)
  {
    groups := map[];
    var todo := docs.Keys;
    while todo != {}
      invariant todo <= docs.Keys
      invariant GroupsOk(groups, docs, sc, docs.Keys - todo)
    {
      var x :| x in todo;
      ghost var before, seen := groups, docs.Keys - todo;
      if Eligible(docs[x], sc) {
        var key := GroupKey(docs[x], sc);
        if key.Some? {
          groups := groups[key.value := Members(groups, key.value) + [x]];
        }
      }
      GroupNext(before, groups, docs, sc, seen, x);
      todo := todo - {x};
      assert docs.Keys - todo == seen + {x};
    }
    assert docs.Keys - {} == docs.Keys;
  }

  lemma GroupNext(before: Groups, after: Groups, docs: map<nat, StoredDoc>, sc: Scoring, seen: set<nat>, x: nat)
    requires GroupsOk(before, docs, sc, seen) && x in docs && x !in seen
    requires var key := GroupKey(docs[x], sc);
             after == if Eligible(docs[x], sc) && key.Some? then before[key.value := Members(before, key.value) + [x]]
               else before
    ensures GroupsOk(after, docs, sc, seen + {x})
  {
    forall kw
      ensures Distinct(Members(after, kw))
      ensures forall y :: y in Members(after, kw) <==> y in seen + {x} && y in Cluster(docs, sc, kw)
    {
      assert Distinct(Members(before, kw));
      assert x !in Members(before, kw);
      if x in Cluster(docs, sc, kw) {
        assert Members(after, kw) == Members(before, kw) + [x];
      } else {
        assert Members(after, kw) == Members(before, kw);
      }
    }
  }

  function MaxImportance(docs: map<nat, StoredDoc>, ids: seq<nat>): real {
    if ids == [] then 0.0
    else
      var rest := MaxImportance(docs, ids[1..]);
      if ids[0] in docs && docs[ids[0]].record.importance > rest then docs[ids[0]].record.importance else rest
  }

  function LatestEvent(docs: map<nat, StoredDoc>, ids: seq<nat>): Option<int> {
    if ids == [] then None
    else
      var rest := LatestEvent(docs, ids[1..]);
      if ids[0] !in docs then rest
      else if rest.None? || docs[ids[0]].record.eventTime > rest.value then Some(docs[ids[0]].record.eventTime)
      else rest
  }

  lemma {:induction false} MaxImportancePeak(docs: map<nat, StoredDoc>, ids: seq<nat>)
    ensures PeakImportance(MaxImportance(docs, ids), docs, set x | x in ids)
  {
    if ids != [] {
      MaxImportancePeak(docs, ids[1..]);
      var m, rest := MaxImportance(docs, ids), MaxImportance(docs, ids[1..]);
      assert ids == [ids[0]] + ids[1..];
      if m != 0.0 && m == rest {
        var x :| x in ids[1..] && x in docs && docs[x].record.importance == m;
        assert x in ids;
      }
    }
  }

  lemma {:induction false} LatestEventLatest(docs: map<nat, StoredDoc>, ids: seq<nat>)
    ensures var t := LatestEvent(docs, ids);
            if t.None? then forall x :: x in ids ==> x !in docs else LatestEventTime(t.value, docs, set x | x in ids)
  {
    if ids != [] {
      LatestEventLatest(docs, ids[1..]);
      var t, rest := LatestEvent(docs, ids), LatestEvent(docs, ids[1..]);
      assert ids == [ids[0]] + ids[1..];
      if t.Some? && t == rest {
        var x :| x in ids[1..] && x in docs && docs[x].record.eventTime == t.value;
        assert x in ids;
      }
    }
  }

  function DocsOf(docs: map<nat, StoredDoc>, ids: seq<nat>): seq<StoredDoc> {
    if ids == [] then []
    else (if ids[0] in docs then [docs[ids[0]]] else []) + DocsOf(docs, ids[1..])
  }

  /** The row of the summary of one cluster, its sources in the given order. */
  function SummaryRow(id: nat, kw: string, members: seq<nat>, docs: map<nat, StoredDoc>, sc: Scoring,
                      now: int): SnapshotRow {
    var (text, enc) := sc.summarize(kw, DocsOf(docs, members));
    var event := LatestEvent(docs, members);
    SnapshotRow(
      Record(id, text, None, [SUMMARY_TAG, kw], if event.Some? then event.value else now, now, None,
             MaxImportance(docs, members), 0, None, members),
      enc, false)
  }

  ghost predicate Big(docs0: map<nat, StoredDoc>, sc: Scoring, minCluster: nat, kw: string) {
    var c := Cluster(docs0, sc, kw);
    c != {} && |c| >= minCluster
  }

  /** The record belongs to a cluster that is large enough and has been dealt with. */
  ghost predicate Moves(docs0: map<nat, StoredDoc>, sc: Scoring, minCluster: nat, done: set<string>, x: nat) {
    && x in docs0 && Eligible(docs0[x], sc)
    && GroupKey(docs0[x], sc).Some?
    && GroupKey(docs0[x], sc).value in done
    && Big(docs0, sc, minCluster, GroupKey(docs0[x], sc).value)
  }

  /** A live summary whose sources are exactly one whole cluster. */
  ghost predicate Summarizes(d: StoredDoc, docs0: map<nat, StoredDoc>, sc: Scoring, minCluster: nat, now: int,
                             done: set<string>) {
    && d.record.IsLive() && d.record.IsSummary() && d.record.subject.None? && d.record.hits == 0
    && Distinct(d.record.sourceIds)
    && exists kw :: kw in done && SummaryOf(d, docs0, sc, minCluster, now, kw)
  }

  ghost predicate SummaryOf(d: StoredDoc, docs0: map<nat, StoredDoc>, sc: Scoring, minCluster: nat, now: int,
                            kw: string) {
    && Big(docs0, sc, minCluster, kw) && d.record.tags == [SUMMARY_TAG, kw]
    && (forall x :: x in d.record.sourceIds <==> x in Cluster(docs0, sc, kw))
    && PeakImportance(d.record.importance, docs0, Cluster(docs0, sc, kw))
    && LatestEventTime(d.record.eventTime, docs0, Cluster(docs0, sc, kw))
    && d.record.ingestTime == now && d.record.lastHit.None?
    && SalienceFalls(docs0, sc, d.record.sourceIds)
    && exists sources: seq<StoredDoc> :: SourcesAre(sources, docs0, d.record.sourceIds) &&
                                         (d.record.text, d.enc) == sc.summarize(kw, sources)
  }

  /** The most salient records come first. */
  ghost predicate SalienceFalls(docs: map<nat, StoredDoc>, sc: Scoring, ids: seq<nat>) {
    forall i, j :: 0 <= i < j < |ids| ==>
      ids[i] in docs && ids[j] in docs && sc.salience(docs[ids[i]]) >= sc.salience(docs[ids[j]])
  }

  /** The stored records with these ids, in this order. */
  ghost predicate SourcesAre(sources: seq<StoredDoc>, docs: map<nat, StoredDoc>, ids: seq<nat>) {
    |sources| == |ids| && forall i :: 0 <= i < |ids| ==> ids[i] in docs && sources[i] == docs[ids[i]]
  }

  lemma {:induction false} DocsOfSources(docs: map<nat, StoredDoc>, ids: seq<nat>)
    requires forall x :: x in ids ==> x in docs
    ensures SourcesAre(DocsOf(docs, ids), docs, ids)
  {
    if ids != [] {
      assert ids[0] in ids;
      assert forall x :: x in ids[1..] ==> x in ids;
      DocsOfSources(docs, ids[1..]);
      assert DocsOf(docs, ids) == [docs[ids[0]]] + DocsOf(docs, ids[1..]);
      assert ids == [ids[0]] + ids[1..];
    }
  }

  /** The largest importance of the records, or 0 if all are negative. */
  ghost predicate PeakImportance(r: real, docs: map<nat, StoredDoc>, ids: set<nat>) {
    && r >= 0.0
    && (forall x :: x in ids && x in docs ==> docs[x].record.importance <= r)
    && (r == 0.0 || exists x :: x in ids && x in docs && docs[x].record.importance == r)
  }

  ghost predicate LatestEventTime(t: int, docs: map<nat, StoredDoc>, ids: set<nat>) {
    && (forall x :: x in ids && x in docs ==> docs[x].record.eventTime <= t)
    && (exists x :: x in ids && x in docs && docs[x].record.eventTime == t)
  }

  /** A record that moves is in the archive, unchanged; any other is still in `docs`. */
  ghost predicate MovedAt(docs0: map<nat, StoredDoc>, docs: map<nat, StoredDoc>, archive: map<nat, StoredDoc>, x: nat,
                          moves: bool)
    requires x in docs0
  {
    if moves then x !in docs && x in archive && archive[x] == docs0[x] else x in docs && docs[x] == docs0[x]
  }

  /** Records of finished clusters are in the archive unchanged; all others are where they were. */
  ghost predicate MovedOk(docs0: map<nat, StoredDoc>, archive0: map<nat, StoredDoc>,
                          docs: map<nat, StoredDoc>, archive: map<nat, StoredDoc>,
                          sc: Scoring, minCluster: nat, done: set<string>) {
    && (forall x :: x in docs0 ==> MovedAt(docs0, docs, archive, x, Moves(docs0, sc, minCluster, done, x)))
    && (forall x :: x in archive0 && x !in docs0 ==> x in archive && archive[x] == archive0[x])
    && (forall x :: x in archive ==> x in archive0 || Moves(docs0, sc, minCluster, done, x))
  }

  /** The new ids are exactly the summaries, one for each cluster. */
  ghost predicate SummariesOk(docs0: map<nat, StoredDoc>, next0: nat, docs: map<nat, StoredDoc>, next: nat,
                              sc: Scoring, minCluster: nat, now: int, done: set<string>) {
    && next0 <= next
    && (forall x :: x in docs && x !in docs0 ==>
          next0 <= x < next && Summarizes(docs[x], docs0, sc, minCluster, now, done))
    && (forall x :: next0 <= x < next ==> x in docs)
    && (forall x, y :: SameCluster(docs0, docs, x, y) ==> x == y)
  }

  /** Both are new, and summarise the same keyword. */
  ghost predicate SameCluster(docs0: map<nat, StoredDoc>, docs: map<nat, StoredDoc>, x: nat, y: nat) {
    x in docs && x !in docs0 && y in docs && y !in docs0 && docs[x].record.tags == docs[y].record.tags
  }

  ghost predicate HasSummary(docs: map<nat, StoredDoc>, next0: nat, next: nat, x: nat) {
    exists s :: next0 <= s < next && s in docs && x in docs[s].record.sourceIds
  }

  /** Every moved record is a source of one of them. */
  ghost predicate SourcedOk(docs0: map<nat, StoredDoc>, next0: nat, docs: map<nat, StoredDoc>, next: nat,
                            sc: Scoring, minCluster: nat, now: int, done: set<string>) {
    forall x :: Moves(docs0, sc, minCluster, done, x) ==> HasSummary(docs, next0, next, x)
  }

  /** The state while clusters are being archived: `done` holds the keywords already dealt with. */
  ghost predicate Consolidated(docs0: map<nat, StoredDoc>, archive0: map<nat, StoredDoc>, next0: nat,
                               docs: map<nat, StoredDoc>, archive: map<nat, StoredDoc>, next: nat,
                               sc: Scoring, minCluster: nat, now: int, done: set<string>) {
    && MovedOk(docs0, archive0, docs, archive, sc, minCluster, done)
    && SummariesOk(docs0, next0, docs, next, sc, minCluster, now, done)
    && SourcedOk(docs0, next0, docs, next, sc, minCluster, now, done)
  }

  /** The sets of keywords that can have been dealt with. */
  ghost function Dealt(docs0: map<nat, StoredDoc>, archive0: map<nat, StoredDoc>, next0: nat,
                       docs: map<nat, StoredDoc>, archive: map<nat, StoredDoc>, next: nat,
                       sc: Scoring, minCluster: nat, now: int): iset<set<string>> {
    iset done: set<string> | Consolidated(docs0, archive0, next0, docs, archive, next, sc, minCluster, now, done)
  }

  lemma ConsolidatedStart(docs0: map<nat, StoredDoc>, archive0: map<nat, StoredDoc>, next0: nat, sc: Scoring,
                          minCluster: nat, now: int)
    requires docs0.Keys !! archive0.Keys
    ensures Consolidated(docs0, archive0, next0, docs0, archive0, next0, sc, minCluster, now, {})
  {
  }

  function WithArchived(archive: map<nat, StoredDoc>, docs: map<nat, StoredDoc>, ids: set<nat>): map<nat, StoredDoc> {
    archive + (map x | x in docs && x in ids :: docs[x])
  }

  lemma MovesNext(docs0: map<nat, StoredDoc>, sc: Scoring, minCluster: nat, done: set<string>, kw: string)
    ensures forall x :: Moves(docs0, sc, minCluster, done + {kw}, x) <==>
              Moves(docs0, sc, minCluster, done, x) || (Big(docs0, sc, minCluster, kw) && x in Cluster(docs0, sc, kw))
    ensures kw !in done ==> forall x :: x in Cluster(docs0, sc, kw) ==> !Moves(docs0, sc, minCluster, done, x)
  {
  }

  lemma SummarizesMore(d: StoredDoc, docs0: map<nat, StoredDoc>, sc: Scoring, minCluster: nat, now: int,
                       done: set<string>, kw: string)
    requires Summarizes(d, docs0, sc, minCluster, now, done)
    ensures Summarizes(d, docs0, sc, minCluster, now, done + {kw})
  {
    var k :| k in done && SummaryOf(d, docs0, sc, minCluster, now, k);
    assert k in done + {kw};
  }

  /** A cluster below the threshold changes nothing. */
  lemma ConsolidatedSkip(docs0: map<nat, StoredDoc>, archive0: map<nat, StoredDoc>, next0: nat,
                         docs: map<nat, StoredDoc>, archive: map<nat, StoredDoc>, next: nat,
                         sc: Scoring, minCluster: nat, now: int, done: set<string>, kw: string)
    requires Consolidated(docs0, archive0, next0, docs, archive, next, sc, minCluster, now, done)
    requires !Big(docs0, sc, minCluster, kw)
    ensures Consolidated(docs0, archive0, next0, docs, archive, next, sc, minCluster, now, done + {kw})
  {
    MovesNext(docs0, sc, minCluster, done, kw);
    forall x | x in docs && x !in docs0 ensures Summarizes(docs[x], docs0, sc, minCluster, now, done + {kw}) {
      SummarizesMore(docs[x], docs0, sc, minCluster, now, done, kw);
    }
  }

  /** A cluster at the threshold moves to the archive as a whole and gets one summary. */
  lemma ConsolidatedNext(docs0: map<nat, StoredDoc>, archive0: map<nat, StoredDoc>, next0: nat,
                         docs: map<nat, StoredDoc>, archive: map<nat, StoredDoc>, next: nat,
                         sc: Scoring, minCluster: nat, now: int, done: set<string>, kw: string, row: SnapshotRow)
    requires Consolidated(docs0, archive0, next0, docs, archive, next, sc, minCluster, now, done)
    requires Big(docs0, sc, minCluster, kw) && kw !in done
    requires forall x :: x in docs0 ==> x < next0 && x !in archive0
    requires Summarizes(DocOf(row), docs0, sc, minCluster, now, {kw})
    ensures var ids := Cluster(docs0, sc, kw);
            Consolidated(docs0, archive0, next0, (docs - ids)[next := DocOf(row)], WithArchived(archive, docs, ids),
                         next + 1, sc, minCluster, now, done + {kw})
  {
    MovedNext(docs0, archive0, docs, archive, next, sc, minCluster, done, kw, DocOf(row));
    var k :| k in {kw} && SummaryOf(DocOf(row), docs0, sc, minCluster, now, k);
    assert k == kw;
    SummariesNext(docs0, next0, docs, next, sc, minCluster, now, done, kw, row);
    SourcedNext(docs0, next0, docs, next, sc, minCluster, now, done, kw, row);
  }

  lemma MovedNext(docs0: map<nat, StoredDoc>, archive0: map<nat, StoredDoc>, docs: map<nat, StoredDoc>,
                  archive: map<nat, StoredDoc>, next: nat, sc: Scoring, minCluster: nat, done: set<string>,
                  kw: string, summary: StoredDoc)
    requires MovedOk(docs0, archive0, docs, archive, sc, minCluster, done)
    requires Big(docs0, sc, minCluster, kw) && kw !in done && next !in docs0
    requires forall x :: x in docs0 ==> x !in archive0
    ensures var ids := Cluster(docs0, sc, kw);
            MovedOk(docs0, archive0, (docs - ids)[next := summary], WithArchived(archive, docs, ids), sc, minCluster,
                    done + {kw})
  {
    var ids := Cluster(docs0, sc, kw);
    var docs' := (docs - ids)[next := summary];
    var archive' := WithArchived(archive, docs, ids);
    forall x | x in docs0
      ensures MovedAt(docs0, docs', archive', x, Moves(docs0, sc, minCluster, done + {kw}, x))
    {
      MovedOne(docs0, archive0, docs, archive, next, sc, minCluster, done, kw, summary, x);
    }
    forall x | x in archive' ensures x in archive0 || Moves(docs0, sc, minCluster, done + {kw}, x) {
      ArchivedOne(docs0, archive0, docs, archive, sc, minCluster, done, kw, x);
    }
  }

  lemma ArchivedOne(docs0: map<nat, StoredDoc>, archive0: map<nat, StoredDoc>, docs: map<nat, StoredDoc>,
                    archive: map<nat, StoredDoc>, sc: Scoring, minCluster: nat, done: set<string>, kw: string, x: nat)
    requires MovedOk(docs0, archive0, docs, archive, sc, minCluster, done) && Big(docs0, sc, minCluster, kw)
    requires x in WithArchived(archive, docs, Cluster(docs0, sc, kw))
    ensures x in archive0 || Moves(docs0, sc, minCluster, done + {kw}, x)
  {
    MovesNext(docs0, sc, minCluster, done, kw);
    if x !in archive {
      assert x in Cluster(docs0, sc, kw);
    }
  }

  lemma MovedOne(docs0: map<nat, StoredDoc>, archive0: map<nat, StoredDoc>, docs: map<nat, StoredDoc>,
                 archive: map<nat, StoredDoc>, next: nat, sc: Scoring, minCluster: nat, done: set<string>,
                 kw: string, summary: StoredDoc, x: nat)
    requires MovedOk(docs0, archive0, docs, archive, sc, minCluster, done)
    requires Big(docs0, sc, minCluster, kw) && kw !in done && next !in docs0 && x in docs0
    ensures var ids := Cluster(docs0, sc, kw);
            MovedAt(docs0, (docs - ids)[next := summary], WithArchived(archive, docs, ids), x,
                    Moves(docs0, sc, minCluster, done + {kw}, x))
  {
    MovesNext(docs0, sc, minCluster, done, kw);
    assert MovedAt(docs0, docs, archive, x, Moves(docs0, sc, minCluster, done, x));
    if x in Cluster(docs0, sc, kw) {
      assert !Moves(docs0, sc, minCluster, done, x);
    }
  }

  lemma SummariesNext(docs0: map<nat, StoredDoc>, next0: nat, docs: map<nat, StoredDoc>, next: nat,
                      sc: Scoring, minCluster: nat, now: int, done: set<string>, kw: string, row: SnapshotRow)
    requires SummariesOk(docs0, next0, docs, next, sc, minCluster, now, done)
    requires SummaryOf(DocOf(row), docs0, sc, minCluster, now, kw) &&
             Summarizes(DocOf(row), docs0, sc, minCluster, now, {kw})
    requires kw !in done && forall x :: x in docs0 ==> x < next0
    ensures SummariesOk(docs0, next0, (docs - Cluster(docs0, sc, kw))[next := DocOf(row)], next + 1, sc, minCluster,
                        now, done + {kw})
  {
    var docs' := (docs - Cluster(docs0, sc, kw))[next := DocOf(row)];
    forall x | x in docs' && x !in docs0
      ensures next0 <= x < next + 1 && Summarizes(docs'[x], docs0, sc, minCluster, now, done + {kw})
    {
      if x != next {
        SummarizesMore(docs[x], docs0, sc, minCluster, now, done, kw);
      } else {
        assert kw in done + {kw};
      }
    }
    forall z | z in docs' && z !in docs0 && z != next ensures docs'[z].record.tags != row.record.tags {
      OtherKeyword(docs[z], DocOf(row), docs0, sc, minCluster, now, done, kw);
    }
    forall x, y | SameCluster(docs0, docs', x, y) ensures x == y {
      if x != next && y != next {
        assert SameCluster(docs0, docs, x, y);
      }
    }
  }

  lemma OtherKeyword(d: StoredDoc, e: StoredDoc, docs0: map<nat, StoredDoc>, sc: Scoring, minCluster: nat, now: int,
                     done: set<string>, kw: string)
    requires Summarizes(d, docs0, sc, minCluster, now, done) && SummaryOf(e, docs0, sc, minCluster, now, kw) &&
             kw !in done
    ensures d.record.tags != e.record.tags
  {
    var k :| k in done && SummaryOf(d, docs0, sc, minCluster, now, k);
    assert d.record.tags[1] == k && e.record.tags[1] == kw;
  }

  lemma SourcedNext(docs0: map<nat, StoredDoc>, next0: nat, docs: map<nat, StoredDoc>, next: nat,
                    sc: Scoring, minCluster: nat, now: int, done: set<string>, kw: string, row: SnapshotRow)
    requires SourcedOk(docs0, next0, docs, next, sc, minCluster, now, done)
    requires SummaryOf(DocOf(row), docs0, sc, minCluster, now, kw) && next0 <= next
    requires forall x :: x in docs0 ==> x < next0
    ensures SourcedOk(docs0, next0, (docs - Cluster(docs0, sc, kw))[next := DocOf(row)], next + 1, sc, minCluster, now,
                      done + {kw})
  {
    var docs' := (docs - Cluster(docs0, sc, kw))[next := DocOf(row)];
    MovesNext(docs0, sc, minCluster, done, kw);
    forall x | Moves(docs0, sc, minCluster, done + {kw}, x) ensures HasSummary(docs', next0, next + 1, x) {
      if x in Cluster(docs0, sc, kw) {
        assert next in docs' && x in docs'[next].record.sourceIds;
      } else {
        assert HasSummary(docs, next0, next, x);
        var s :| next0 <= s < next && s in docs && x in docs[s].record.sourceIds;
        assert s in docs' && x in docs'[s].record.sourceIds;
      }
    }
  }

  /** The keywords still to do and those done make up all of them. */
  predicate Splits(all: set<string>, todo: set<string>, done: set<string>) {
    todo + done == all && todo !! done
  }

  lemma SplitOff(all: set<string>, todo: set<string>, done: set<string>, kw: string)
    requires Splits(all, todo, done) && kw in todo
    ensures kw in all && kw !in done && Splits(all, todo - {kw}, done + {kw})
  {
  }

  lemma DealtStart(docs0: map<nat, StoredDoc>, archive0: map<nat, StoredDoc>, next0: nat, sc: Scoring, minCluster: nat,
                   now: int, none: set<string>)
    requires docs0.Keys !! archive0.Keys && none == {}
    ensures none in Dealt(docs0, archive0, next0, docs0, archive0, next0, sc, minCluster, now)
  {
    ConsolidatedStart(docs0, archive0, next0, sc, minCluster, now);
  }

  lemma DealtSkip(docs0: map<nat, StoredDoc>, archive0: map<nat, StoredDoc>, next0: nat,
                  docs: map<nat, StoredDoc>, archive: map<nat, StoredDoc>, next: nat,
                  sc: Scoring, minCluster: nat, now: int, done: set<string>, kw: string, done': set<string>)
    requires done in Dealt(docs0, archive0, next0, docs, archive, next, sc, minCluster, now)
    requires !Big(docs0, sc, minCluster, kw) && done' == done + {kw}
    ensures done' in Dealt(docs0, archive0, next0, docs, archive, next, sc, minCluster, now)
  {
    ConsolidatedSkip(docs0, archive0, next0, docs, archive, next, sc, minCluster, now, done, kw);
  }

  lemma DealtNext(docs0: map<nat, StoredDoc>, archive0: map<nat, StoredDoc>, next0: nat,
                  docs: map<nat, StoredDoc>, archive: map<nat, StoredDoc>, next: nat,
                  sc: Scoring, minCluster: nat, now: int, done: set<string>, kw: string, row: SnapshotRow,
                  ids: set<nat>, docs': map<nat, StoredDoc>, archive': map<nat, StoredDoc>, next': nat,
                  done': set<string>)
    requires done in Dealt(docs0, archive0, next0, docs, archive, next, sc, minCluster, now)
    requires Big(docs0, sc, minCluster, kw) && kw !in done && ids == Cluster(docs0, sc, kw)
    requires forall x :: x in docs0 ==> x < next0 && x !in archive0
    requires Summarizes(DocOf(row), docs0, sc, minCluster, now, {kw})
    requires docs' == (docs - ids)[next := DocOf(row)] && archive' == WithArchived(archive, docs, ids)
    requires next' == next + 1 && done' == done + {kw}
    ensures done' in Dealt(docs0, archive0, next0, docs', archive', next', sc, minCluster, now)
  {
    ConsolidatedNext(docs0, archive0, next0, docs, archive, next, sc, minCluster, now, done, kw, row);
  }

  // ----- Compaction -----

  const I64_MAX := 0x7FFF_FFFF_FFFF_FFFF

  /** `now.saturating_sub(v)` on signed 64-bit values. */
  function SatSub(now: int, v: int): int {
    var d := now - v;
    if d > I64_MAX then I64_MAX else if d < -I64_MAX - 1 then -I64_MAX - 1 else d
  }

  /** `retention as i64`: an unsigned value above the signed range wraps to a negative one. */
  function AsI64(r: nat): int {
    if r > I64_MAX then r - TWO_64 else r
  }

  predicate ExpiredAt(validTo: Option<int>, now: int, retention: nat) {
    validTo.Some? && SatSub(now, validTo.value) > AsI64(retention)
  }

  predicate ExpiredHistory(r: Record, now: int, retention: nat) {
    SatSub(now, if r.eventTime > 0 then r.eventTime else 0) > AsI64(retention)
  }

  /** For retentions that fit a signed 64-bit value, only records ended longer ago than that expire. */
  lemma RetentionRespected(validTo: int, now: int, retention: nat)
    requires retention <= I64_MAX
    ensures ExpiredAt(Some(validTo), now, retention) ==> now - validTo > retention
  {
  }

  /** A record ended this very second expires if and only if the retention does not fit a signed 64-bit value. */
  lemma RetentionWraps(now: int, retention: nat)
    requires retention < TWO_64
    ensures ExpiredAt(Some(now), now, retention) <==> retention > I64_MAX
  {
  }

  ghost predicate Protects(m: map<nat, StoredDoc>, x: nat, sid: nat) {
    x in m && m[x].record.IsSummary() && m[x].record.IsLive() && sid in m[x].record.sourceIds
  }

  /** The id is a source of some live summary. */
  ghost predicate Referenced(docs: map<nat, StoredDoc>, archive: map<nat, StoredDoc>, sid: nat) {
    (exists x :: Protects(docs, x, sid)) || (exists x :: Protects(archive, x, sid))
  }

  predicate DeadDoc(d: StoredDoc, referenced: set<nat>, now: int, retention: nat) {
    !d.record.IsSummary() && d.record.id !in referenced && ExpiredAt(d.record.validTo, now, retention)
  }

  predicate DeadArchived(d: StoredDoc, referenced: set<nat>, now: int, retention: nat) {
    && !d.record.IsSummary() && d.record.id !in referenced
    && (ExpiredAt(d.record.validTo, now, retention) || ExpiredHistory(d.record, now, retention))
  }

  function SourceSet(d: StoredDoc): set<nat> {
    set sid | sid in d.record.sourceIds
  }

  /** The loops that collect what live summaries refer to. */
  method CollectReferenced(m: map<nat, StoredDoc>, now: int, retention: nat) returns (referenced: set<nat>)
    ensures forall sid :: sid in referenced <==> exists x :: Protects(m, x, sid)
  {
    referenced := {};
    var todo := m.Keys;
    while todo != {}
      invariant todo <= m.Keys
      invariant forall sid :: sid in referenced <==> exists x :: x !in todo && Protects(m, x, sid)
    {
      var x :| x in todo;
      ghost var before, left := referenced, todo;
      var d := m[x];
      if d.record.IsSummary() && d.record.IsLive() && !ExpiredAt(d.record.validTo, now, retention) {
        referenced := referenced + SourceSet(d);
      }
      todo := todo - {x};
      forall sid ensures sid in referenced <==> exists y :: y !in todo && Protects(m, y, sid) {
        if sid in before {
          var y :| y !in left && Protects(m, y, sid);
          assert y !in todo && Protects(m, y, sid);
        } else if Protects(m, x, sid) {
          assert x !in todo;
        }
      }
    }
  }

  function Surviving(m: map<nat, StoredDoc>, dead: StoredDoc -> bool): map<nat, StoredDoc> {
    map x | x in m && !dead(m[x]) :: m[x]
  }

  /** One of the two removal loops. */
  method RemoveDead(m: map<nat, StoredDoc>, dead: StoredDoc -> bool) returns (kept: map<nat, StoredDoc>, removed: nat)
    ensures kept == Surviving(m, dead)
    ensures removed == |m| - |kept|
  {
    kept := m;
    removed := 0;
    var todo := set x | x in m && dead(m[x]);
    while todo != {}
      invariant kept.Keys <= m.Keys && forall x :: x in kept ==> kept[x] == m[x]
      invariant forall x :: x in todo <==> x in kept && dead(kept[x])
      invariant forall x :: x in m && !dead(m[x]) ==> x in kept
      invariant removed == |m| - |kept|
    {
      var x :| x in todo;
      assert (kept - {x}).Keys == kept.Keys - {x};
      assert |kept| == |kept.Keys| && |kept - {x}| == |(kept - {x}).Keys|;
      kept := kept - {x};
      removed := removed + 1;
      todo := todo - {x};
    }
    assert kept.Keys == Surviving(m, dead).Keys;
  }

  function DeadDocs(referenced: set<nat>, now: int, retention: nat): StoredDoc -> bool {
    d => DeadDoc(d, referenced, now, retention)
  }

  function DeadArchive(referenced: set<nat>, now: int, retention: nat): StoredDoc -> bool {
    d => DeadArchived(d, referenced, now, retention)
  }

  function Compacted(before: Image, referenced: set<nat>, now: int, retention: nat): Image {
    Image(Surviving(before.docs, DeadDocs(referenced, now, retention)),
          Surviving(before.archive, DeadArchive(referenced, now, retention)),
          before.subjects, before.nextId)
  }

  /** Both passes of `compact` over both maps. */
  method CompactMaps(before: Image, now: int, retention: nat)
    returns (after: Image, removedDocs: nat, removedArchived: nat, ghost referenced: set<nat>)
    ensures forall sid :: sid in referenced <==> Referenced(before.docs, before.archive, sid)
    ensures after == Compacted(before, referenced, now, retention)
    ensures after.subjects == before.subjects && after.nextId == before.nextId
    ensures removedDocs == |before.docs| - |after.docs| && removedArchived == |before.archive| - |after.archive|
  {
    var fromDocs := CollectReferenced(before.docs, now, retention);
    var fromArchive := CollectReferenced(before.archive, now, retention);
    var kept := fromDocs + fromArchive;
    var docs, archive;
    docs, removedDocs := RemoveDead(before.docs, DeadDocs(kept, now, retention));
    archive, removedArchived := RemoveDead(before.archive, DeadArchive(kept, now, retention));
    after, referenced := before.(docs := docs, archive := archive), kept;
  }

  /** Every archived source of a live summary is still archived. */
  ghost predicate KeepsSources(before: Image, after: Image) {
    forall sid :: Referenced(before.docs, before.archive, sid) && sid in before.archive ==> sid in after.archive
  }

  /** Compaction keeps one live version, and every source of every live summary, whatever the retention. */
  lemma CompactKeeps(before: Image, referenced: set<nat>, now: int, retention: nat, h: History)
    requires MemOk(before, h.owners) && Kept(before, h)
    requires forall sid :: sid in referenced <==> Referenced(before.docs, before.archive, sid)
    ensures var after := Compacted(before, referenced, now, retention);
            && MemOk(after, h.owners) && Kept(after, h) && DropsFrom(before, after) && KeepsSources(before, after)
            && (forall x ::
                  x in before.docs && (before.docs[x].record.IsSummary() || before.docs[x].record.IsLive()) ==>
                  x in after.docs)
  {
    var after := Compacted(before, referenced, now, retention);
    forall sid | Referenced(before.docs, before.archive, sid) && sid in before.archive ensures sid in after.archive {
      assert before.archive[sid].record.id == sid;
    }
    DropKeeps(before, after, h);
  }

  /** Dropping records keeps the invariants if it keeps the sources of live summaries. */
  lemma DropKeeps(before: Image, after: Image, h: History)
    requires MemOk(before, h.owners) && Kept(before, h)
    requires DropsFrom(before, after) && KeepsSources(before, after) && after.subjects == before.subjects
    ensures MemOk(after, h.owners) && Kept(after, h)
  {
    if SingleLive(before) {
      DroppedSingle(before, after);
    }
    if SourcesSafe(before) {
      CompactSources(before, after);
    }
  }

  lemma DroppedSingle(before: Image, after: Image)
    requires SingleLive(before) && DropsFrom(before, after)
    ensures SingleLive(after)
  {
    forall x, y, s | LiveVersion(after, x, s) && LiveVersion(after, y, s) ensures x == y {
      assert LiveVersion(before, x, s) && LiveVersion(before, y, s);
    }
  }

  lemma CompactSources(before: Image, after: Image)
    requires SourcesSafe(before) && DropsFrom(before, after) && KeepsSources(before, after)
    ensures SourcesSafe(after)
  {
    forall x, sid | x in after.docs && after.docs[x].record.IsLive() && after.docs[x].record.IsSummary() &&
                    sid in after.docs[x].record.sourceIds
      ensures sid in after.archive
    {
      assert Protects(before.docs, x, sid);
    }
    forall x, sid | x in after.archive && after.archive[x].record.IsLive() && after.archive[x].record.IsSummary() &&
                    sid in after.archive[x].record.sourceIds
      ensures sid in after.archive
    {
      assert Protects(before.archive, x, sid);
    }
  }

  // ----- A crash during compaction -----

  function Only(m: map<nat, StoredDoc>, ids: set<nat>): map<nat, StoredDoc> {
    map x | x in m && x in ids :: m[x]
  }

  function OnlyIn(img: Image, ids: set<nat>): Image {
    img.(docs := Only(img.docs, ids), archive := Only(img.archive, ids))
  }

  /** Compaction half undone: records that the live log created are back as they were before it. */
  function Mixed(before: Image, after: Image, live: seq<WalOp>): Image {
    OnlyIn(before, Stored(after) + RememberedIds(live))
  }

  lemma MixedKeeps(before: Image, after: Image, live: seq<WalOp>, h: History)
    requires MemOk(before, h.owners) && Kept(before, h) && DropsFrom(before, after) && KeepsSources(before, after)
    ensures var mix := Mixed(before, after, live);
            MemOk(mix, h.owners) && Kept(mix, h) && DropsFrom(before, mix)
  {
    DropKeeps(before, Mixed(before, after, live), h);
  }

  lemma MixedGrows(v: View, m: Manifest, rows: seq<SnapshotRow>, base: Image, before: Image, after: Image,
                   owners: Owners)
    requires Explains(v.live, base, before, owners) && MemOk(before, owners)
    requires DropsFrom(before, after) && SnapshotOf(rows, after, owners)
    ensures Grows(Mixed(before, after, v.live), Recovered(SwitchedView(v, m, rows, after)))
    ensures Follows(Recovered(SwitchedView(v, m, rows, after)), OnlyIn(base, Stored(after)), v.live)
  {
    var img := Recovered(SwitchedView(v, m, rows, after));
    forall x
      ensures SlotGrows(SlotOf(Mixed(before, after, v.live), x), SlotOf(img, x))
      ensures FollowsAt(img, OnlyIn(base, Stored(after)), v.live, x)
    {
      MixedGrowsAt(v, m, rows, base, before, after, owners, img, x);
    }
  }

  predicate FollowsAt(img: Image, base: Image, ops: seq<WalOp>, x: nat) {
    && SlotGrows(SlotReplay(ops, x, SlotOf(base, x)), SlotOf(img, x))
    && (x in RememberedIds(ops) ==> SlotReplay(ops, x, SlotOf(base, x)) == SlotOf(img, x))
  }

  lemma MixedGrowsAt(v: View, m: Manifest, rows: seq<SnapshotRow>, base: Image, before: Image, after: Image,
                     owners: Owners, img: Image, x: nat)
    requires Explains(v.live, base, before, owners) && MemOk(before, owners)
    requires DropsFrom(before, after) && SnapshotOf(rows, after, owners)
    requires img == Recovered(SwitchedView(v, m, rows, after))
    ensures SlotGrows(SlotOf(Mixed(before, after, v.live), x), SlotOf(img, x))
    ensures FollowsAt(img, OnlyIn(base, Stored(after)), v.live, x)
  {
    CompactWindow(v, m, rows, base, before, after, owners, x);
    MixedSlot(v.live, base, before, after, owners, x);
    SlotGrowsReflexive(SlotOf(img, x));
  }

  lemma OnlySlot(img: Image, ids: set<nat>, x: nat)
    ensures SlotOf(OnlyIn(img, ids), x) == if x in ids then SlotOf(img, x) else Slot(None, None)
  {
  }

  lemma MixedSlot(live: seq<WalOp>, base: Image, before: Image, after: Image, owners: Owners, x: nat)
    requires Explains(live, base, before, owners) && MemOk(before, owners) && DropsFrom(before, after)
    ensures var mixed := SlotOf(Mixed(before, after, live), x);
            var replayed := SlotReplay(live, x, SlotOf(OnlyIn(base, Stored(after)), x));
            if x in RememberedIds(live) then
              mixed == SlotOf(before, x) && replayed == SlotOf(before, x) && SlotGrows(mixed, mixed)
            else if x in Stored(after) then mixed == SlotOf(before, x) && SlotGrows(replayed, mixed)
            else mixed.Absent() && replayed.Absent()
  {
    OnlySlot(before, Stored(after) + RememberedIds(live), x);
    OnlySlot(base, Stored(after), x);
    SlotGrowsReflexive(SlotOf(before, x));
    assert SlotGrows(SlotReplay(live, x, SlotOf(base, x)), SlotOf(before, x));
    if x in RememberedIds(live) {
      DisjointSlots(base, x);
      assert LandsOn(live, x, SlotOf(base, x)) && StaysFiled(live, x);
      CreatedIdAbsorbed(live, x, SlotOf(base, x));
    } else if x !in Stored(after) {
      AbsentStays(live, x, Slot(None, None));
    }
  }

  lemma KeptSlot(before: Image, after: Image, owners: Owners, x: nat)
    requires MemOk(before, owners) && DropsFrom(before, after) && x in Stored(after)
    ensures SlotOf(after, x) == SlotOf(before, x)
  {
  }

  lemma MixedFits(w: View, base: Image, before: Image, after: Image, h: History)
    requires Explains(w.live, base, before, h.owners) && MemOk(before, h.owners) && DropsFrom(before, after)
    requires w.arch == [] && w.snap.docs == after.docs && w.snap.archive == after.archive
    ensures SnapshotFits(w, SwitchedHistory(w.live, OnlyIn(base, Stored(after)), |w.live|, h))
  {
    SameMapsSameSlots(after, w.snap);
    if w.live == [] {
      MixedFollows(w, base, before, after, h);
    } else {
      forall x: nat ensures SettledSlot(w, |w.live|, OnlyIn(base, Stored(after)), x) {
        MixedSettled(w, base, before, after, h, x);
      }
    }
  }

  lemma MixedSettled(w: View, base: Image, before: Image, after: Image, h: History, x: nat)
    requires Explains(w.live, base, before, h.owners) && MemOk(before, h.owners) && DropsFrom(before, after)
    requires w.snap.docs == after.docs && w.snap.archive == after.archive
    ensures SettledSlot(w, |w.live|, OnlyIn(base, Stored(after)), x)
  {
    assert w.live[..|w.live|] == w.live;
    SameMapsSameSlots(after, w.snap);
    StoredAlike(after, after, x);
    DisjointSlots(base, x);
    OnlySlot(base, Stored(after), x);
    assert LandsOn(w.live, x, SlotOf(base, x)) && StaysFiled(w.live, x);
    assert SlotGrows(SlotReplay(w.live, x, SlotOf(base, x)), SlotOf(before, x));
    if x in Stored(after) {
      KeptSlot(before, after, h.owners, x);
    }
    if x in RememberedIds(w.live) {
      CreatedIdAbsorbed(w.live, x, SlotOf(base, x));
    } else {
      AbsentStays(w.live, x, Slot(None, None));
    }
  }

  lemma MixedFollows(w: View, base: Image, before: Image, after: Image, h: History)
    requires Explains(w.live, base, before, h.owners) && MemOk(before, h.owners) && DropsFrom(before, after)
    requires w.live == [] && w.snap.docs == after.docs && w.snap.archive == after.archive
    ensures Follows(w.snap, OnlyIn(base, Stored(after)), [])
  {
    forall x ensures SlotGrows(SlotReplay([], x, SlotOf(OnlyIn(base, Stored(after)), x)), SlotOf(w.snap, x)) {
      OnlySlot(base, Stored(after), x);
      assert SlotOf(w.snap, x) == SlotOf(after, x);
      assert SlotGrows(SlotReplay(w.live, x, SlotOf(base, x)), SlotOf(before, x));
      if x in Stored(after) {
        KeptSlot(before, after, h.owners, x);
      }
    }
  }

  lemma FewerKnown(ops: seq<WalOp>, base: Image, ids: set<nat>)
    requires Disjoint(base) && Repeatable(ops, base)
    ensures Disjoint(OnlyIn(base, ids)) && Repeatable(ops, OnlyIn(base, ids))
    ensures Stored(OnlyIn(base, ids)) <= Stored(base)
  {
    forall x: nat ensures LandsOn(ops, x, SlotOf(OnlyIn(base, ids), x)) && StaysFiled(ops, x) {
      assert LandsOn(ops, x, SlotOf(base, x)) && StaysFiled(ops, x);
      OnlySlot(base, ids, x);
    }
  }

  lemma MixedExplained(v: View, m: Manifest, rows: seq<SnapshotRow>, base: Image, before: Image, after: Image,
                       owners: Owners)
    requires Explains(v.live, base, before, owners) && MemOk(before, owners)
    requires DropsFrom(before, after) && SnapshotOf(rows, after, owners)
    ensures Explains(v.live, OnlyIn(base, Stored(after)), Recovered(SwitchedView(v, m, rows, after)), owners)
  {
    MixedGrows(v, m, rows, base, before, after, owners);
    FewerKnown(v.live, base, Stored(after));
  }

  lemma SnapshotLists(rows: seq<SnapshotRow>, after: Image, owners: Owners)
    requires MemOk(after, owners) && SnapshotOf(rows, after, owners)
    ensures var snap := Snapshot(rows, after);
            Agrees(snap, owners) && Covered(snap) && IdsMatch(snap) && ListsStored(snap)
  {
    LoadedLists(rows, EmptyImage(after.nextId));
  }

  lemma MixedCounts(v: View, m: Manifest, rows: seq<SnapshotRow>, base: Image, before: Image, after: Image, h: History)
    requires Explains(v.live, base, before, h.owners) && MemOk(before, h.owners)
    requires DropsFrom(before, after) && MemOk(after, h.owners)
    requires SnapshotOf(rows, after, h.owners)
    ensures var w, g := SwitchedView(v, m, rows, after),
                        SwitchedHistory(v.live, OnlyIn(base, Stored(after)), |v.live|, h);
            Explains(v.live, g.base, Recovered(w), g.owners) && CounterOk(w, g)
  {
    MixedExplained(v, m, rows, base, before, after, h.owners);
    FewerKnown(v.live, base, Stored(after));
  }

  lemma MixedNoted(v: View, m: Manifest, rows: seq<SnapshotRow>, base: Image, before: Image, after: Image, h: History)
    requires Explains(v.live, base, before, h.owners) && MemOk(before, h.owners)
    requires DropsFrom(before, after) && MemOk(after, h.owners)
    requires SnapshotOf(rows, after, h.owners) && Covers(v.live, base, h)
    ensures var w, g := SwitchedView(v, m, rows, after),
                        SwitchedHistory(v.live, OnlyIn(base, Stored(after)), |v.live|, h);
            SnapshotFits(w, g) && Noted(v.live, g)
  {
    MixedFits(SwitchedView(v, m, rows, after), base, before, after, h);
    FewerKnown(v.live, base, Stored(after));
    SwitchedNoted(v.live, OnlyIn(base, Stored(after)), |v.live|, h);
  }

  lemma MixedLogOk(v: View, m: Manifest, rows: seq<SnapshotRow>, base: Image, before: Image, after: Image, h: History)
    requires Explains(v.live, base, before, h.owners) && MemOk(before, h.owners)
    requires DropsFrom(before, after) && MemOk(after, h.owners)
    requires SnapshotOf(rows, after, h.owners) && Covers(v.live, base, h)
    ensures LogOk(SwitchedView(v, m, rows, after), SwitchedHistory(v.live, OnlyIn(base, Stored(after)), |v.live|, h))
  {
    assert [] + v.live == v.live;
    MixedCounts(v, m, rows, base, before, after, h);
    SnapshotLists(rows, after, h.owners);
    MixedNoted(v, m, rows, base, before, after, h);
  }

  lemma DroppedSnapKept(before: Image, after: Image, snap: Image, h: History)
    requires MemOk(before, h.owners) && Kept(before, h) && DropsFrom(before, after) && KeepsSources(before, after)
    requires snap.docs == after.docs && snap.archive == after.archive
    ensures Kept(snap, h)
  {
    DropKeeps(before, after.(subjects := before.subjects), h);
    KeptSameMaps(after.(subjects := before.subjects), snap, h);
  }

  /**
   * A crash in the window of a compaction's checkpoint leaves the half-undone state, and it keeps one
   * live version per subject and the sources of live summaries, as a session that is durable in turn.
   */
  lemma MixedSafe(e: Directory, v: View, m: Manifest, rows: seq<SnapshotRow>, base: Image, before: Image, after: Image,
                  h: History)
    requires Explains(v.live, base, before, h.owners) && MemOk(before, h.owners) && Kept(before, h)
    requires DropsFrom(before, after) && KeepsSources(before, after) && MemOk(after, h.owners)
    requires SnapshotOf(rows, after, h.owners) && Shaped(e) && ViewOf(e) == Ok(SwitchedView(v, m, rows, after))
    requires Covers(v.live, base, h)
    ensures OpensTo(e, Mixed(before, after, v.live), false)
    ensures OpensWith(e, SwitchedHistory(v.live, OnlyIn(base, Stored(after)), |v.live|, h))
  {
    var w := SwitchedView(v, m, rows, after);
    var g := SwitchedHistory(v.live, OnlyIn(base, Stored(after)), |v.live|, h);
    assert w.arch + w.live == v.live;
    MixedGrows(v, m, rows, base, before, after, h.owners);
    MixedKeeps(before, after, v.live, h);
    GrowsKeepsKept(Mixed(before, after, v.live), Recovered(w), h);
    MixedLogOk(v, m, rows, base, before, after, h);
    RememberedOwned(v.live, after, h.owners);
    NextIdStays(v.live, w.snap);
    RecoveredMemOk(w, after, h, g);
    DroppedSnapKept(before, after, w.snap, h);
    SelfLinked(w, g);
    OpensAs(e, w, g);
  }

  function MixedHistory(v: View, h: History, ahead: seq<WalOp>, after: Image): History {
    SwitchedHistory(v.live, OnlyIn(ReplayAll(ahead, ReplayAll(v.arch, h.base)), Stored(after)), |v.live|,
                    ExtendAll(ahead, h))
  }

  /**
   * Compaction removes records without logging and then checkpoints. A crash before the manifest switch
   * undoes it; after the switch and before the new log, records the live log creates come back as they
   * were; once the checkpoint completes, they are gone. Every next session is durable in turn.
   */
  lemma CompactCrashSafe(states: seq<Directory>, from: nat, s: nat, d: Directory, shown: Image, h: History,
                         ahead: seq<WalOp>, before: Image, after: Image, rows: seq<SnapshotRow>, i: nat)
    requires Behind(d, shown, h, ahead) && before == ReplayAll(ahead, shown)
    requires DropsFrom(before, after) && KeepsSources(before, after) && after.subjects == before.subjects
    requires SnapshotOf(rows, after, ExtendAll(ahead, h).owners)
    requires from < s < |states| - 1 && PlainTraceAt(states, from, s, d, after, rows)
    requires from <= i < |states|
    ensures i < s ==> OpensTo(states[i], shown, ManifestOf(d).value.walArchives == []) && OpensWith(states[i], h)
    ensures s <= i < |states| - 1 && NothingUndone(ViewOf(d).value.live, ahead, shown) ==>
              && OpensTo(states[i], Mixed(before, after, ViewOf(d).value.live), false)
              && OpensWith(states[i], MixedHistory(ViewOf(d).value, h, ahead, after))
    ensures i == |states| - 1 ==>
              OpensTo(states[i], after, true) && OpensWith(states[i], CheckpointedHistory(after, ExtendAll(ahead, h)))
  {
    var v, g := ViewOf(d).value, ExtendAll(ahead, h);
    MemoryKept(shown, h, ahead);
    DropKeeps(before, after, g);
    if i < s {
      BeforeSwitchSafe(states[i], d, shown, h);
    } else if i < |states| - 1 {
      if NothingUndone(v.live, ahead, shown) {
        Rebase(v.arch, v.live, h.base, shown, h.owners);
        CatchUp(v.live, ahead, ReplayAll(v.arch, h.base), shown, h);
        CoversRebase(v.arch, v.live, h.base, h);
        CoversLater(v.live, ahead, ReplayAll(v.arch, h.base), h);
        MixedSafe(states[i], v, PlainManifest(after, SeqNoOf(ManifestOf(d).value) + 1), rows,
                  ReplayAll(ahead, ReplayAll(v.arch, h.base)), before, after, g);
      }
    } else {
      AfterTruncateSafe(states[i], d, after, rows, g);
    }
  }

  /** What a crash during compaction can leave, for a session in which memory and directory are linked. */
  ghost predicate CompactTrace(states: seq<Directory>, from: nat, d: Directory, before: Image, after: Image) {
    forall i :: from <= i < |states| ==>
      && OpensDurably(states[i])
      && (|| OpensTo(states[i], before, false)
          || OpensTo(states[i], Mixed(before, after, OpsIn(d, WAL_FILE)), false)
          || (i == |states| - 1 && OpensTo(states[i], after, true)))
  }

  lemma CompactTraced(states: seq<Directory>, from: nat, d: Directory, before: Image, after: Image,
                      rows: seq<SnapshotRow>, h: History)
    requires Survives(d, before, h) && DropsFrom(before, after) && KeepsSources(before, after)
    requires after.subjects == before.subjects
    requires SnapshotOf(rows, after, h.owners) && PlainTrace(states, from, d, after, rows)
    ensures CompactTrace(states, from, d, before, after)
  {
    var s :| from < s < |states| - 1 && PlainTraceAt(states, from, s, d, after, rows);
    NothingLater(ViewOf(d).value.live, before);
    forall i | from <= i < |states|
      ensures OpensDurably(states[i])
      ensures || OpensTo(states[i], before, false)
              || OpensTo(states[i], Mixed(before, after, OpsIn(d, WAL_FILE)), false)
              || (i == |states| - 1 && OpensTo(states[i], after, true))
    {
      CompactCrashSafe(states, from, s, d, before, h, [], before, after, rows, i);
    }
  }
}
