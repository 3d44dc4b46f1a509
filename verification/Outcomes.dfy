/**
 * What `consolidate` and `compact` (`db/src/collection.rs`) do to every record, on the fields of the records, and
 * that what their loops compute is that.
 */
module Outcomes {
  import opened Wrappers
  import opened Records
  import opened Replay
  import opened Sorting
  import opened Consolidation

  // ----- Consolidation -----

  /** A cold record with enough others under its keyword. */
  ghost predicate TakenUnder(docs: map<nat, StoredDoc>, sc: Scoring, minCluster: nat, x: nat, kw: string) {
    x in Cluster(docs, sc, kw) && |Cluster(docs, sc, kw)| >= minCluster
  }

  ghost predicate Taken(docs: map<nat, StoredDoc>, sc: Scoring, minCluster: nat, x: nat) {
    exists kw :: TakenUnder(docs, sc, minCluster, x, kw)
  }

  /** Exactly such records are in the archive, unchanged; every other record is where it was, unchanged. */
  ghost predicate ColdMoved(docs0: map<nat, StoredDoc>, archive0: map<nat, StoredDoc>, docs: map<nat, StoredDoc>,
                            archive: map<nat, StoredDoc>, sc: Scoring, minCluster: nat) {
    && (forall x :: x in docs0 ==>
          if Taken(docs0, sc, minCluster, x) then x !in docs && x in archive && archive[x] == docs0[x]
          else x in docs && docs[x] == docs0[x] && x !in archive)
    && (forall x :: x in archive0 ==> x in archive && archive[x] == archive0[x])
    && (forall x :: x in archive ==> x in archive0 || x in docs0)
  }

  /**
   * A live summary of the records under one keyword: its sources are these and no others, the most salient first, and
   * its text is what is made of them in that order; it is as important as the most important of them, counts as
   * having happened when the latest of them did, and was taken in now.
   */
  ghost predicate SummaryFor(d: StoredDoc, docs: map<nat, StoredDoc>, sc: Scoring, minCluster: nat, now: int,
                             kw: string) {
    var r, ids := d.record, Cluster(docs, sc, kw);
    && r.validTo.None? && r.subject.None? && r.hits == 0 && r.lastHit.None? && r.ingestTime == now
    && r.tags == [SUMMARY_TAG, kw] && ids != {} && |ids| >= minCluster
    && Distinct(r.sourceIds) && (forall x :: x in r.sourceIds <==> x in ids)
    && (forall i, j :: 0 <= i < j < |r.sourceIds| ==>
          r.sourceIds[i] in docs && r.sourceIds[j] in docs &&
          sc.salience(docs[r.sourceIds[i]]) >= sc.salience(docs[r.sourceIds[j]]))
    && (exists sources: seq<StoredDoc> :: SourcesAre(sources, docs, r.sourceIds) &&
                                          (r.text, d.enc) == sc.summarize(kw, sources))
    && r.importance >= 0.0 && (forall x :: x in ids ==> docs[x].record.importance <= r.importance)
    && (r.importance == 0.0 || exists x :: x in ids && docs[x].record.importance == r.importance)
    && (forall x :: x in ids ==> docs[x].record.eventTime <= r.eventTime)
    && exists x :: x in ids && docs[x].record.eventTime == r.eventTime
  }

  /** The new records are summaries, one for each keyword with enough cold records, under the next ids. */
  ghost predicate ColdSummarized(docs0: map<nat, StoredDoc>, next0: nat, docs: map<nat, StoredDoc>, next: nat,
                                 sc: Scoring, minCluster: nat, now: int) {
    && next0 <= next
    && (forall s :: next0 <= s < next ==> s in docs && s !in docs0)
    && (forall s :: s in docs && s !in docs0 ==>
          next0 <= s < next && exists kw :: SummaryFor(docs[s], docs0, sc, minCluster, now, kw))
    && (forall x, kw :: TakenUnder(docs0, sc, minCluster, x, kw) ==>
          exists s :: s in docs && s !in docs0 && SummaryFor(docs[s], docs0, sc, minCluster, now, kw))
    && forall s, t :: s in docs && s !in docs0 && t in docs && t !in docs0 && docs[s].record.tags == docs[t].record.tags
         ==> s == t
  }

  lemma MovesIsTaken(docs: map<nat, StoredDoc>, sc: Scoring, minCluster: nat, x: nat)
    ensures Moves(docs, sc, minCluster, Keywords(docs, sc), x) <==> Taken(docs, sc, minCluster, x)
  {
    if Moves(docs, sc, minCluster, Keywords(docs, sc), x) {
      var kw := GroupKey(docs[x], sc).value;
      assert TakenUnder(docs, sc, minCluster, x, kw);
    }
    if Taken(docs, sc, minCluster, x) {
      var kw :| TakenUnder(docs, sc, minCluster, x, kw);
      assert GroupKey(docs[x], sc) == Some(kw);
    }
  }

  lemma SummaryIsFor(d: StoredDoc, docs: map<nat, StoredDoc>, sc: Scoring, minCluster: nat, now: int,
                     done: set<string>, kw: string)
    requires Summarizes(d, docs, sc, minCluster, now, done) && SummaryOf(d, docs, sc, minCluster, now, kw)
    ensures SummaryFor(d, docs, sc, minCluster, now, kw)
  {
  }

  lemma MovedRightly(docs0: map<nat, StoredDoc>, archive0: map<nat, StoredDoc>, docs: map<nat, StoredDoc>,
                     archive: map<nat, StoredDoc>, sc: Scoring, minCluster: nat)
    requires MovedOk(docs0, archive0, docs, archive, sc, minCluster, Keywords(docs0, sc))
    requires docs0.Keys !! archive0.Keys
    ensures ColdMoved(docs0, archive0, docs, archive, sc, minCluster)
  {
    forall x
      ensures Moves(docs0, sc, minCluster, Keywords(docs0, sc), x) <==> Taken(docs0, sc, minCluster, x)
    {
      MovesIsTaken(docs0, sc, minCluster, x);
    }
  }

  lemma NewIsSummary(docs0: map<nat, StoredDoc>, d: StoredDoc, sc: Scoring, minCluster: nat, now: int,
                     done: set<string>)
    requires Summarizes(d, docs0, sc, minCluster, now, done)
    ensures exists kw :: SummaryFor(d, docs0, sc, minCluster, now, kw)
  {
    var kw :| kw in done && SummaryOf(d, docs0, sc, minCluster, now, kw);
    SummaryIsFor(d, docs0, sc, minCluster, now, done, kw);
  }

  lemma TakenIsSource(docs0: map<nat, StoredDoc>, next0: nat, docs: map<nat, StoredDoc>, next: nat, sc: Scoring,
                      minCluster: nat, now: int, x: nat, kw: string)
    requires SummariesOk(docs0, next0, docs, next, sc, minCluster, now, Keywords(docs0, sc))
    requires SourcedOk(docs0, next0, docs, next, sc, minCluster, now, Keywords(docs0, sc))
    requires TakenUnder(docs0, sc, minCluster, x, kw) && forall x :: x in docs0 ==> x < next0
    ensures exists s :: s in docs && s !in docs0 && SummaryFor(docs[s], docs0, sc, minCluster, now, kw)
  {
    var done := Keywords(docs0, sc);
    assert Taken(docs0, sc, minCluster, x);
    MovesIsTaken(docs0, sc, minCluster, x);
    assert HasSummary(docs, next0, next, x);
    var s :| next0 <= s < next && s in docs && x in docs[s].record.sourceIds;
    var k :| k in done && SummaryOf(docs[s], docs0, sc, minCluster, now, k);
    SummaryIsFor(docs[s], docs0, sc, minCluster, now, done, k);
    SameKey(docs0[x], sc, k, kw);
  }

  /** What the cluster loop leaves is what the records' fields say. */
  lemma ConsolidatedRightly(docs0: map<nat, StoredDoc>, archive0: map<nat, StoredDoc>, next0: nat,
                            docs: map<nat, StoredDoc>, archive: map<nat, StoredDoc>, next: nat, sc: Scoring,
                            minCluster: nat, now: int)
    requires Consolidated(docs0, archive0, next0, docs, archive, next, sc, minCluster, now, Keywords(docs0, sc))
    requires docs0.Keys !! archive0.Keys && forall x :: x in docs0 ==> x < next0
    ensures ColdMoved(docs0, archive0, docs, archive, sc, minCluster)
    ensures ColdSummarized(docs0, next0, docs, next, sc, minCluster, now)
  {
    MovedRightly(docs0, archive0, docs, archive, sc, minCluster);
    forall s | s in docs && s !in docs0
      ensures next0 <= s < next && exists kw :: SummaryFor(docs[s], docs0, sc, minCluster, now, kw)
    {
      NewIsSummary(docs0, docs[s], sc, minCluster, now, Keywords(docs0, sc));
    }
    forall x, kw | TakenUnder(docs0, sc, minCluster, x, kw)
      ensures exists s :: s in docs && s !in docs0 && SummaryFor(docs[s], docs0, sc, minCluster, now, kw)
    {
      TakenIsSource(docs0, next0, docs, next, sc, minCluster, now, x, kw);
    }
    forall s, t | s in docs && s !in docs0 && t in docs && t !in docs0 && docs[s].record.tags == docs[t].record.tags
      ensures s == t
    {
      assert SameCluster(docs0, docs, s, t);
    }
  }

  /** A record is grouped under one keyword. */
  lemma SameKey(d: StoredDoc, sc: Scoring, a: string, b: string)
    requires Keyed(d, sc, a) && Keyed(d, sc, b)
    ensures a == b
  {
  }

  // ----- Compaction -----

  /**
   * More than the retention ago. Times are signed 64-bit seconds, and their difference saturates: a retention that
   * equals the largest one is never exceeded, and one beyond it wraps to a negative one.
   */
  ghost predicate LongAgo(t: int, now: int, retention: nat) {
    && retention != 0x7FFF_FFFF_FFFF_FFFF
    && now - t > if retention < 0x8000_0000_0000_0000 then retention else retention - 0x1_0000_0000_0000_0000
  }

  /** For every retention that the source's type holds. */
  lemma ExpiredIsLongAgo(t: int, now: int, retention: nat)
    requires retention < 0x1_0000_0000_0000_0000
    ensures SatSub(now, t) > AsI64(retention) <==> LongAgo(t, now, retention)
  {
  }

  /** A live summary, wherever it is stored, has the record among its sources. */
  ghost predicate Sourced(docs: map<nat, StoredDoc>, archive: map<nat, StoredDoc>, x: nat) {
    exists s :: (s in docs && SourceOf(docs[s], x)) || (s in archive && SourceOf(archive[s], x))
  }

  ghost predicate SourceOf(summary: StoredDoc, x: nat) {
    summary.record.validTo.None? && SUMMARY_TAG in summary.record.tags && x in summary.record.sourceIds
  }

  ghost predicate EndedLongAgo(r: Record, now: int, retention: nat) {
    r.validTo.Some? && LongAgo(r.validTo.value, now, retention)
  }

  ghost predicate HappenedLongAgo(r: Record, now: int, retention: nat) {
    LongAgo(if r.eventTime < 0 then 0 else r.eventTime, now, retention)
  }

  /**
   * A record of `docs` goes if and only if it is no summary, no source of a live one, and ended longer ago than the
   * retention; an archived one also if it happened longer ago. What stays is unchanged.
   */
  ghost predicate DeadRemoved(docs0: map<nat, StoredDoc>, archive0: map<nat, StoredDoc>, docs: map<nat, StoredDoc>,
                              archive: map<nat, StoredDoc>, now: int, retention: nat) {
    && (forall x :: x in docs ==> x in docs0 && docs[x] == docs0[x])
    && (forall x :: x in archive ==> x in archive0 && archive[x] == archive0[x])
    && (forall x :: x in docs0 ==>
          var r := docs0[x].record;
          x !in docs <==>
          SUMMARY_TAG !in r.tags && !Sourced(docs0, archive0, x) && EndedLongAgo(r, now, retention))
    && (forall x :: x in archive0 ==>
          var r := archive0[x].record;
          x !in archive <==>
          && SUMMARY_TAG !in r.tags && !Sourced(docs0, archive0, x)
          && (EndedLongAgo(r, now, retention) || HappenedLongAgo(r, now, retention)))
  }

  lemma SourcedIsReferenced(docs: map<nat, StoredDoc>, archive: map<nat, StoredDoc>, x: nat)
    ensures Sourced(docs, archive, x) <==> Referenced(docs, archive, x)
  {
    if Sourced(docs, archive, x) {
      var s :| (s in docs && SourceOf(docs[s], x)) || (s in archive && SourceOf(archive[s], x));
      assert Protects(docs, s, x) || Protects(archive, s, x);
    }
    if s :| Protects(docs, s, x) {
      assert SourceOf(docs[s], x);
    }
    if s :| Protects(archive, s, x) {
      assert SourceOf(archive[s], x);
    }
  }

  lemma DeadIsLongAgo(d: StoredDoc, referenced: set<nat>, now: int, retention: nat)
    requires retention < 0x1_0000_0000_0000_0000
    ensures DeadDocs(referenced, now, retention)(d) <==>
            SUMMARY_TAG !in d.record.tags && d.record.id !in referenced && EndedLongAgo(d.record, now, retention)
    ensures DeadArchive(referenced, now, retention)(d) <==>
            && SUMMARY_TAG !in d.record.tags && d.record.id !in referenced
            && (EndedLongAgo(d.record, now, retention) || HappenedLongAgo(d.record, now, retention))
  {
    if d.record.validTo.Some? {
      ExpiredIsLongAgo(d.record.validTo.value, now, retention);
    }
    ExpiredIsLongAgo(if d.record.eventTime < 0 then 0 else d.record.eventTime, now, retention);
  }

  /** What compaction leaves is what the records' fields say, for every retention. */
  lemma CompactedRightly(before: Image, referenced: set<nat>, now: int, retention: nat)
    requires retention < 0x1_0000_0000_0000_0000
    requires forall x :: x in before.docs ==> before.docs[x].record.id == x
    requires forall x :: x in before.archive ==> before.archive[x].record.id == x
    requires forall sid :: sid in referenced <==> Referenced(before.docs, before.archive, sid)
    ensures var after := Compacted(before, referenced, now, retention);
            DeadRemoved(before.docs, before.archive, after.docs, after.archive, now, retention)
  {
    forall x ensures x in referenced <==> Sourced(before.docs, before.archive, x) {
      SourcedIsReferenced(before.docs, before.archive, x);
    }
    forall d: StoredDoc
      ensures DeadDocs(referenced, now, retention)(d) <==>
              SUMMARY_TAG !in d.record.tags && d.record.id !in referenced && EndedLongAgo(d.record, now, retention)
      ensures DeadArchive(referenced, now, retention)(d) <==>
              && SUMMARY_TAG !in d.record.tags && d.record.id !in referenced
              && (EndedLongAgo(d.record, now, retention) || HappenedLongAgo(d.record, now, retention))
    {
      DeadIsLongAgo(d, referenced, now, retention);
    }
  }
}
