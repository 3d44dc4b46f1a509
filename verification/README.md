# EngramDB engine: a verified model

A Dafny model of the four cores of EngramDB's Rust engine, with proofs about every run, every input or every
insertion sequence. `dafny verify dfyconfig.toml` checks all of it.

**1. The durable collection.** Memory is `docs`, `archive`, `subjects` and `next_id`; disk is a map from file names to
a manifest, one snapshot segment, archived logs and the live log. `Replay` interprets a log; `Absorb` proves that
replaying a log over the state it produced changes nothing but hit counters, and when exactly; `Disk` says what `open`
reads, line by line, and `Utf8` which torn lines are still text; `Durability` is the link between a directory and
memory that every call keeps (`Operations`, `Calls`) and that survives every single file action of both kinds of
checkpoint (`Folder`, `Checkpoints`, `CheckpointSteps`). `Actions` gives, for each public call, what it logs as a
function of its arguments and of memory, and proves that this keeps the invariants. `Collection` is the imperative
object whose methods follow the source call by call, `Consolidation` what grouping and compaction decide, `Outcomes`
what that does to every record, `Setbacks` the two ways in which a directory can come to show less than it did, `Runs`
the transition system made of those calls, both checkpoints, compactions, reopenings, and a crash at any file action of
them, and `Limits` holds concrete inputs on which stronger claims fail. `Records`, `FileNames`, `Invariants` and
`Wrappers` hold the data, the file names and the invariants.

**2. The graph indexes.** `VisitedStamps` is the generation-stamped visited set; `Candidates`, `Graphs` and `Beams`
are the ordered heaps, reachability and the beam search that all three indexes share; `Layers`, `Neighbours`,
`Linking` and `Joining` are the layered graph, its greedy descent, neighbour selection and insertion; `SketchHnsw`,
`Hnsw` and `Vamana` (with `RobustPrune`) are the three objects, and `Answers` says what their searches return in terms
of the stored items. Distances are arbitrary real functions and a new node's level is an arbitrary number up to 63.

**3. IVF-PQ.** `Vectors`, `KMeans`, `Seeding`, `ProductQuantizer`, `IvfPq` and `RowAnswers`: the weighted choice of
initial centroids and Lloyd's iteration, product quantisation, asymmetric distances, training, list building, scanning
and reranking under each of the three metrics, over reals, and what an answer means for the stored rows.

**4. Recall selection.** `Mmr` is the greedy selector with incremental penalties and a token budget; `Kernels`,
`Ternary`, `Packing` and `Sketches` are the ternary dot product on 64-bit words in its scalar and blocked forms, the
packing of signs into lanes, and the similarity of sketches. `Sorting` is the stable sort the others share.

How to read the contracts of the state machine: a directory `Survives` for a memory if opening it gives that memory
back (`Grows`: equal in everything but hit counters, which are never smaller; exact while no log is archived), its two
maps are disjoint, no id at or above the counter was ever used, at most one version per subject is live (without
imports), every source of a live summary is archived (without imports and hard deletions), and all this holds for
every prefix of the live log as well; it is `Durable` if in addition the log ends cleanly, so that what is appended
next is read back too. A call is `Performed(action, ...)` if memory is what replaying the operations of that action
makes of it, the log has exactly those operations appended, the directory is still linked to memory, and every
directory on the way recovers to memory after a prefix of those operations, unless a tear inside a character makes
`open` fail. An id is `Usable` for an import if it was never used, or if its record is gone and either the new row has
the old subject and does not bring a filed id back into `docs`, or the last plain checkpoint, the logs since and the
subject lists have forgotten the id. `Runs.CallIsStep`, `Runs.CheckpointIsStep` and `Runs.ArchivingIsStep` take these
contracts to the steps of a run. A run also goes on after a tear: what is called then is `ahead` of what the log will
give back, until the next checkpoint, and so is an operation that lacks its newline once something is appended behind
it.

Where the code departs from what one might expect, the model follows the code:

- A torn last line is not always tolerated, as the comment on `replay` says (db/src/storage/wal.rs:57-62): lines are
  decoded before they are parsed (db/src/storage/wal.rs:70-71), so a tear inside a character of more than one byte
  makes `open` fail. `Disk.TearBreaks` says exactly which tears do, `Limits.TornCharacter` is an input, and every
  crash statement carries that case. Pure ASCII records never do; the text of a summary always could.
- After a torn tail the log is reopened for appending with the torn bytes in place (db/src/storage/wal.rs:36-41), so a
  later append is read back exactly if the log was clean (`Disk.AppendReadBack`). If the last operation only lacked
  its newline, the first append loses that operation too (`Disk.UnterminatedLost`).
- What is called behind a torn line lives in memory only, until a checkpoint. A completed plain checkpoint saves it. A
  completed archiving checkpoint, or a plain one that crashes before its new log, leaves the old log to be replayed
  over the new snapshot, and that can undo such calls: a forgotten or deleted record comes back
  (`Limits.TornLogRevives`). `Checkpoints.CatchUp` gives the exact condition, `NothingUndone`.
- `checkpoint_keep_wal` renames the live log before it writes the manifest (db/src/collection.rs:868-873). A crash in
  between makes `open` miss the whole log. `Checkpoints.LostWindow` says exactly when that loses nothing and
  `Limits.LostWindowLosesRecord` is an input on which it loses a record.
- `Touch` is not idempotent (`Limits.TouchCountsTwice`): recovery with archived logs gives hit counters back exactly
  if and only if these logs touch no stored record that they did not create (`Absorb.AbsorbedExactly`,
  `Checkpoints.ArchivedExactly`).
- A deletion removes only one of two copies of an id, so replaying a log twice can leave an id in both maps. It does
  so exactly for an id that the log first remembers as an archived row, files in no other way, and has in `docs` in
  the end (`Absorb.ReplayTwiceExactly`; `Limits.ReusedIdSplits` and `Limits.ReusedIdKeeps` are inputs). Only an import
  under a hard-deleted id can make such a log. Imports under the used ids that `Durability.Reusable` describes are as
  durable as any call.
- Compaction does not clean subject lists. An import for another subject under an id that it dropped is then ended by
  forgetting the old subject (`Limits.ForeignEntryEnds`).
- `retention_secs` is converted to a signed number: above 2^63-1 it turns negative and even a record closed just now
  counts as expired (`Consolidation.RetentionWraps`).
- The visited stamps collide with their own refill value on search 2^33-2 and then on every multiple of 2^32-1
  (`VisitedSets.ReliableExactly`); searches carry that condition.
- Under the dot metric a reranked IVF-PQ search sorts by the product itself, smallest first
  (db/src/index/ivfpq.rs:395-399), so the first hit is a closest one only if all rows are equally close
  (`IvfPqs.DotSearchInverted`, `RowAnswers.DotPicksFarther`); in Vamana the same metric prunes by distances of the
  opposite sign.
- An IVF-PQ index built over no rows gets coarse centroids of length 1 (db/src/index/ivfpq.rs:413), and a later search
  slices out of range unless the dimension is 1 (`IvfPqs.EmptyBuildSlices`).
- The draw that picks a weighted seed is divided by 2^31 twice (db/src/index/ivfpq.rs:121 and 146), so a seed is never
  a row behind the first ones that carry 2^-31 of the weight (`Seeding.EarlyPick`).
- In Vamana only the closest entry can ever be returned among the entries and seeds (db/src/index/vamana.rs:102-108),
  which the contract of `Vamanas.BeamSearchMulti` states.
- A beam width of 0 behaves like a width of 1.

## Model

| member | source | states |
|---|---|---|
| Collections.ReplayLog | db/src/collection.rs:178-257 | reading a log file line by line and applying each operation gives the replay of its operations up to the first line that does not parse, and fails exactly if a line that is not UTF-8 comes first |
| Replay.ReplayGrows | db/src/collection.rs:178-257 | replay is monotone in hit counters: from images equal up to grown counters it leads to images equal up to grown counters |
| Absorb.ReplayClosedForm | db/src/collection.rs:189-257 | what a log that does not create an id does to it, in closed form: last forget, last touch, number of touches, archived or deleted, wherever the record is stored |
| Absorb.ReplayAbsorbed | db/src/collection.rs:178-257 | re-replay idempotence: over any image that already follows it, a log in which each created id is absent whenever it is remembered and never comes back out of the archive, or is created only once, gives that image back in everything but hit counters, which never shrink, and the result follows the log again, so it can be repeated any number of times |
| Absorb.ReplayTwice | db/src/collection.rs:178-257 | the plain form: replaying such a log twice over any disjoint image is replaying it once, up to grown hit counters |
| Absorb.FreshReplayable | db/src/collection.rs:178-257 | in particular every log that remembers only new ids is such a log |
| Absorb.ReplayTwiceExactly | db/src/collection.rs:178-257 | for every log in which a remembered id is not stored, any other is, and one to be archived is in `docs`: replaying it twice is replaying it once up to hit counters if and only if no id was first remembered as an archived row, filed by nothing else, and is in `docs` in the end; and in both maps to the letter if and only if, besides, it touches no stored id that it did not create |
| Absorb.AbsorbedExactly | db/src/collection.rs:189-257 | an image that follows a repeatable log is given back with its hit counters if and only if the log touches no id stored in it that it did not create |
| FileNames.SegmentNameRoundTrip | db/src/storage/mod.rs:120-122 | parsing the name of a snapshot segment gives back its number, for every number |
| FileNames.ArchiveNamesDiffer | db/src/collection.rs:868-871 | archive names of different sequence numbers differ whatever the clock says |
| Utf8.PrefixValid | db/src/storage/wal.rs:70-71 | a prefix of the UTF-8 bytes of a text is well-formed again if and only if it ends between two characters |
| Disk.TearBreaks | db/src/storage/wal.rs:63-87 | a line torn after some bytes makes the whole read fail if and only if the tear is inside a character, and no tear of a record can do so if and only if the record is pure ASCII |
| Disk.AppendReadBack | db/src/storage/wal.rs:36-55 | in a log that can be opened, an appended operation is read back after what was there if and only if the log had no torn or unterminated tail |
| Disk.UnterminatedLost | db/src/storage/wal.rs:36-55 | if the last operation lacks only its newline, the first append makes it unreadable as well, and nothing else |
| Invariants.SurvivorListed | db/src/collection.rs:1095-1117 | after replaying any log over a snapshot that contains part of it, every stored record with a subject is listed under that subject |
| Invariants.ApplySingleLive | db/src/collection.rs:315-363 | forgetting, touching, archiving and deleting keep at most one live version per subject |
| Durability.LogKeepsDurable | db/src/storage/wal.rs:43-48 | appending an operation on a stored id, or a remember of a never-used or reusable one, leaves a directory that is durable for the memory it was applied to |
| Durability.TornAppendRecovers | db/src/storage/wal.rs:57-87 | a crash during an append recovers the operations before it, or also it if all its bytes were written, or, if the tear is inside a character, nothing: `open` fails |
| Durability.StoppedView | db/src/storage/wal.rs:63-87 | behind a line at which reading stops, nothing an append leaves changes what `open` reads, except that it may make it fail |
| Durability.SurvivorRecovers | db/src/collection.rs:163-296 | recovery refinement: opening a linked directory succeeds and gives memory back, hit counters never smaller and exact while no log is archived, with the same id counter and all invariants |
| Operations.CallKeepsDurable | db/src/collection.rs:298-385 | a call that appends any number of allowed operations keeps the directory durable |
| Operations.CrashMidCall | db/src/collection.rs:298-385 | a crash at any point of such a call, also in the middle of a line, recovers memory after a prefix of its operations with the invariants of that prefix, and makes `open` fail exactly if it tore a line inside a character; with ASCII operations it always recovers |
| Operations.SubjectEnded | db/src/collection.rs:602-627 | closing the listed ids of a subject closes exactly its live versions and no other record |
| Operations.RememberAllowed | db/src/collection.rs:315-363 | the operations of a remember are allowed and keep at most one live version of its subject |
| Actions.ActionAllowed | db/src/collection.rs:298-385 | whatever a public call logs (remember, forget, forget of a subject, hard deletion, touches, the moves of a consolidation, an import of a new id) keeps at each operation one live version per subject and the archived sources of live summaries |
| Actions.ActionPerformed | db/src/collection.rs:298-385 | a call that logs just that is performed: memory, directory, history and every directory on the way are as its operations say |
| Checkpoints.CatchUp | db/src/collection.rs:860-877 | a memory that has moved on from the one a log explains is given back by replaying that log over it if and only if nothing that happened since is undone, and then the log explains it in turn |
| Checkpoints.SwitchedRecovers | db/src/collection.rs:806-834 | between the manifest switch and the new log, an old log that explains memory is replayed over a snapshot of that memory: recovery still gives memory back and the session after it is durable in turn |
| Checkpoints.CheckpointExact | db/src/collection.rs:806-834 | after a plain checkpoint recovery is exact, whatever the directory held before |
| Checkpoints.ArchivedRecovers | db/src/collection.rs:838-877 | archived logs that explain memory behind a snapshot of it keep the link to memory, however many there are |
| Checkpoints.ArchivedExactly | db/src/collection.rs:838-877 | that recovery is exact if and only if these logs touch no stored id that they did not create |
| Checkpoints.LostWindow | db/src/collection.rs:868-873 | in the window between the two renames recovery gives the maps back if and only if no entry of the live log has a visible effect, counting only entries that the snapshot does not already contain, and the id counter if and only if the log created no id at or above it |
| Setbacks.LostSafe | db/src/collection.rs:868-873 | the session that opens in that window is linked to the last checkpoint in turn, with every invariant; only ids below its counter are still known to have been used |
| Setbacks.CutBehind | db/src/storage/wal.rs:36-55 | once something is appended behind an operation without its newline, the directory is linked to memory before that operation, and memory is ahead of it by that operation |
| CheckpointSteps.PlainCheckpointCrashSafe | db/src/collection.rs:806-834 | a crash after any file action of a plain checkpoint, also in a session with a torn log: before the manifest switch the directory opens to what it showed, once the log is recreated exactly to memory, and in between to memory up to grown hit counters if and only if the old log undoes nothing of what it does not hold (always so for a clean log); the next session is durable in turn |
| CheckpointSteps.KeepCheckpointCrash | db/src/collection.rs:838-877 | likewise for every file action of an archiving checkpoint, also for the completed one: before the rename what the directory showed, in the window the last checkpoint with the exact condition for losing nothing, from the manifest switch on memory if and only if the archived logs undo nothing of what the live log does not hold |
| CheckpointSteps.WritePlain | db/src/collection.rs:806-834 | the file actions in the source's order produce a trace of directories with exactly those three phases |
| CheckpointSteps.WriteKeeping | db/src/collection.rs:838-877 | likewise for the archiving checkpoint, with the window as a phase of its own |
| CheckpointSteps.CompactWindow | db/src/collection.rs:994-1032 | if a compaction crashes after its manifest switch, a record the live log creates comes back as it last was, dropped or not; of the others the kept ones recover up to hit counters and the dropped ones are gone |
| CheckpointSteps.AppendedRecovers | db/src/collection.rs:896-943 | whatever is appended to a clean log, also an import under a reused id, opens to its effect on memory |
| Folders.WriteSnapshot | db/src/storage/mod.rs:69-83 | loading the written rows gives memory's two maps back, and until the rename no readable file changes |
| Folders.WriteManifest | db/src/storage/mod.rs:43-54 | the manifest changes in one step, through a temporary file nobody reads |
| Folders.Cleanup | db/src/storage/mod.rs:102-118 | only segments that are not listed are touched, whichever removals fail |
| Collections.Open | db/src/collection.rs:163-296 | opening succeeds exactly if recovery is defined and fails with its error otherwise, holds what recovery defines, and continues the run the directory belongs to |
| Collections.Collection.Remember | db/src/collection.rs:298-385 | a text of white space alone is refused without effect; otherwise a never-used id is issued, the record stored under it holds what was handed in, its event time or now, its importance brought into 0 to 1, every live version of the subject is closed, the new record is its only live version, and the call is performed durably |
| Collections.BlankIs | db/src/collection.rs:299-301 | a text counts as blank if and only if all its characters are among the 25 of the Unicode property `White_Space` |
| Collections.RememberEffect | db/src/collection.rs:315-363 | the operations of a remember, replayed, give the two maps with the subject's live versions closed and the new record added |
| Collections.Collection.Forget | db/src/collection.rs:588-600 | closes the record wherever it is stored and nothing else, or reports that it is missing |
| Collections.Collection.ForgetSubject | db/src/collection.rs:602-627 | closes exactly the live records of the subject and returns their number |
| Collections.EndedCount | db/src/collection.rs:602-627 | that number is the number of live records of the subject |
| Collections.Collection.HardDelete | db/src/collection.rs:629-650 | removes the record from both maps and from every subject list, logs just that, issues no id again, and reports a missing id |
| Collections.Collection.TouchPicked | db/src/collection.rs:560-585 | every returned record is counted once per appearance, and the sources shown are those of the first five of its summary that are stored |
| Collections.SourcesAllFound | db/src/collection.rs:568-582 | without imports and hard deletions, none of the first five sources of a live summary is missing from what is shown |
| Collections.Collection.ImportRow | db/src/collection.rs:896-943 | a row is imported exactly if its id is not stored, and opening the directory then gives memory back for any id; for a never-used or reusable id the call is performed durably, like any other |
| Collections.Collection.Checkpoint | db/src/collection.rs:806-834 | the plain checkpoint as a call: memory unchanged, the log empty, every directory on the way crash-safe |
| Collections.Collection.CheckpointKeepWal | db/src/collection.rs:838-877 | the archiving checkpoint as a call, with its window and its new log; whenever the directory would have opened to memory before, also with a torn tail, it does so afterwards |
| Collections.Collection.ConsolidateClusters | db/src/collection.rs:690-799 | a record is archived, unchanged, if and only if it is live, no summary, never hit and at most as salient as the threshold, and enough such records share its top keyword, or its subject if it has no keyword; every other record stays as it is; each such keyword gets exactly one new live summary, whose sources are exactly these records, the most salient first, with the text made of them in that order, their largest importance and their latest event time; the counts returned are right |
| Collections.Collection.Consolidate | db/src/collection.rs:683-804 | the same followed by a checkpoint if anything was consolidated; a crash anywhere recovers a prefix of the operations or the result |
| Collections.Collection.Compact | db/src/collection.rs:947-1032 | for every retention, a record of `docs` goes if and only if it is no summary, no source of a live one and ended longer ago than that, an archived one also if it happened longer ago; everything else is unchanged, the counts returned are right, and every directory on the way opens durably to memory before, to the mix, or to memory after |
| Consolidation.GroupCold | db/src/collection.rs:692-708 | each live record that is no summary, was never hit and is at most as salient as the threshold is in exactly the group of its top keyword, or of its subject if it has none |
| Consolidation.CompactKeeps | db/src/collection.rs:947-1029 | compaction keeps every invariant, every live record and every summary in `docs`, and every archived source of a protecting summary |
| Consolidation.CompactCrashSafe | db/src/collection.rs:947-1032 | a crash after any file action of a compaction's checkpoint: memory before, the mix in which the records the live log creates are back, or exactly memory after, each as a session that is durable in turn |
| Consolidation.MixedSafe | db/src/collection.rs:947-1032 | the mix keeps one live version per subject and every archived source of every live summary, and the session that opens on it is linked to it |
| Consolidation.RetentionRespected | db/src/collection.rs:982-992 | up to 2^63-1 seconds, only records closed for longer than the retention expire |
| Consolidation.RetentionWraps | db/src/collection.rs:982-992 | a record closed right now counts as expired if and only if the retention exceeds 2^63-1 |
| Outcomes.ConsolidatedRightly | db/src/collection.rs:692-799 | what the cluster loop leaves is said on the fields of the records: exactly the cold ones with enough others under their keyword have moved, and the new records are their summaries |
| Outcomes.CompactedRightly | db/src/collection.rs:947-1032 | what compaction leaves is said on the fields of the records, for every retention |
| Outcomes.ExpiredIsLongAgo | db/src/collection.rs:954-959 | the saturating comparison, exactly: below 2^63-1 a time counts as expired if and only if it lies more than the retention back, at 2^63-1 never, and beyond it counts the wrapped, negative retention |
| Runs.RunSafe | db/src/collection.rs:163-296 | in every state of every run, whose steps are given only by which call is made and where it crashes, also between the two renames and on a torn or unterminated log, the directory opens to the memory it is linked to, all of memory if the log is clean; the maps are disjoint, at most one version per subject is live (without imports) and every source of every live summary is archived (without imports and hard deletions), both in memory and in what `open` gives |
| Runs.IdsNeverReissued | db/src/collection.rs:259-259 | an id that the directory has once shown, even if its record is gone, stays below the counter in every later state, until a crash between the two renames or an append behind an operation without its newline sets the directory back |
| Runs.CallIsStep | db/src/collection.rs:298-385 | a performed call is a step of a run, also behind a torn line or an operation without its newline, and each directory it passes through that opens at all is one of its crash steps |
| Runs.CheckpointIsStep | db/src/collection.rs:806-834 | so is a plain checkpoint, also one that saves compacted memory, with each directory on its way under the condition of the window |
| Runs.ArchivingIsStep | db/src/collection.rs:838-877 | so is an archiving checkpoint, with each directory on its way, also in the window between the renames |
| Limits.TouchCountsTwice | db/src/collection.rs:196-204 | an input on which replaying twice counts a hit twice |
| Limits.ReusedIdSplits | db/src/collection.rs:896-943 | an archived import, its deletion and an import of the id into `docs`, on which replaying twice leaves the id in both maps |
| Limits.ReusedIdKeeps | db/src/collection.rs:896-943 | the same with a row of `docs` first, on which it changes nothing |
| Limits.ForeignEntryEnds | db/src/collection.rs:896-943 | an import under an id that compaction dropped from another subject, which forgetting that subject ends |
| Limits.LostWindowLosesRecord | db/src/collection.rs:868-873 | a directory on which the window loses a remembered record and its id |
| Limits.TornCharacter | db/src/storage/wal.rs:63-87 | remembering "\u00e9" and crashing after its first byte leaves a collection that cannot be opened |
| Limits.TornLogRevives | db/src/collection.rs:838-877 | remember, torn line, reopen, forget, completed archiving checkpoint: the forgotten record is live again after `open` |
| VisitedSets.StampsAgree | db/src/index/mod.rs:58-94 | in every run of searches, with any resizing between them, a node is accepted exactly if a fresh set would accept it, unless the number of searches is a multiple of 2^32-1 other than the first |
| VisitedSets.AgreesUpToBound | db/src/index/mod.rs:72-84 | that covers all of the first 2^33-3 searches, through the wrap of the counter |
| VisitedSets.ReliableExactly | db/src/index/mod.rs:58-94 | for every n, search n accepts exactly the unvisited nodes in every run if and only if n is no multiple of 2^32-1, or the first |
| VisitedSets.FirstCollision | db/src/index/mod.rs:72-84 | the bound is sharp: in some run search 2^33-2 refuses a node it has never visited |
| VisitedSets.VisitedStamps.Begin | db/src/index/mod.rs:72-84 | the state after it is that of the model the run theorems are about |
| VisitedSets.VisitedStamps.TryVisit | db/src/index/mod.rs:86-94 | likewise, and outside collisions it accepts exactly the nodes not seen in this search |
| Candidates.Push | db/src/index/mod.rs:108-170 | heap insertion keeps the order by distance, then node, and the elements |
| Beams.OfferKeeps | db/src/sketch_hnsw.rs:181-194 | a first visit keeps the search invariant: everything seen is in the results, excluded, or beaten by a full set of results |
| Beams.ResultsExpanded | db/src/sketch_hnsw.rs:176-180 | when the loop stops, every result has been expanded |
| Beams.Complete | db/src/sketch_hnsw.rs:155-198 | if the width covers everything reachable that may be returned, exactly that is returned |
| Beams.Explore | db/src/sketch_hnsw.rs:176-197 | the loop ends with a settled result: ordered, at most the width, each source and each neighbour of a result returned, excluded, or at least as far as the worst of a full set, and complete if the width covers the reachable set |
| Layers.SetListKeeps | db/src/sketch_hnsw.rs:124-132 | replacing one adjacency list can break the structure only through that list |
| Layers.CloserShrinks | db/src/sketch_hnsw.rs:97-112 | a step of greedy descent shrinks the set of strictly closer nodes |
| Layers.Descend | db/src/sketch_hnsw.rs:97-112 | greedy descent ends, at a reachable local minimum no farther than its start |
| Layers.DescendTo | db/src/index/hnsw.rs:103-116 | layer by layer, each stop is a local minimum of its layer, reachable from the stop above, and the last one owns the layer below |
| Layers.SearchLayer | db/src/index/hnsw.rs:160-203 | the search of one layer from one entry is settled |
| Layers.FilterTakesNearest | db/src/sketch_hnsw.rs:226-231 | filtering a complete ordered result and taking `k` gives exactly the `k` nearest that pass |
| Answers.SearchedAnswer | db/src/sketch_hnsw.rs:201-232 | a settled search from a greedy stop, filtered and cut, answers with nodes in order of their distance to the query; with a width that covers what is reachable, no reachable node that qualifies and was left out is nearer |
| Neighbours.PickDiverse | db/src/sketch_hnsw.rs:235-247 | no pick is as close to an earlier pick as to the node, and every candidate passed over is that close to an earlier pick or comes after a full selection |
| Neighbours.GreedySelect | db/src/sketch_hnsw.rs:235-256 | the closest candidate other than the node is picked first whenever there is one |
| Neighbours.SelectHeuristic | db/src/index/hnsw.rs:206-233 | a diverse selection topped up in order of distance to as many as there are or fit, without duplicates |
| Neighbours.PruneByDist | db/src/sketch_hnsw.rs:258-270 | keeps exactly the closest `cap` of the pool without the node |
| Neighbours.PruneLinks | db/src/index/hnsw.rs:142-154 | keeps exactly the closest `cap` |
| Joining.FoundOwns | db/src/sketch_hnsw.rs:115-121 | a search never finds the node being inserted, always finds something, and what it finds owns the layer |
| Joining.JoinLayers | db/src/sketch_hnsw.rs:114-135 | the insertion loop changes each layer by one round, each explained by a settled search of the layer as it was, and keeps the structure |
| SketchHnsws.SketchHnsw.Insert | db/src/sketch_hnsw.rs:81-142 | over every insertion sequence: neighbours own their layer, no loops or duplicates, degrees bounded by `m0` on layer 0 and `m` above, the entry owns every layer; the new links are those of the rounds by the distances of the stored sketches, each pick links back or is trimmed to its closest |
| SketchHnsws.SketchHnsw.Search | db/src/sketch_hnsw.rs:201-232 | every pair found is the id of a stored sketch that is alive and one minus its distance to the query, best first and none twice; it comes from a settled search from a greedy stop, and if the width covers what is reachable there, no live reachable sketch left out is nearer to the query than one found |
| Hnsws.Hnsw.Insert | db/src/index/hnsw.rs:83-140 | the same structure and rounds for the dense graph, with its own selection, pruning and constant width; descent goes by the distance of the stored rows, as do picking and pruning, and searches by their rating, another scale under the cosine metric |
| Hnsws.Hnsw.Search | db/src/index/hnsw.rs:235-263 | every pair found is a stored row and its rating, best first and none twice; if the width covers what is reachable where the descent stops, no reachable row left out is rated better than one found |
| RobustPruning.SplitPrunes | db/src/index/vamana.rs:145-177 | the loop's split of the candidates gives a pruned list: a greedy prefix topped up with the closest dominated nodes |
| RobustPruning.RobustPrune | db/src/index/vamana.rs:145-177 | a duplicate-free subset without the point of size exactly min(R, others); past the short-circuit no greedily kept node is dominated by an earlier one, every other is dominated or comes after a full list, and every topped-up node is dominated |
| Vamanas.BeamSearchMulti | db/src/index/vamana.rs:80-132 | a settled search from the closest of the entries and seeds, none of whose others is returned |
| Vamanas.WideSearch | db/src/index/vamana.rs:80-132 | if the width covers the reachable nodes but for the other sources, the answer is the nearest of those nodes, and of all reachable nodes if and only if each of the other sources comes after all of a full answer |
| Vamanas.SearchedRows | db/src/index/vamana.rs:346-358 | what that means for the rows: the answer carries their ratings, in order, and none of the rows that can be returned is left out for a worse one |
| Vamanas.Vamana.InsertId | db/src/index/vamana.rs:183-231 | every list stays distinct, in range, without its own node and of length at most R; the links are those of a pruned search of width max(L, R), by the ratings and distances of the stored rows; each pick appends the node and is pruned again if it overflows; the medoid becomes the entry on every 4096th node |
| Vamanas.RefinedMutual | db/src/index/vamana.rs:280-306 | re-selecting one more node makes its edges mutual and spoils nobody's, whatever the graph of the nodes to come looks like |
| Vamanas.Rewire | db/src/index/vamana.rs:294-305 | the two loops over old and new neighbours, in place, compute that re-selection |
| Vamanas.Vamana.RefineAlphaPass | db/src/index/vamana.rs:277-315 | from any graph at all, by the ratings and distances of the stored rows: after the first loop every edge is mutual, each node having been re-selected from a settled search and its old links; after the second loop every list is at most R long, without its own node |
| Vamanas.Vamana.SeedRandomEntries | db/src/index/vamana.rs:262-273 | draws that many nodes, or as many as there are, and leaves an empty graph as it is |
| Vamanas.Vamana.SearchWithL | db/src/index/vamana.rs:346-358 | every pair found is the id of a stored row and its rating, best first and none twice; it comes from a settled search from the entry and the seeds, and if the width covers the reachable rows but for the sources that cannot be returned, none of those left out is rated better than one found |
| KMeans.GapNonneg | db/src/index/ivfpq.rs:175-183 | moving a cluster to its mean never loses |
| KMeans.StayGap | db/src/index/ivfpq.rs:157-184 | moving all centroids changes the cost of the old clusters by exactly the sum of their gaps |
| KMeans.StepImproves | db/src/index/ivfpq.rs:157-184 | the sum of squared nearest-centroid distances never increases across an iteration, including one that reseeds empty clusters with any rows |
| KMeans.Iterate | db/src/index/ivfpq.rs:157-184 | the loops compute such an iteration |
| KMeans.Lloyd | db/src/index/ivfpq.rs:157-185 | any number of iterations ends no worse than it began |
| Seeding.ReachedIsNew | db/src/index/ivfpq.rs:129-156 | a weighted pick that reaches a positive target is a row not chosen before |
| Seeding.Seeds | db/src/index/ivfpq.rs:126-156 | the initial centroids are rows; while the rows are not covered, each further one is no row behind the first ones that carry 2^-31 of the weight, and with positive shares they are all different |
| Seeding.KMeans1d | db/src/index/ivfpq.rs:116-186 | the whole of it: k centroids whose cost is at most that of the chosen rows; over no rows, k zero vectors of length at least 1 |
| ProductQuantizers.AdcExact | db/src/index/ivfpq.rs:93-114 | the coarse distance plus the selected table entries is the squared distance to centroid plus decoded residual, for every dimension; components that no subspace covers decode to zero |
| ProductQuantizers.AdcTableFor | db/src/index/ivfpq.rs:93-114 | the table holds those entries |
| ProductQuantizers.DistanceAdc | db/src/index/ivfpq.rs:239-246 | the sum of the entries a code selects |
| ProductQuantizers.EncodingOptimal | db/src/index/ivfpq.rs:201-219 | choosing per subspace is optimal over the whole product codebook |
| ProductQuantizers.EncodeRow | db/src/index/ivfpq.rs:201-219 | each part of the code is the first closest centroid of its codebook |
| IvfPqs.SampleRowIndices | db/src/index/ivfpq.rs:9-23 | a strictly increasing sample of the right size, all in range |
| IvfPqs.Build | db/src/index/ivfpq.rs:317-348 | every row is in exactly the list of its nearest centroid, once, and its code encodes its residual |
| IvfPqs.OneList | db/src/index/ivfpq.rs:318-322 | so every row is in exactly one list |
| IvfPqs.SearchIndex | db/src/index/ivfpq.rs:369-407 | probes the closest lists, by squared distance to their centroids; of the rows in them, those survive that decode closest to the query; without reranking the answer is the front of these, with the distances to what they decode to, negated for a dot or cosine search; with reranking it is the best of them under the metric |
| IvfPqs.FullProbeExact | db/src/index/ivfpq.rs:369-407 | with every list probed, no more rows than survive the cut, and reranking, the answer is the best of all rows under the metric; under L2 each hit carries the squared distance of its row, in order, and no row left out is closer |
| RowAnswers.BestRowsUnique | db/src/index/ivfpq.rs:398-407 | any two answers with the best rows list the same values, so the search is determined up to ties |
| RowAnswers.RawRates | db/src/index/metric.rs:11-22 | the value of the metric: the squared distance, the dot product, or one minus the dot product over the product of the norms, which counts as 10^-12 if it is smaller |
| RowAnswers.StoredRowFirst | db/src/index/ivfpq.rs:395-399 | under L2 a query that equals a stored row finds a row equal to it, at distance 0, in front |
| RowAnswers.CosineOrder | db/src/index/metric.rs:15-20 | under the cosine, rows come in falling order of the dot product over the product of the norms, and none that was left out has a larger one |
| IvfPqs.DotSearchInverted | db/src/index/ivfpq.rs:393-399 | under the dot product, a reranked search puts the row of the largest product among those that survive its cut first if and only if their products are all equal |
| RowAnswers.DotPicksFarther | db/src/index/ivfpq.rs:395-399 | two rows on a line, of which the one with the smaller product comes first |
| IvfPqs.TrainBooks | db/src/index/ivfpq.rs:49-84 | one codebook per subspace, no worse on the residuals of the sample than the rows it was seeded with; zero vectors if there is no row |
| IvfPqs.EmptyBuildSlices | db/src/index/ivfpq.rs:93-99 | in an index built over no rows, the slices that a query's table takes of its difference to a centroid are in range if and only if the dimension is 1 |
| IvfPqs.IvfPq.TrainAndBuild | db/src/index/ivfpq.rs:304-348 | adds a batch and rebuilds the index over all rows: as many centroids as the root of their number, between 4 and 256, that serve a sample no worse than rows drawn from it, and one codebook per subspace that does so for the residuals of another sample; over no rows, lists are empty and centroids are single zeros |
| IvfPqs.IvfPq.Search | db/src/index/ivfpq.rs:369-407 | as `SearchIndex` and `FullProbeExact` say, under each metric, on the rows themselves; an index not built finds nothing; one built over no rows may be searched only in dimension 1, where the source's slices are in range |
| Mmr.ShortcutExact | db/src/recall.rs:105-113 | skipping penalties that have reached 1 keeps them all exact if and only if no similarity exceeds a penalty that has reached 1 |
| Mmr.TrackedIsPenalty | db/src/recall.rs:105-113 | in particular with similarities of at most 1 the incremental penalty is max(0, largest similarity to the selection) |
| Mmr.ShortcutLoses | db/src/recall.rs:105-113 | similarities on which the shortcut loses the larger one |
| Mmr.GreedyWithinBudget | db/src/recall.rs:71-121 | picks are distinct and their tokens stay within the budget |
| Mmr.SelectedNaively | db/src/recall.rs:71-121 | with similarities of at most 1 each pick is the first best under the true penalties among the hits that fit |
| Mmr.PenaltyOfSims | db/src/recall.rs:105-113 | the penalty of a hit is the largest of its similarities to the picks before, but never negative |
| Mmr.SelectedMarginally | db/src/recall.rs:88-104 | each pick is marginally the best one at its time |
| Mmr.MmrSelect | db/src/recall.rs:71-121 | distinct picks from the hits in falling order of base score, within the budget, that end early only if nothing fits any more; with similarities of at most 1, each pick is the first of the hits that fit with the largest base score less `diversity` times the penalty, which is the largest similarity to the picks before it but never negative |
| Sorting.SortByStable | db/src/recall.rs:78-82 | the sort is stable, as the standard library promises: elements with the same key keep their order |
| Ternary.PlanesAreLanes | db/src/simd.rs:35-49 | for all words and any number of lanes, the masked population counts are the sum of lane products |
| Kernels.BlockOn | db/src/simd.rs:57-69 | four words at once contribute what they would one by one |
| Kernels.DotBlocked | db/src/simd.rs:52-74 | blocks of four words with a scalar tail total what the scalar loop totals |
| Ternary.TernaryDotCount | db/src/simd.rs:22-33 | whichever kernel runs, the result is the sum of all lane products |
| Packing.PackLane | db/src/sketch.rs:31-42 | OR-ing a shifted code into a free lane writes that lane and no other, for every lane of the word |
| Sketches.FromDense | db/src/sketch.rs:19-44 | the sketch holds the signs of `keep` nonzero components, or of all there are, and nothing else; no nonzero component left out has a larger magnitude than one that is kept; the count is the number of nonzero lanes |
| Sketches.DotSquared | db/src/sketch.rs:50-56 | the squared dot product is at most the product of the two counts |
| Sketches.DotBound | db/src/sketch.rs:50-56 | a dot product is at most either count, and equals the count against itself |
| Sketches.Similarity | db/src/sketch.rs:50-56 | lies between -1 and 1, is 1 against itself, and 0 if a side is empty |

## Left out

- Widths: ids, hit counters, the beam width of a search and counts are unbounded, apart from the widths the results are about (stamps and generations, the doubling beam width of an insertion, retention seconds); so are node numbers, which the source holds in 32 bits.
- Floats: 32-bit rounding, NaN and infinities; distances, scores and vectors are reals. The vectorised float kernels are not modelled.
- Collections.Collection.TouchPicked: only the part of `recall` that changes state; scoring, candidate gathering, classification and the cold filter are inputs, the picked ids arrive as a parameter.
- Collections.Collection.ImportRow: the lasting link is promised for `Usable` ids. Of the others, `Absorb.ReplayTwiceExactly` says of each log what one more replay does; not promised is the link for an id that the logs still mention under another subject, for one that compaction or a call behind a torn line removed while an older log still mentions it, and for a row of `docs` whose id an archived row has had since the last plain checkpoint, even where this log replays well, because a checkpoint can cut it in two.
- Runs.RunSafe: no import of a used id behind a torn or unterminated line; no call on an unterminated log whose last operation the snapshot already contains, or remembers a used id; and after calls behind a torn line no archiving checkpoint, and no crash of a plain one between its manifest switch and its new log, where the old log would undo such a call (`Checkpoints.CatchUp` says when).
- Runs.IdsNeverReissued: with the same limits; after the two setbacks it names the source does issue ids again.
- Consolidation.GroupCold: keywords, salience and summary texts are functions given from outside; the order in which a hash map is traversed is arbitrary.
- Document frequencies: counted again on every reopening, so they are not part of state equality, nor are the association graph, its candidate expansion and the sketch index a collection keeps.
- Files: writing, syncing and renaming are atomic steps of a directory value; JSON, operating-system errors in the middle of a checkpoint and the loss of unsynced bytes are not modelled, except for a last line that is torn, unterminated or broken inside a character. How a record is written as JSON is not modelled either: a record counts as ASCII if all its strings are.
- Threads: the mutex makes calls sequential.
- Binary heaps are sequences in order; `Candidates.Push` is the only operation whose cost would differ.
- SketchHnsws.SketchHnsw.Insert: the level is a parameter, as is the outcome of every other random draw in the project; that all nodes stay reachable is not claimed, pruning can orphan nodes.
- Hnsws.Hnsw.Insert: both variants record a node's own list before its neighbours' lists instead of interleaved with them.
- Vamanas.Vamana.InsertId: building in shuffled order and the number of refinement passes are left to the caller.
- Sketches.Similarity: the square root is given by its defining equation.
- The scalar quantizer, name checks, export, the server, the foreign-language interfaces and the GPU code add only easy members or foreign calls.
