# Verified model of memex's index store and its companions

memex keeps a searchable history of coding sessions in an index that readers, ingests, a background
compactor and an offline collector use at the same time, without a server between them. This project
models the parts of memex in which that, or some other intricate piece of bookkeeping, has to be right,
and proves what they promise.

- **The generation store** (`Store*.dfy`). Writers stage a private generation, rename it and flip
  `CURRENT`; readers resolve `CURRENT` and take a shared lock on the generation's `.lease`; publishers
  prune with exclusive locks and sweep the shared segment files; an offline collector rewrites and
  removes; a compactor merges without the ingest lease and publishes only if nothing moved. The model is
  a step relation with one file-system call or one commit per step, any number of processes, and a crash
  allowed between any two steps. Locks are derived from where each process stands, so a crash releases
  them. The safety proof is by rely and guarantee: `StoreInvariant` says what each process relies on and
  `StoreSafety` that every single step keeps it. `StoreProgress` and `StoreCollection` say what a process
  that is left alone achieves from any reachable state.
- **The daemon's runtime files** (`Daemon*.dfy`). A lock, a token inside the lock file and a state file
  that is replaced as a whole, against a reader that samples them one after the other and tests the lock
  by taking it for a moment.
- **The span profiler** (`Profiler.dfy`, `ProfileReport.dfy`, `StackKeys.dfy`). A stack sweep over sorted intervals that
  rejects crossing spans and computes exclusive times, and the report built on it.
- **Session pages, windows and folding** (`Paging.dfy`, `PagingLaws.dfy`, `Around.dfy`, `Folding.dfy`).
  Two-sided top-k queries against slices of one sorted session; the selection of segments to merge.
- **Session analytics** (`Analytics.dfy`, `AnalyticsLaws.dfy`, `DropTags.dfy`, `Ansi.dfy`,
  `PathFilter.dfy`). An incremental upsert against a batch roll-up, two text scanners, and LIKE escaping.
- **Result shaping and batched reads** (`PostProcessing.dfy`, `Hydrate.dfy`).
- `Sorting.dfy`, `Sums.dfy`, `Text.dfy`, `Integers.dfy` and `Wrappers.dfy` hold what several of these share:
  stable sorting, sums over sequences and maps, ASCII case, integer ranges, optional values and results.

## What came out

Two promises of the code or its comments do not hold as they stand. Each has a lemma with a concrete run
that shows it, and lemmas that say exactly when the promise is kept.

- *An open reader keeps its generation* (`src/index.rs:2107-2138`). `remove_dir_all` unlinks one entry at
  a time. A reader that opens a generation after its `.lease` has been unlinked goes on without a lock,
  and one that is granted the lock on a `.lease` that was unlinked meanwhile holds a lock nobody looks at.
  Such a handle can lose its generation (`StoreRace.ReaderLosesHalfRemovedGeneration`). A handle is
  protected from removal exactly when its lock was granted while `.lease` was still linked
  (`StoreTheorems.PrunableIffNotAnchored`, `StoreTheorems.AnchoredHandleServes`). If instead both reference
  files went first and the removal stopped there, the reader takes the directory for one that keeps its own
  segment files and gets a handle, properly locked, on whatever part of them is left
  (`StoreRace.ReaderOpensPartOfGeneration`). A protected handle finds all its segments exactly when it went by
  references, or found every file in the directory (`StoreTheorems.WholeIffReferencesOrFiles`); the other
  kind is only ever opened on a superseded generation (`StoreTheorems.PlainHandleIsSuperseded`). Where a
  directory disappears in one step, every handle is protected and went by references
  (`StoreTheorems.WholeRemovalProtectsEveryHandle`).
- *A snapshot is read only when a daemon holds the lock* (`src/daemon_runtime.rs:111-113`). After a crash
  the lock a reader finds taken may be a successor's that has not replaced the token yet, or another
  reader's probe, and the crashed daemon's information is returned
  (`DaemonRace.CrashedInstanceIsReported`). What makes the difference is one kind of step: an instance gives
  up the lock, by crashing or at the end of `Drop`, with its own state file still there. In a run without
  such a step every reported instance held the lock when its state was read
  (`DaemonTheorems.LiveUnlessStranded`); after every such step, in any run, a successor and a reader can
  come and the reader reports the instance that is gone (`DaemonRace.EveryStrandingCanBeReported`).

*A page is a slice of the ordered session* (`src/index.rs:1585-1586`) does hold, because no two records have the
same document id: ids are drawn from one counter (`src/sources/bob.rs:437`, `src/sources/antigravity.rs:319`)
that is kept in the checkpoint (`src/ingest/discovery.rs:1317`) and only ever raised in recovery
(`src/ingest/publication.rs:390`). Nothing weaker would do: all pages are slices exactly when no two different
records share turn, time and document id (`PagingLaws.PagesAreSlicesIffNoTies`), and if two did, a page from the
front and the next from the back would repeat one and miss the other (`PagingLaws.TiedPagesRepeat`). The keys of
a page are those of its slice in any case (`Paging.Page`).

A folded stack's key is its thread and path joined by semicolons (`scripts/profile_report.py:45`). Where a span's
name holds a semicolon, different paths can share a key and are counted together (`StackKeys.SemicolonsMix`);
exactly which do is `StackKeys.SameKey`.

A comment in `strip_ansi` says that every skipped escape sequence is ASCII (`src/analytics.rs:1792-1793`).
That is not so (titles in OSC sequences may hold any character), but the conclusion drawn from it, that
copying starts on a character boundary, is right and is proved.

## Model

Source paths are relative to the repository.

| member | source | states |
|---|---|---|
| `StoreSafety.NextKeepsInv` | src/index.rs:623-695 | every step of any reader, writer or collector, and every crash, keeps the store's invariant and changes nothing other processes rely on |
| `StoreSafety.ReaderStepOk` | src/index.rs:2107-2138 | the steps of opening a sealed generation keep the invariant: lease, references, segment files, metadata; without references the directory by itself; or a failed open of a generation that is being removed |
| `StoreSafety.StageStepOk` | src/index.rs:623-695 | staging under the store lock keeps the invariant, and so does an error in it, after which the staging directory is removed under the same lock |
| `StoreSafety.PublishStepOk` | src/index.rs:801-841 | adopting files, writing references, renaming, flipping `CURRENT`, or failing anywhere in between keeps the invariant |
| `StoreSafety.CleanStepOk` | src/index.rs:2296-2371 | pruning superseded generations entry by entry, reading the references directory by directory and sweeping the segment files none of them reaches keeps the invariant |
| `StoreSafety.DropStepOk` | src/index.rs:126-132 | dropping an unpublished generation, or one whose staging failed, removes only its own staging directory |
| `StoreSafety.GcStepOk` | src/index.rs:391-539 | the offline collector's locking, rewriting, flipping, removing and failing keep the invariant |
| `StoreSafety.LeaseStepOk` | src/lease.rs:31-69 | taking and releasing the ingest lease keeps the invariant |
| `StoreSafety.RunInv` | src/index.rs:541-555 | the invariant holds in every state of every run |
| `StoreProgress.WriterStages` | src/index.rs:623-695 | from every reachable state with the store lock free, a waiting writer gets by its own steps a whole work directory with the references, segments and records of what is current |
| `StoreProgress.WriterPublishes` | src/index.rs:801-841 | from every reachable state with the store lock free, a writer with a generation pending publishes it by its own steps, on the first attempt or a retry, wherever an earlier attempt failed: `CURRENT` moves to it, complete, with exactly its records, and its commits enter the log once |
| `StoreProgress.PublishedStays` | src/index.rs:801-841 | once a writer has published it never moves `CURRENT` or publishes again, whatever fails afterwards |
| `StoreProgress.WriterDrops` | src/index.rs:126-132 | from every reachable state a writer whose staging fails or that is dropped unpublished removes its work directory by its own steps and changes nothing else |
| `StoreCollection.PublisherCleans` | src/index.rs:2296-2371 | from every reachable state a publisher left alone removes exactly the superseded generations that nobody holds and the work directories whose lease nobody holds, and then exactly the segment files that no remaining generation refers to |
| `StoreCollection.CollectorLeavesOne` | src/index.rs:391-539 | from every reachable state in which nobody holds the store lock or a generation, the offline collector by its own steps leaves one complete generation, current, with the same records, and exactly the segment files those need |
| `StoreCollection.CollectorDropsTemp` | src/index.rs:484-513 | a collector that fails before it renames removes its temporary directory and releases every lock |
| `StoreCollection.RunOneName` | src/index.rs:623-695 | in every state of every run a generation name has at most one directory, published or not |
| `StoreTheorems.CurrentAlwaysSealed` | src/index.rs:2447-2455 | `CURRENT`, once set, stays set and always names a generation that is there with lease, references, metadata and every segment file it refers to, whatever crashed |
| `StoreTheorems.OldOrCompleteNew` | src/index.rs:801-841 | any step of any process leaves `CURRENT` as it was or moves it to that process's own, complete generation |
| `StoreTheorems.RetryFindsGeneration` | src/index.rs:809-832 | a writer that has not published finds its generation whole in one of two places, whoever pruned or collected meanwhile: in its staging directory, with lease, references, metadata and the file of every committed segment there or in the shared store, or sealed under its final name; so a retry never finds neither, and a compactor that merges without the ingest lease never loses a segment it reads |
| `StoreTheorems.AnchoredHandleServes` | src/index.rs:2107-2138 | in every run, as long as a handle with an anchored lease is open, its directory and metadata are there with the records it was opened on; with references, all of them and every segment file they lead to; without, the files it found in the directory |
| `StoreTheorems.WholeIffReferencesOrFiles` | src/index.rs:2107-2120 | an anchored handle finds the file of every segment it names if and only if it went by references or found all of them in the directory when it was opened |
| `StoreTheorems.PlainHandleIsSuperseded` | src/index.rs:2114-2119 | a handle opened without references is on a generation whose removal has begun and which is not current |
| `StoreTheorems.SweepKeepsWhatIsRead` | src/index/storage.rs:637-700 | in every state of every run, whatever was swept, every reference an anchored handle goes by, every reference an unpublished writer staged from and every reference on disk leads to a segment file that is there |
| `StoreTheorems.AnchoredHandleLasts` | src/index.rs:541-555 | over any stretch of any run in which it is neither dropped nor its process crashes, an anchored handle stays the same handle and keeps its generation and records |
| `StoreTheorems.ReaderRetries` | src/index.rs:541-555 | opening never ends in an error for lack of files: a generation it failed on is damaged and no longer current, so it resolves again |
| `StoreProgress.OpenedWasCurrent` | src/index.rs:541-555 | the generation a reader is opening or has opened is the one `CURRENT` named when that reader last resolved, at its start or after losing the race |
| `StoreProgress.ReaderOpensCurrent` | src/index.rs:541-555 | from every reachable state in which `CURRENT` is set and no collector has locked it, a reader that comes, or that has just failed, gets by its own steps an anchored handle on `CURRENT`, by its references, with the current records |
| `StoreProgress.HandleWasWhole` | src/index.rs:2107-2138 | anchored or not, a handle that goes by references was opened on references read in its generation, all found in the shared store afterwards, and on the metadata read after that |
| `StoreTheorems.PrunableIffNotAnchored` | src/index.rs:2279-2290 | a pruning writer may start on the directory under an open handle if and only if the handle is not anchored |
| `StoreTheorems.WholeRemovalProtectsEveryHandle` | src/index.rs:541-555 | in runs that remove directories in one step, every handle went by references and keeps its generation, all its segment files and its records until it is dropped |
| `StoreRace.UnanchoredHandleCanBeLost` | src/index.rs:2296-2371 | from any reachable state with a pruning writer, an open handle that is not anchored can lose its generation |
| `StoreRace.ReaderLosesHalfRemovedGeneration` | src/index.rs:2279-2290 | a concrete run from a sealed current generation to an open handle whose generation is gone |
| `StoreRace.ReaderOpensPartOfGeneration` | src/index.rs:2107-2120 | a concrete run from a sealed current generation to a properly locked handle on it that names a segment whose file it cannot find |
| `StoreLeased.LeasedStep` | src/lease.rs:31-69 | where an ingest holds the lease from staging through publication, and a compaction to stage and again from comparing versions through publication, every step keeps the relation between each writer's staged records, what was current when it staged, and what is current now |
| `StoreLeased.NoLostUpdates` | src/cli.rs:2481-2519 | in every run under that discipline the current records are the fold, in order, of all ingest commits published since the start |
| `StoreLeased.CompactionChangesNothing` | src/cli.rs:2481-2519 | a compaction that moves `CURRENT` moves it from the generation it staged from, with nothing published in between, and leaves records and log as they were |
| `StoreLeased.CompactionNoticesPublication` | src/cli.rs:2500-2507 | comparing versions tells exactly whether anything was published since staging: a version never comes back |
| `StoreProgress.CompactionPublishes` | src/cli.rs:2497-2509 | from every state of a leased run in which the locks are free and nothing was published since it staged, a compaction publishes by its own steps and the records and the log stay as they were |
| `DaemonSafety.NextKeepsInv` | src/daemon_runtime.rs:36-109 | every step of starting, publishing, dropping, crashing and reading keeps the invariant about lock, token, state file and what readers have seen |
| `DaemonTheorems.OneInstance` | src/daemon_runtime.rs:45-56 | never two live instances |
| `DaemonTheorems.SampleMoment` | src/daemon_runtime.rs:113-141 | whatever a reader holds was taken in one earlier state of the run, its read of the state file |
| `DaemonTheorems.ReadReturnsTheTokenHolder` | src/daemon_runtime.rs:113-152 | returned information was, at its state read, published by the instance whose token was the lock file's content and the latest begun; `ready` exactly if that instance had published since it called `mark_ready`; with the details it was built from; and it held the lock then exactly when it had not gone away leaving the state file |
| `DaemonTheorems.ReadReturnsALiveInstance` | src/daemon_runtime.rs:102-109 | in runs where instances end only through `Drop`, that instance held the lock when its state was read |
| `DaemonTheorems.LockHeldAround` | src/daemon_runtime.rs:113-152 | whatever is returned, the lock was held by some process at the reader's first probe, before the state was read, and again at its second, after |
| `DaemonRace.RunningInstanceIsReported` | src/daemon_runtime.rs:113-141 | from every reachable state with a running instance, a reader that comes and is left alone returns what that instance has published |
| `DaemonTheorems.StrandsIff` | src/daemon_runtime.rs:102-109 | token and state file come to speak of an instance without the lock by exactly one kind of step: that instance gives up the lock with its state file still there |
| `DaemonTheorems.LiveUnlessStranded` | src/daemon_runtime.rs:111-141 | in runs without such a step everything returned comes from an instance that held the lock when its state was read |
| `DaemonRace.StrandedStateIsReported` | src/daemon_runtime.rs:113-152 | from every reachable state in which token and state file speak of an instance without the lock, and for any two processes to come, the run extends to one in which a reader returns that information while somebody else holds the lock |
| `DaemonRace.LeavingStrands` | src/daemon_runtime.rs:102-109 | from every reachable state with a running instance, its crash, and a `Drop` that fails to remove the state file, both leave the files speaking of an instance without the lock |
| `DaemonRace.EveryStrandingCanBeReported` | src/daemon_runtime.rs:102-141 | every step in which an instance gives up the lock with its state file still there, in any run, can be followed by a reader that reports it while somebody else holds the lock |
| `DaemonRace.CrashedInstanceIsReported` | src/daemon_runtime.rs:113-152 | a concrete run in which a crashed daemon's information is returned while another process holds the lock, when it was read and at the end |
| `Profiler.SweepSorted` | scripts/profile_report.py:20-36 | the sweep of sorted spans succeeds exactly when every span that starts inside an earlier one ends inside it, and then records each span's true path and exclusive time |
| `Profiler.CloseEnded` | scripts/profile_report.py:26-27 | popping ended spans leaves exactly the spans still open, outermost first |
| `Profiler.OpenSpan` | scripts/profile_report.py:30-36 | charging the new span to the innermost open one keeps all recorded exclusive times true |
| `Profiler.SweepThread` | scripts/profile_report.py:20-29 | a thread is refused exactly when two of its spans cross; otherwise the frames are those the spans define |
| `Profiler.NestedIffNoCrossing` | scripts/profile_report.py:28-29 | in sorted order, nested-or-disjoint means that no two spans cross |
| `Profiler.InnermostOfParent` | scripts/profile_report.py:33-34 | a new span takes exactly its duration from the time in which its parent was innermost |
| `Profiler.SelfTimesSum` | scripts/profile_report.py:30-36 | exclusive times share out the covered time with nothing lost or counted twice |
| `Profiler.OutermostCover` | scripts/profile_report.py:26-29 | outermost spans cover everything the spans cover |
| `Profiler.SelfTimesAreOutermostTimes` | scripts/profile_report.py:30-45 | exclusive times of an accepted thread sum to the total duration of its outermost spans |
| `ProfileReport.Group` | scripts/profile_report.py:14-17 | complete events grouped by thread, in order of first appearance |
| `ProfileReport.ThreadAdded` | scripts/profile_report.py:37-43 | a thread adds to each of its phases the calls, inclusive and exclusive time its spans define, and to no other phase |
| `ProfileReport.StacksAdded` | scripts/profile_report.py:40-45 | folded counts grow by exactly the exclusive times, key by key and in total, and only by positive amounts |
| `StackKeys.KeySplits` | scripts/profile_report.py:45 | a key split at its semicolons is the thread and then the path, each name of which comes apart where it holds semicolons itself |
| `StackKeys.SameKey` | scripts/profile_report.py:45 | two keys are the same exactly for the same thread and paths that come apart into the same names |
| `StackKeys.KeysTellApart` | scripts/profile_report.py:45 | where no name holds a semicolon, two keys are the same exactly for the same thread and path |
| `StackKeys.SemicolonsMix` | scripts/profile_report.py:45 | with a semicolon in a name, two different paths may have the same key |
| `ProfileReport.AddThread` | scripts/profile_report.py:40-45 | frames are added unless one has negative exclusive time |
| `ProfileReport.Report` | scripts/profile_report.py:11-45 | refused for an unknown schema or for the first thread with crossing spans, never for negative exclusive time; otherwise phases are what the spans define, the count of a stack is the exclusive time of exactly the frames of its thread whose path reads like it (without semicolons in names: whose path it is), and the counts sum to the covered time of all threads |
| `Paging.Page` | src/index.rs:1597-1649 | from whichever end it is taken, a page has the keys of its slice of the sorted session, and without ties is that slice; it has `limit` records, at least one and no more than are left, and none past the end |
| `Paging.FarSlice` | src/index.rs:1625-1647 | a slice counted from the far end of the descending order, sorted again, is the slice of the ascending order |
| `PagingLaws.PagesCoverSession` | src/index.rs:1597-1649 | consecutive pages concatenate to the sorted session, without gap or repeat |
| `PagingLaws.PagesAreSlicesIffNoTies` | src/index.rs:1612-1647 | every page for every offset and limit is its slice if and only if records with equal turn, time and document id are equal |
| `PagingLaws.TiedPagesRepeat` | src/index.rs:1926-1927 | with two tied records, the pages of size one both return the first |
| `Around.FindAnchor` | src/index.rs:1838-1890 | the first record of the scope, in order, that carries the id, if any does |
| `Around.Queries` | src/index.rs:1408-1557 | the predecessor and successor queries divide the session into what precedes the anchor and the rest |
| `Around.Sizes` | src/index.rs:1476-1481 | the window arithmetic never underflows, fills the window, holds the anchor and centres it as far as the ends allow |
| `Around.AroundIsSlice` | src/index.rs:1483-1581 | the nearest predecessors and successors sorted together are one slice of the sorted session |
| `Around.ReadAround` | src/index.rs:1386-1583 | nothing exactly when no record has the id; otherwise the slice of the given size at the returned offset, with the first record of that id inside and centred |
| `Folding.Ceiling` | src/index.rs:596-600 | the size below which a segment is small: below a twentieth of a non-empty corpus, and empty segments of an empty one |
| `Folding.SmallSegments` | src/index.rs:589-603 | the segments divide into the biggest, the large and the small ones |
| `Folding.Compact` | src/index.rs:611-621 | at least two small segments become one, which may vanish if empty: a fold keeps every live document and every one of the biggest segments and of those with at least a twentieth of the corpus, and lowers the number of segments whenever it does anything |
| `Folding.SettledIsSmall` | src/index.rs:589-621 | with nothing left to fold there are at most one more than the greater of twenty and the kept ones |
| `Folding.FoldUntilSettled` | src/index.rs:609-621 | repeated folding stops, keeps all documents, and with three kept leaves at most 21 segments |
| `Analytics.Writer.Record` | src/analytics.rs:1019-1070 | the accumulator of the record's session after one more record; no other session changes |
| `Analytics.Writer.Commit` | src/analytics.rs:1195-1262 | one transaction: scopes and paths are deleted, then each pending session is inserted or merged; if the store refuses it, nothing changes |
| `Analytics.DeleteScopes` | src/analytics.rs:1168-1181 | exactly the rows of the given session scopes go |
| `Analytics.DeletePaths` | src/analytics.rs:1157-1166 | exactly the rows of the given paths go |
| `Analytics.MergeRows` | src/analytics.rs:1208-1257 | each session is inserted or merged into its row, in whatever order they come |
| `AnalyticsLaws.SessionsAreBatches` | src/analytics.rs:1019-1070 | interleaved recording gives each session what its own records give |
| `AnalyticsLaws.BatchSpans` | src/analytics.rs:1038-1047 | start and end are the least and greatest times, the count is the number of records, saturating |
| `AnalyticsLaws.BatchFirst` | src/analytics.rs:1048-1058 | the first user text is that of a least user record whose text yields a label, if there is one |
| `AnalyticsLaws.BatchKind` | src/analytics.rs:1059-1068 | the kind is "main" exactly when some record says so and absent exactly when none says anything |
| `AnalyticsLaws.BatchPermutes` | src/analytics.rs:1019-1070 | bounds, count, first user text and being "main" do not depend on the order of records with distinct keys |
| `AnalyticsLaws.IncrementalIsBatch` | src/analytics.rs:1209-1232 | however records are split into flushes, stored bounds and count are those of one batch, within the signed 64-bit range |
| `AnalyticsLaws.LabelAndKindStay` | src/analytics.rs:1226-1231 | over any transactions, a stored label or kind stays until its row is deleted |
| `AnalyticsLaws.FirstLabelAndKindStick` | src/analytics.rs:1208-1232 | over any transactions that do not delete it again, a row exists if it was there or one brought it; its label is the first present one of those it started with and those brought, in order, and absent exactly if none was; likewise its kind |
| `AnalyticsLaws.FlushedLabelIsFirst` | src/analytics.rs:1208-1232 | flush by flush, the stored label and kind are the first that the session's records of one flush gave |
| `AnalyticsLaws.ProjectIsLast` | src/analytics.rs:1217-1232 | the stored project is that of the last transaction with records of the session |
| `AnalyticsLaws.ReplayIsRebuild` | src/analytics.rs:2182-2193 | deleting a path and replaying its records gives that path exactly the rows of a rebuild, and leaves other paths alone |
| `AnalyticsLaws.Rebuild` | src/analytics.rs:2182-2193 | a rebuild stores what one flush of all records into an empty table stores |
| `AnalyticsLaws.Flush` | src/analytics.rs:1072-1074 | one incremental flush, after the given deletions |
| `DropTags.StripDropTags` | src/analytics.rs:1708-1732 | no `<` of the result is directly followed by a listed tag, ASCII case aside, and a text without such an opener comes back as it is |
| `DropTags.NoOpenerLeft` | src/analytics.rs:1708-1732 | the same for any list of tags without `<` and space, also where removing a block brings text together |
| `DropTags.BlockRemoved` | src/analytics.rs:1708-1732 | at the first bracket, if a listed tag follows: the text before is kept, the block from there through the first closing tag behind its `>`, in any case of letters, becomes one space, and what follows is cleaned |
| `DropTags.BlockCut` | src/analytics.rs:1720-1722 | an opening tag without `>` ends the text before its bracket |
| `DropTags.UnclosedBlockCut` | src/analytics.rs:1723-1727 | and so does a block without its closing tag |
| `DropTags.BracketKept` | src/analytics.rs:1715-1719 | a bracket that opens no listed tag is kept, and what follows it is cleaned |
| `DropTags.CleanUnchanged` | src/analytics.rs:1711-1731 | a text without openers is unchanged |
| `DropTags.StripTwice` | src/analytics.rs:1708-1732 | cleaning a cleaned text changes nothing |
| `DropTags.FindCiIsFirst` | src/analytics.rs:1734-1741 | the search finds the first place where the needle occurs, ASCII case aside |
| `Ansi.StripAnsi` | src/analytics.rs:1751-1801 | on the bytes of any UTF-8 text the scanner copies only whole characters from character boundaries, and its output is the encoding of the text stripped character by character |
| `Ansi.EscapeOnBytes` | src/analytics.rs:1759-1788 | an escape sequence ends at the same place in the bytes as in the characters, also with multi-byte characters inside |
| `Ansi.NoEscapeLeft` | src/analytics.rs:1758-1800 | no escape character is left |
| `Ansi.ControlSequenceGoes` | src/analytics.rs:1759-1770 | an escape, a left bracket and everything through the first ASCII letter go; text before is kept, text behind is stripped |
| `Ansi.OpenControlSequenceCuts` | src/analytics.rs:1759-1770 | without a letter it takes the rest of the text |
| `Ansi.CommandGoes` | src/analytics.rs:1771-1786 | an escape, a right bracket and everything through the first bell or string terminator go, in the same way |
| `Ansi.OpenCommandCuts` | src/analytics.rs:1771-1786 | without an end it takes the rest of the text |
| `Ansi.LoneEscapeGoes` | src/analytics.rs:1787-1788 | any other escape character goes alone |
| `Ansi.PlainUnchanged` | src/analytics.rs:1752-1754 | a text without escape characters is unchanged |
| `Ansi.SkipCsi` | src/analytics.rs:1761-1770 | the loop stops right behind the first letter, or at the end |
| `Ansi.SkipOsc` | src/analytics.rs:1772-1786 | the loop stops right behind the bell or the string terminator, or at the end |
| `PathFilter.EscapeIsEach` | src/analytics.rs:2261-2264 | the three replacements escape every character exactly once |
| `PathFilter.PatternIsExact` | src/analytics.rs:2258-2267 | under LIKE with a backslash for ESCAPE the pattern matches exactly what begins with the directory and a slash, ASCII case aside |
| `PathFilter.SelectedMeans` | src/analytics.rs:2257-2269 | a session is selected exactly when it runs in the directory, below it, or in its repository |
| `PostProcessing.GroupKinds` | src/cli.rs:7576-7592 | what the hits say about each group |
| `PostProcessing.GroupKindMeans` | src/cli.rs:7583-7591 | "main" if any hit of the group says so, else what its first hit says |
| `PostProcessing.KindOfSession` | src/cli.rs:7593-7602 | the stored kind of a session if there is one, else "main" if any hit says so, else what the first hit says |
| `PostProcessing.FiltersDivide` | src/analytics.rs:62-73 | the threshold keeps exactly the hits that reach it; of these the filter for all keeps all, the regular one those outside permission reviews, which the primary one (main or of no known kind) and the subagent one divide between them |
| `PostProcessing.GroupsStayTogether` | src/cli.rs:7593-7604 | the kind filter keeps or removes the hits of a group together |
| `PostProcessing.Cap` | src/cli.rs:7621-7637 | the counters keep exactly the hits with fewer than `k` better ones in their group |
| `PostProcessing.CapCounts` | src/cli.rs:7621-7637 | each group keeps `k` hits, or all it has |
| `PostProcessing.DroppedAfterK` | src/cli.rs:7631-7635 | a hit is dropped only where `k` better ones of its group were kept |
| `PostProcessing.PostProcess` | src/cli.rs:7560-7641 | the result is the first `limit` of what the cap leaves of the stable sort of the survivors, best or newest first, with at most `k` hits per group and none below the score |
| `Hydrate.ValidateAll` | src/mcp.rs:413-429 | accepted exactly if every request names a session, asks for 1 to 500 records and has an offset that fits a signed 64-bit integer; otherwise the first fault of the first invalid request |
| `Hydrate.PushPage` | src/mcp.rs:517-533 | a page is charged exactly, or refused where it does not fit |
| `Hydrate.RunEnd` | src/mcp.rs:468-473 | the longest run of requests to one machine |
| `Hydrate.ReadSingly` | src/mcp.rs:488-509 | after a failed batch each request is read again or failed, once, in order, with the message of the last read that included it |
| `Hydrate.ReadRun` | src/mcp.rs:474-511 | one batched read of the whole run, followed by one single read of each request in order exactly when it failed on the local machine or at a reachable peer, and by nothing otherwise |
| `Hydrate.HydratePages` | src/mcp.rs:451-515 | the answer holds the pages of the successful reads, budget left plus characters sent is the budget granted, requests are read in maximal runs of one machine, and the reads made are those of the runs one after the other; each request is served or fails exactly once, in order; a refused call names what is wrong with the first invalid request; the budget is exceeded only by a reader that returns more than it was allowed |

## Left out

- Store: Unix file locks, fresh generation names, one `.lease` inode per name and immutable segment files are assumptions; checksums and file synchronisation variants are not modelled, so durability across power loss is not.
- Store: generations without a lease file from before leases, generations that never had references, flat indexes, schema resets, the rebuild that deletes the index directory and non-Unix lock stubs are not part of this model.
- Store: that a process is left alone is what the theorems on progress assume; fairness among processes, waiting times and time limits are not modelled, and the collector's dry run is not.
- Store: the compaction lock is not modelled; the theorems hold for any number of compactors at once.
- DaemonSafety.NextKeepsInv: token and state are read whole; reading a token while it is being replaced is modelled through partial tokens, not through one read that mixes two. Random identities are assumed distinct and of equal length.
- ProfileReport.Report: counters, dropped spans and the printed form of the summary are not modelled; durations are not negative; calls and inclusive times are added in a loop of their own, which nothing can observe.
- Paging.Page: the index's collectors are modelled by what they return, hits ordered by score with ties by document address, and `Count` by the number of matches.
- Folding.Compact: the share of 0.05 is taken exactly, as one twentieth rounded up, not in floating point.
- Analytics.Writer.Commit: SQLite integers are unbounded here; beyond the signed 64-bit range SQLite would go over to floating point, and `AnalyticsLaws.IncrementalIsBatch` says nothing there.
- Analytics: the project column depends on the order of flushes and is only carried along; titles, working directories, repositories and the final label and kind are fixed functions of the session and its first text; whether a text yields a label is a parameter.
- DropTags.StripDropTags: works on characters, as the listed tags are ASCII; byte offsets are not modelled.
- PostProcessing.PostProcess: scores are totally ordered numbers, without NaN; the lookup of stored kinds is a parameter.
- Hydrate.HydratePages: loading the configuration and serialising pages cannot fail here; whether a session id is blank is a parameter.
- Search itself, embeddings, rank fusion, HTTP and OAuth, the watcher and the command line are not part of this model.
