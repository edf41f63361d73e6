# CivicJournal-Time: verified model

This project models the core of CivicJournal-Time in Dafny and proves what the journal
promises about whole runs.  A journal receives leaves.  Level-0 pages hold leaves; a
finalized page is rolled up into a page of the next level, which records the child's hash,
its net patches, or both, and may itself be finalized and rolled up.  Queries, Merkle
inclusion proofs, the chain checker, snapshots and retention all work on the stored pages.
The turnstile is a separate ticket protocol in front of the journal.

The state machine is written twice.  Module `Towers` is the specification on values: a tower
has one tier per level, with the stored pages in id order, the active page, and the last
finalized id and hash.  Class `TimeManager.TimeHierarchyManager` is the program: maps of
active pages and last finalized ids and hashes over a page store and an id counter, updated
step by step.  Every method of the class is proved to act on the represented tower as the
specification says, so every theorem about `Towers.Run` is a theorem about the program.

| file | content |
|---|---|
| Prelude, Hashing, Config, Ordering, Patches, PatchHash | shared vocabulary, JSON and hashes, level settings and windows, net patches and their digests |
| Merkle | the tree, its proofs and its verifier |
| Page, Tower | pages, and the rollup state machine on values |
| Safety, Conservation | what every run keeps, whatever the timestamps |
| Rules | rules about single levels that every run keeps, whatever the timestamps |
| LeafStep, ParentStep | one `add_leaf` at level 0 and one rollup into a level, from before to after |
| Timeline | what monotone runs keep on top of that |
| Links, Relations, Cascade, Radix, Exactness | what parent levels record about the level below, and how much |
| Storage, TimeManager | the page store and the manager, proved against Tower |
| QuerySpec, Paths, LateLeaves | what the queries answer: in monotone runs, path by path, and in runs out of time order |
| Integrity, Audit | which runs the chain checker accepts, and what it detects on any pages |
| Inclusion, QueryEngine | inclusion proofs, and the query engine proved against all of that |
| Retention, RetentionPass, LifeQueries | retention, runs that mix leaves with retention passes, and queries after them |
| Journal | `append_leaf`, its hash chain, and the page id it reports |
| Snapshot, SnapshotLoss | snapshot replay, and when it loses fields |
| SnapshotManager, SnapshotTargets, SnapshotRoot, SnapshotChain | `create_snapshot`, the containers it covers, what its root and its page hash say |
| Witnesses | reachable states behind the findings |
| Turnstile, TurnstileSteps, TurnstileRuns | the ticket protocol |

Three conditions appear in the statements below.  A run is *monotone* when leaf timestamps
never decrease and lie in [0, i64::MAX] nanoseconds.  A level *never reopens* when its
`max_page_age_seconds` is at least its `duration_seconds`, or its pages hold one item.  A level
*carries hashes* (or *patches*) when its content kind records child hashes (or net patches).

## Findings

Fourteen things the code or its documentation suggests are not true of the code.  Each has its
exact condition, and a run or an input that fails it.

- `add_leaf` documents that it returns the id of the page the leaf was added to.  It returns
  the id of the page that was open when the call began; the two agree exactly when that page
  was not finalized early (`Journals.ReturnedIdIsRightIff`; `Witnesses.WrongIdIsReturned` is a
  run where they differ).  `append_leaf` passes the leaf's own timestamp as the operation
  time, which never finalizes early.
- With the default page age of 0 a parent page is over age at every rollup, although age 0
  means "no age limit" at level 0.  Such a page is stored, reloaded and extended, and each time
  its old hash stays in its parent.  When all parents carry hashes, a level is recorded exactly
  in all monotone runs if and only if it is level 0 or never reopens
  (`Exactness.RecordsExactlyIff`, with the breaking run built for every other configuration).
- The chain checker checks a page twice, and flags it, when it was stored, reopened and is
  still active.  In every run, at every level and for every id range, that is the only thing it
  flags (`Integrity.CheckerAcceptsIff`).  A late leaf leads there
  (`Witnesses.ReopenedPageIsFlagged`); monotone runs never do.
- The checker is documented to verify the hash chain.  It accepts any pages exactly when each
  stored one in the range carries the root of its content's hashes and the hash of its own fields,
  and names the page before it (`Audits.AcceptedIff`).  So an altered page passes exactly when
  that root and all hashed fields are what they were (`Audits.AlteredRunIff`): a leaf that keeps
  its recorded hash may say anything, and so may patches kept beside child hashes
  (`Audits.AlteredLeavesIff`, `Audits.AlteredChildrenIff`).
- Inside a page the queries stop at the first leaf past the time asked for.  In runs that are not in
  time order they read everything they should exactly when no wanted leaf sits behind a later one
  on its page (`LateLeaves.ReconstructReadsAllIff`, `LateLeaves.ReportCompleteIff`;
  `Witnesses.LateLeafIsMissed` is a run where the reconstruction finds nothing).
- The digests of a page of net patches are taken over object id and field name run together.
  Different patches share them exactly when their sorted lists agree in every joined name and
  every value (`PatchLists.SameHashesIff`; `PatchLists.NamesRunTogether` has two such patches).
- A snapshot starts from the latest page of a level that keeps net patches alone, but such a
  page knows only its own window, and a leaf at the very end of that window is skipped.
  Snapshots are exact in all monotone runs if and only if every such level has a level of hashes
  alone between it and level 0 (`SnapshotLoss.SnapshotsExactIff`, with the losing run built for
  every other configuration).
- The root over a snapshot's container states is not a function of those states, for two reasons:
  the containers come out of a hash set and the fields of a state out of a hash map, both in no
  fixed order.  The states fix their root if and only if there is no state, or only one, with at
  most one field (`SnapshotRoots.StatesFixRootIff`; `SnapshotRoots.JournalFixesRootIff` says the
  same of a journal and what its snapshots cover).  The other way holds always: equal roots mean
  equal states, whatever their number (`SnapshotRoots.SnapshotRootBinds`).
- A snapshot page's hash is said to cover its entire content and to link the snapshot to the
  journal.  It covers the page's id, level, window, predecessor and states, and nothing else
  (`SnapshotChains.PageHashIff`): the time the snapshot is taken as of and the hash of the
  preceding journal page play no part, and on an idle journal snapshots as of different times get
  the same hash (`SnapshotChains.IdleSnapshotsHashAlike`).
- The documentation calls the preceding journal page the most recent level-0 page.  The code takes
  the page that ended last among those of all levels, the highest level first.  The two agree
  exactly when every higher page that ended by then ended before some level-0 page that did
  (`SnapshotChains.PrecedingIsLeafPageIff`; `Witnesses.ParentPagePrecedes` is a run where they
  differ).
- Each snapshot is said to name the preceding one.  It names the one with the latest creation time,
  so the pages form one chain, and the newest hash determines all of them, if and only if the
  clock never ran backwards before the newest (`SnapshotChains.LinkedIff`,
  `SnapshotChains.HeadCoversAllIff`; `SnapshotChains.ClockBackSkipsSnapshot` is a broken chain).
- The documented contract of `sort_unstable_by_key` lets `KeepNPages` drop the newer of two
  pages that end together, exactly when such a pair lies at the cut
  (`Retention.KeepNIsSuffixIff`); level 0 reaches such states for every n
  (`Witnesses.KeepNMayLeaveGap`).  Nothing here says that the sort in use does reorder ties.
- `verify_merkle_proof` does not look at the length of a proof.  For trees none of whose leaves is
  itself the digest of a pair, verifying proofs of one length prove only leaves exactly when that
  length reaches the depth of the tree (`Merkle.SoundLengths`), and lists of different lengths
  share a root exactly when their trees are equally deep and agree at every position
  (`Merkle.RootsEqualIff`).  Leaf hashes and container states are such leaves; the only leaf of a
  snapshot page, the root over two or more container states, is not.
- A caller of the turnstile can append a log record before it is logged, after which a hash is
  both pending and committed (`TurnstileRuns.ForgedLogRecordCollides`); for every operation
  `TurnstileRuns.NextDisjointIff` says exactly when that happens.

## Model

| member | source | states |
|---|---|---|
| Config.WindowContains | src/core/time_manager.rs:167-193 | a window contains its timestamp iff the timestamp is not negative or is a multiple of the window length, because division truncates toward zero |
| Config.WindowIsMultiple | src/core/time_manager.rs:167-193 | a window starts at the multiple of its length next to the timestamp on the side of the epoch, and at the epoch for timestamps outside i64 nanoseconds |
| Config.WindowMonotone | src/core/time_manager.rs:167-193 | later timestamps get the same or a later window, and a timestamp before a window's end gets that window |
| Merkle.NewTree | src/core/merkle.rs:42-75 | fails exactly on an empty list; otherwise builds every level of the tree over the leaves, with the defined root on top |
| Merkle.PairUp | src/core/merkle.rs:53-68 | one level is paired left to right, the last node of an odd level with itself |
| Merkle.MerkleTree.GetProof | src/core/merkle.rs:98-136 | in-range indexes get the sibling path of that leaf, out-of-range ones nothing |
| Merkle.VerifyMerkleProof | src/core/merkle.rs:150-170 | accepts exactly when combining the hash along the proof gives the expected root |
| Merkle.TopIsRoot | src/core/merkle.rs:81-88 | the single node of the last level is the root of the leaves |
| Merkle.Completeness | src/core/merkle.rs:98-170 | for every leaf the generated proof verifies against the root, is as long as the tree is deep, and spells out the leaf's position |
| Merkle.DepthIsLogarithm | src/core/merkle.rs:98-136 | a proof of length d covers n leaves with n <= 2^d and, for n > 1, 2^(d-1) < n |
| Merkle.Soundness | src/core/merkle.rs:150-170 | any proof as long as the tree is deep that verifies against the root proves a leaf, at the position its directions encode |
| Merkle.SoundLengths | src/core/merkle.rs:150-170 | for leaves that are not themselves pair digests, verifying proofs of length d prove only leaves iff d is at least the depth of the tree |
| Merkle.RootBinds | src/core/merkle.rs:42-75 | leaf lists of the same length have equal roots iff they are equal |
| Merkle.RootsEqualIff | src/core/merkle.rs:42-75 | lists of any lengths whose leaves are not pair digests share a root iff their trees are equally deep and hold the same leaf at every clamped position |
| Merkle.DistinctRootsEqualIff | src/core/merkle.rs:42-75 | lists of any lengths without repeats, whose leaves are not pair digests, share a root iff they are equal |
| Merkle.RepeatedLastLeafKeepsRoot | src/core/merkle.rs:58-64 | in particular repeating the last leaf of an odd list keeps the root |
| Patches.MergeInto | src/core/page.rs:323-365 | the nested insertion loops lay the incoming patches over the existing ones, field by field |
| Patches.MergeAssociative | src/core/page.rs:323-365 | overlaying net patches is associative, so patches may be merged page by page or level by level |
| Patches.MergeAbsorbs | src/core/page.rs:323-365 | a patch that mentions everything an earlier one mentions hides it, which is why reopening a page does no harm to patches |
| Patches.HashPatches | src/core/page.rs:374-409 | patch pages hash their object ids and field names in sorted order |
| PatchLists.PatchHashesSpell | src/core/page.rs:374-409 | the digests spell out the patch: one per object and field it mentions and no other, by object and then by field, over joined name and value |
| PatchLists.SameHashesIff | src/core/page.rs:374-409 | two patches give the same digests iff their sorted lists agree in every joined name and every value |
| PatchLists.NamesRunTogether | src/core/page.rs:396-401 | two different patches with the same digests |
| Ordering.SortKeys | src/core/page.rs:380-386 | the keys in strictly ascending order |
| Pages.Page.Recalculate | src/core/page.rs:369-455 | root and page hash are recomputed from content, window, predecessor and child times |
| Pages.NewPage | src/core/page.rs:184-252 | a new page is empty, of the configured kind, and carries the hash of its own fields |
| Pages.PatchFromLeaves | src/core/time_manager.rs:735-767 | the net patch of leaves is the last-write-wins overlay of their top-level object fields |
| Pages.AbsorbContent | src/core/time_manager.rs:724-826 | rolling a child up appends its hash if the level carries hashes and overlays its net patch if it carries patches, and nothing else |
| Pages.PageIdGenerator.Next | src/core/page.rs:59-62 | hands out the counter and advances it |
| Pages.PageIdGenerator.Revert | src/core/page.rs:67-72 | takes back only the id issued last |
| Safety.RollupSound | src/core/time_manager.rs:625-948 | any rollup, at any trigger time, keeps ids unshared and below the counter, stored pages hashed and within bounds, and only extends the store |
| Safety.DiscardSound | src/core/time_manager.rs:847-856 | discarding an empty page and reverting its id never frees an id that some page still uses |
| Conservation.AddLeafOk | src/core/time_manager.rs:399-482 | one `add_leaf`, at any times, appends its leaf to the level-0 log and keeps the invariant of every run |
| Conservation.RunConserves | src/core/time_manager.rs:223-482 | in every run the leaves of level 0, stored pages in id order and then the active one, are exactly the leaves added, in order; pages hold 1..max_items leaves of their window and are chained by hash |
| Conservation.RunGrows | src/core/time_manager.rs:321-378 | between any two points of a run stored pages keep id, window, predecessor, hash list prefix and patch keys; level-0 pages and all but the last page of a level never change |
| Rules.RunObeys | src/core/time_manager.rs:625-948 | every rule of this module about single levels holds in every run whose leaves keep to it: hash chaining and the absence of patches above a level of hashes alone whatever the timestamps, rules about windows (`Hushed`, `Dated`) for in-range ones |
| LeafSteps.AddLeafOutcome | src/core/time_manager.rs:384-482 | one `add_leaf`, over leaves and times alone: the leaf joins the active page iff it lies in its window, there is room, and the page is not finalized early; otherwise it opens a new page behind it; the page is stored iff it has max_items leaves, or the leaf is at or past its end, or the age limit is on and some leaf on it has reached it |
| LeafSteps.RunAddsLeaf | src/core/time_manager.rs:384-482 | so it is at every step of every run |
| LeafSteps.DueIff | src/core/page.rs:488-515 | a page of leaves is due by count or by the age of its earliest leaf, wherever its window starts |
| LeafSteps.RunStamps | src/core/page.rs:265-321 | in every run a page of leaves carries the times of its earliest and latest leaf and of the leaf added last, and a page with child hashes the end of its first child and the latest end among its children |
| ParentSteps.RollupOutcome | src/core/time_manager.rs:625-948 | any rollup does to the level above exactly this: a page whose end is reached is stored or dropped; the child goes to the active page, the page finalized last, or a new one that names the page finalized last even if it was deleted since; hash, patch and child times are recorded; the page is stored, dropped or kept |
| ParentSteps.DroppedGivesIdBack | src/core/time_manager.rs:847-856 | a parent page that is dropped gives its id back iff it was issued last, so a page opened for nothing leaves the counter where it was |
| Timeline.RunTimely | src/core/time_manager.rs:321-378 | in monotone runs every level stays hash-chained, windows ascend, and an active page lies behind everything stored |
| Timeline.RollupTimely | src/core/time_manager.rs:625-948 | one rollup, with both its recursive calls, keeps that order at every level above |
| Relations.RunHolds | src/core/time_manager.rs:625-948 | the relations of this module between a level and its parent that hold of an empty journal (all but `Flushed`) hold after every step of every monotone run they apply to |
| Relations.RunHoldsFrom | src/core/time_manager.rs:625-948 | any of the relations, `Flushed` included, holds from the point of a monotone run at which it is reached |
| Exactness.RunRecordsExactly | src/core/time_manager.rs:625-948 | in monotone runs a hash-carrying level lists the page hashes of the level below exactly once and in id order, if that level is level 0 or never reopens |
| Exactness.RecordsExactlyIff | src/core/time_manager.rs:351-378 | with hash-carrying parents that condition is exact: otherwise some monotone run breaks the list |
| Exactness.RunTelescopes | src/core/time_manager.rs:724-826 | in monotone runs, reopened pages included, a patch-carrying level overlays to the same map as the stored pages below it; at the bottom that is the last-write-wins fold of the finalized leaves |
| Radix.RunCounts | src/core/time_manager.rs:446-482 | after n leaves in one window, level k has stored n / (m0 ... mk) pages and its active page holds digit k of n in mixed radix, absent iff that is 0 |
| Cascade.RollupCallsLinear | src/core/time_manager.rs:625-948 | despite two recursive calls one rollup makes at most one call per level from its own up, if all levels above carry hashes and never reopen |
| Cascade.RollupReach | src/core/time_manager.rs:659-932 | under the same conditions one rollup stores at most one more page per level |
| Storage.MemoryStorage.StorePage | src/storage/memory.rs:85-106 | the map gets exactly this page under its level and id |
| Storage.MemoryStorage.LoadPage | src/storage/memory.rs:108-110 | the page under the key, if any |
| Storage.MemoryStorage.DeletePage | src/storage/memory.rs:116-119 | exactly that key disappears |
| Storage.MemoryStorage.LoadPageByHash | src/storage/memory.rs:155-162 | finds a page with the hash iff there is one |
| Storage.MemoryStorage.LoadLeafByHash | src/storage/memory.rs:164-180 | finds a level-0 leaf with the hash iff there is one |
| Storage.MemoryStorage.ListFinalizedPagesSummary | src/storage/memory.rs:121-136 | exactly the level's pages, in strictly ascending id order |
| Storage.HashesDetermine | src/storage/memory.rs:155-162 | in a sound store a page hash belongs to one page, so scan order does not matter |
| TimeManager.TimeHierarchyManager.constructor | src/core/time_manager.rs:102-112 | a new manager represents the empty tower |
| TimeManager.TimeHierarchyManager.GetPageWindow | src/core/time_manager.rs:167-193 | the window of a configured level; an error for any other |
| TimeManager.TimeHierarchyManager.GetOrCreateActiveParentPage | src/core/time_manager.rs:321-378 | reuses the active page, reloads the last stored one, or makes a linked new one, as the tower specification does |
| TimeManager.TimeHierarchyManager.AbsorbChild | src/core/time_manager.rs:724-827 | the parent page after absorbing the child and rehashing |
| TimeManager.TimeHierarchyManager.RetireStaleParent | src/core/time_manager.rs:659-703 | a parent page whose window has passed is discarded if empty, else stored and rolled up |
| TimeManager.TimeHierarchyManager.SettleParent | src/core/time_manager.rs:838-942 | the parent page is discarded, kept active, or stored and rolled up |
| TimeManager.TimeHierarchyManager.PerformRollup | src/core/time_manager.rs:625-948 | fails exactly when no stored page has the hash; otherwise the tower becomes the rollup of that page |
| TimeManager.TimeHierarchyManager.FinalizeAndRollupPage | src/core/time_manager.rs:952-995 | an empty page is discarded and its id reverted, any other stored and rolled up |
| TimeManager.TimeHierarchyManager.GetOrCreateActivePageForLeaf | src/core/time_manager.rs:223-318 | the page for a leaf and the tower it leaves behind, as specified |
| TimeManager.TimeHierarchyManager.AddLeaf | src/core/time_manager.rs:399-482 | the whole of `add_leaf`: the represented tower makes exactly one specified step, and the id of the page first opened is returned |
| QueryEngine.ApplyDeltaTo | src/query/engine.rs:233-245 | the loop and its recursion compute the deep merge |
| Paths.MergeIff | src/query/engine.rs:233-245 | the deep merge is the one value that, at every path of keys, holds the delta's value if that is no object, nothing if the delta cuts the path off, an object where the delta has one, and otherwise what the state held |
| Paths.FoldAt | src/query/engine.rs:233-245 | after folding any leaves, a path holds what the last leaf that sets it or cuts it off says |
| Paths.ReconstructAt | src/query/engine.rs:251-289 | so it is, path by path, of every reconstruction in monotone runs |
| QueryEngine.QueryEngine.ReconstructContainerState | src/query/engine.rs:251-289 | the loops with their early exits compute the specified reconstruction over the stored pages; the active page, asked for in storage, is never found |
| QuerySpec.ReconstructIsFold | src/query/engine.rs:251-289 | in monotone runs reconstruction is the arrival-order deep merge of the container's finalized leaves up to the time, and fails iff there are none |
| QuerySpec.ReconstructionsAgree | src/core/time_manager.rs:735-767 | for payloads without nested objects and a patch-carrying level 1, reconstruction past all leaves equals the level-1 net-patch overlay |
| QueryEngine.QueryEngine.GetDeltaReport | src/query/engine.rs:292-340 | the loops compute the specified report over stored and active pages |
| QuerySpec.DeltaReportIsExact | src/query/engine.rs:292-340 | in monotone runs a report is exactly the container's leaves in the closed range, in arrival order, so pruning by page window and breaking early lose nothing |
| QuerySpec.DeltaReportGives | src/query/engine.rs:292-340 | in monotone runs a report gives a leaf iff it was added to the container at a time in the closed range |
| QueryEngine.QueryEngine.GetDeltaReportPaginated | src/query/engine.rs:346-436 | the skip-collect-stop loops compute the specified page of results, including limit 0 and an inverted range |
| QuerySpec.DeltaReportPageIsSlice | src/query/engine.rs:346-436 | in monotone runs a page of results is the [offset, offset+limit) slice of the full report and fails only when the report does |
| QuerySpec.BatchesTile | src/query/engine.rs:346-436 | in monotone runs the answers at offsets 0, limit, 2 * limit, ... concatenate to the start of the full report, and the next answer is empty iff all of it was read |
| LifeQueries.ReconstructIsFoldInLife | src/query/engine.rs:251-289 | after any mix of ordered leaves and clean retention passes a reconstruction is the arrival-order fold of the container's finalized leaves that are left |
| LifeQueries.DeltaReportIsExactInLife | src/query/engine.rs:292-340 | after such a mix a report is exactly what level 0 still holds of the container in the range, which is the newest part of what was added |
| LifeQueries.BatchesTileInLife | src/query/engine.rs:346-436 | after such a mix reading page by page still gives the whole report |
| LateLeaves.ReconstructReadsAllIff | src/query/engine.rs:251-289 | in every run, in time order or not, a reconstruction reads all of the container's finalized leaves up to the time iff none sits behind a later leaf on its page |
| LateLeaves.ReportCompleteIff | src/query/engine.rs:292-340 | in every run a report is in time order and gives only wanted leaves, and all of them iff none sits behind a leaf past the range on its page |
| LateLeaves.ReportPageAnswers | src/query/engine.rs:346-436 | in any state a page of results is a slice of what the scan reads, in time order; an inverted range is an error and limit 0 gives nothing |
| Witnesses.LateLeafIsMissed | src/query/engine.rs:270-283 | a two-leaf run in which the reconstruction finds no leaf although one is old enough |
| QueryEngine.QueryEngine.GetPageChainIntegrity | src/query/engine.rs:441-502 | over any store and active pages, however they came about: the pages looked at are the level's stored ones and its active one, by id; the reports are the specified ones, and all valid iff every stored page in the range is right; it fails exactly on an inverted id range |
| Audits.AcceptedIff | src/query/engine.rs:466-497 | over any pages and id range, all reports are valid iff every stored page in the range has the root of its content's hashes, the hash of its own fields, and the hash of the last page before it in the range as predecessor |
| Audits.IssuesNamed | src/query/engine.rs:479-486 | each issue is reported iff that check fails |
| Audits.ReportsListed | src/query/engine.rs:461-500 | there is one report per page in the range, in their order |
| Audits.AlteredRunIff | src/query/engine.rs:441-502 | a stored page of a run that was altered under its old id, root and hash is accepted iff it is out of the range, or the root of its content and all hashed fields are what they were |
| Audits.AlteredLeavesIff | src/query/engine.rs:479-484 | with as many leaves as before, an altered page of leaves passes iff every leaf keeps its recorded hash and every hashed field its value |
| Audits.AlteredChildrenIff | src/query/engine.rs:479-484 | with as many child hashes as before, an altered parent page passes iff they and the hashed fields are unchanged, whatever its patches say |
| Integrity.CheckerAcceptsRun | src/query/engine.rs:441-502 | in monotone runs every page of every level is reported valid, for every id range |
| Integrity.CheckerAcceptsLevelZero | src/query/engine.rs:441-502 | level 0 is accepted in every run, whatever the timestamps |
| Integrity.CheckerAcceptsIff | src/query/engine.rs:441-502 | in every run, at every level and for every id range, the checker accepts iff no selected active page is also in the store |
| Witnesses.ReopenedPageIsFlagged | src/query/engine.rs:461-498 | a three-leaf run with a late leaf whose reopened page is flagged |
| QueryEngine.QueryEngine.GetLeafInclusionProofWithHint | src/query/engine.rs:86-221 | answers exactly for hashes of finalized leaves, with a proof that verifies against the page's stored root; with unique leaf hashes the answer is the same for every hint |
| Inclusion.ProofUnique | src/query/engine.rs:86-221 | with unique leaf hashes only one answer is right: page, position, path, root and leaf are determined |
| Inclusion.ProofVerifies | src/core/merkle.rs:150-170 | every right answer verifies against the root stored with the page |
| RetentionPass.ApplyRetentionPolicies | src/core/time_manager.rs:495-606 | a pass leaves on every level what its policy allows (`Retention.Passed`) and touches nothing else |
| Retention.RetainedPasses | src/core/time_manager.rs:499-606 | a level's own policy decides, else the global age limit if it is on, else nothing goes; under an age limit of s > 0 seconds a page remains iff it ended at most s seconds ago; keeping n leaves min(n, all) pages, none of which ended before one that went |
| RetentionPass.ApplyRetention | src/core/time_manager.rs:512-600 | one level: age deletion, keep-n with n = 0 and n > 0, or nothing |
| Retention.RetentionIsIdempotent | src/core/time_manager.rs:495-606 | repeating a pass at the same time changes nothing |
| Retention.RetentionKeepsRunOk | src/core/time_manager.rs:495-606 | any pass keeps the invariant of every run, so leaves can be added afterwards |
| Retention.AgeRemovesPrefix | src/core/time_manager.rs:521-552 | age deletion removes a prefix of pages that end in order |
| Retention.KeepNIsSuffixIff | src/core/time_manager.rs:569-598 | every outcome that the contract of the unstable sort allows is the newest n pages iff no two pages on either side of the cut end together |
| Witnesses.KeepNMayLeaveGap | src/core/time_manager.rs:569-598 | for every n > 0 a reachable level 0 with a tie at the cut, and an allowed outcome that drops the newer page |
| Retention.LivesKeepNewestLeaves | src/core/time_manager.rs:495-606 | over any mix of ordered leaves and clean passes, level 0 holds the newest part of the log, in order |
| Retention.CheckerAcceptsLife | src/query/engine.rs:441-502 | what such a mix leaves still passes the checker at every level and for every id range |
| Journals.LogLinks | src/api/async_api.rs:101-107 | a leaf names the parent it was given, or else the hash of the leaf appended before it |
| Journals.LogUnique | src/core/leaf.rs:45-84 | no two leaves share a hash |
| Journals.HeadCommits | src/api/async_api.rs:94-112 | with implicit parents the last hash determines the whole log |
| Journals.JournalHoldsLog | src/api/async_api.rs:94-112 | the manager holds exactly the appended log, hash-linked when parents are implicit, and finalized leaf hashes are unique |
| Journals.Journal.AppendLeaf | src/api/async_api.rs:94-112 | the new leaf, its hash, the last-leaf hash and the log all advance together |
| Journals.ReturnedIdIsRightIff | src/core/time_manager.rs:384-482 | the id `add_leaf` returns is that of the leaf's page iff the page was not finalized early |
| LeafSteps.WrongIdIff | src/core/time_manager.rs:384-482 | in every run the returned id is not that of the leaf's page iff the open page suits the leaf, the call is made after the leaf's time, and some leaf on the page has reached the age limit |
| Witnesses.WrongIdIsReturned | src/core/time_manager.rs:399-482 | a two-leaf run in which the returned id is wrong |
| Snapshots.SnapshotSeesAll | src/core/snapshot_manager.rs:112-160 | gathering only pages that start by the time loses none of the container's leaves |
| Snapshots.ExactFieldsMean | src/core/snapshot_manager.rs:176-186 | the exact state has field k = v iff the container's last leaf up to the time, by timestamp and id, that mentions k sets it to v and v is not null |
| Snapshots.SnapshotIsExact | src/core/snapshot_manager.rs:224-274 | while no page of net patches alone is stored, the snapshot is the exact state, in every state a run can reach |
| Snapshots.SnapshotsExactInLife | src/core/snapshot_manager.rs:224-274 | if every level of net patches alone has a level of hashes alone below it, that stays so through any mix of ordered leaves and clean retention passes |
| Snapshots.BaselineIsLatest | src/core/snapshot_manager.rs:243-268 | the replay starts from the latest patch-only page that ended by the time and mentions the container, if there is one |
| Snapshots.SnapshotFieldsMean | src/core/snapshot_manager.rs:243-274 | field by field: the last replayed leaf that mentions it decides, else the patch page the replay starts from; null removes it |
| SnapshotLoss.SnapshotsExactIff | src/core/snapshot_manager.rs:243-274 | snapshots are exact in every monotone run, for every container and time, iff every level of net patches alone has a level of hashes alone between it and level 0 |
| SnapshotLoss.ReachedLevelLosesFields | src/core/snapshot_manager.rs:243-274 | for every other configuration, a monotone run whose snapshot lacks a field that the exact state has |
| Snapshots.SnapshotAgreesWithReconstruction | src/core/snapshot_manager.rs:176-274 | for flat null-free payloads, monotone runs with ascending ids, no stored page of net patches alone and no active level-0 page, the snapshot equals the reconstruction |
| SnapshotManagers.SnapshotManager.CreateSnapshot | src/core/snapshot_manager.rs:94-411 | fails exactly when snapshots are off, changing nothing; otherwise puts one page behind the earlier ones and returns its hash: one state per target container under their Merkle root, the as-of time, the preceding journal page, the previous snapshot, and the fresh id |
| SnapshotManagers.SnapshotManager.Assemble | src/core/snapshot_manager.rs:188-334 | one state per target container, each the specified one in some serialization, under the Merkle root of their digests |
| SnapshotManagers.SnapshotManager.PrecedingHash | src/core/snapshot_manager.rs:337-346 | the hash of the page that ended last by the time, highest level and id first, or none if none ended |
| SnapshotManagers.SnapshotManager.PreviousHash | src/core/snapshot_manager.rs:349-361 | the hash of the snapshot page created last, highest id first, or none if there is none |
| SnapshotManagers.SnapshotManager.ApplyDeltaToState | src/core/snapshot_manager.rs:176-186 | top-level fields are replaced, null removes a field, other payloads are ignored |
| SnapshotTargets.TargetsIff | src/core/snapshot_manager.rs:188-221 | in every state a run or a retention pass can leave, a full snapshot covers exactly the containers with a leaf up to the time or with a patch page to start from |
| SnapshotTargets.AskedForTargets | src/core/snapshot_manager.rs:188-191 | a snapshot of named containers covers exactly those |
| SnapshotTargets.StateNamesLastLeaf | src/core/snapshot_manager.rs:236-310 | a container state names the hash and time of the container's last leaf up to the time, by timestamp and id; without one, no hash, and the end of the patch page it started from, or else the time asked for |
| SnapshotTargets.TargetsAreTheContainers | src/core/snapshot_manager.rs:188-221 | in monotone runs of every configuration a full snapshot covers exactly the containers with a leaf up to the time |
| SnapshotRoots.SnapshotRootBinds | src/core/snapshot_manager.rs:315-335 | snapshots of any numbers of containers share a root iff their states hash alike one by one, and then the states are equal, up to the microsecond |
| SnapshotRoots.StateDeterminesHashIff | src/core/snapshot_manager.rs:285-328 | a container state determines its hash iff it has at most one field, because fields are serialized in no fixed order |
| SnapshotRoots.StatesFixRootIff | src/core/snapshot_manager.rs:228-335 | states in any order, their fields in any order, have one root iff there is no state, or only one, with at most one field |
| SnapshotRoots.JournalFixesRootIff | src/core/snapshot_manager.rs:94-335 | all snapshots of one journal, time and request share a root iff they cover no container, or one with at most one field |
| SnapshotChains.PageHashIff | src/core/page.rs:410-455 | snapshot pages share a hash iff they have the same id, level, window, predecessor and states; the as-of time and the preceding journal page play no part |
| SnapshotChains.SnapshotWindow | src/core/page.rs:193-201 | a snapshot page's window starts when it was made and lasts as long as its level's, or a second where no level is set up |
| SnapshotChains.PrecedingEndsLast | src/core/snapshot_manager.rs:337-346 | the preceding page is the one that ended last by the time, the higher level first, then the later id; there is none iff no page ended by then |
| SnapshotChains.IdleSnapshotsHashAlike | src/core/snapshot_manager.rs:336-400 | on a journal with every leaf before both times, and no page of net patches alone, snapshots as of different times get the same page hash |
| SnapshotChains.PrecedingIsLeafPageIff | src/core/snapshot_manager.rs:337-346 | in every reachable state the preceding page is the most recent level-0 page iff every higher page that ended by then ended before some level-0 page that did |
| Witnesses.ParentPagePrecedes | src/core/snapshot_manager.rs:337-346 | a two-leaf run in which a level-1 page is named instead |
| SnapshotChains.LinkedIff | src/core/snapshot_manager.rs:348-361 | every snapshot page names the one made just before it iff the clock never ran backwards before the newest |
| SnapshotChains.ClockBackSkipsSnapshot | src/core/snapshot_manager.rs:348-361 | for every journal, three snapshots the third of which names the first, because the clock ran backwards between the first two |
| SnapshotChains.HeadBindsChain | src/core/snapshot_manager.rs:375-386 | one snapshot page hash determines every snapshot on the chain behind it: id, window and states |
| SnapshotChains.HeadCoversAllIff | src/core/snapshot_manager.rs:348-386 | that chain is all snapshots iff the clock never ran backwards before the newest |
| Turnstiles.NextKeeps | src/turnstile/mod.rs:168-311 | every operation keeps provenance, only adds to committed, and forgets no leaf |
| Turnstiles.RunsKeepProvenance | src/turnstile/mod.rs:168-311 | in every state of every run each committed hash is the hash of a payload over a committed parent or the initial hash, and so is the latest; logged events are committed |
| Turnstiles.TicketsAreKept | src/turnstile/mod.rs:213-320 | a returned ticket exists in all later states, and committed only grows |
| Turnstiles.RetryNeverCorrupt | src/turnstile/mod.rs:255-311 | in no reachable state does a retry return -2 or fail |
| TurnstileSteps.AppendOutcome | src/turnstile/mod.rs:213-219 | a valid payload waits under its hash over the latest hash; invalid JSON or a bad starting hash changes nothing |
| TurnstileSteps.ConfirmOutcome | src/turnstile/mod.rs:222-231 | a confirmed ticket leaves pending, is committed and becomes the latest hash, and nothing else changes; an unknown one is an error and changes nothing |
| TurnstileSteps.RejectOutcome | src/turnstile/mod.rs:233-252 | a rejected ticket stays with one more retry counted and fails for good once the count exceeds the limit; a message is kept and logged |
| TurnstileSteps.RetryOutcome | src/turnstile/mod.rs:268-311 | a successful retry commits ticket and success record and answers 0; a failed one counts a retry and logs an orphan record, answers 2 and fails for good when the count reaches the limit, and answers 1 otherwise |
| TurnstileSteps.RetryTakesOldest | src/turnstile/mod.rs:255-267 | a retry takes up one of the oldest waiting entries and no other, and with none waiting changes nothing |
| TurnstileSteps.CorruptOutcome | src/turnstile/mod.rs:269-278 | an entry that no longer hashes to its ticket fails for good with -2; one that cannot be hashed is an error and stays |
| TurnstileSteps.LogOutcome | src/turnstile/mod.rs:168-210 | a log record is put at the end of the chain unless logging is off or the latest hash is no hash |
| TurnstileSteps.ConfirmedStaysCommitted | src/turnstile/mod.rs:222-231 | in every run a ticket that was waiting when confirmed is the latest hash next and committed ever after |
| TurnstileRuns.PendingAndCommittedDisjoint | src/turnstile/mod.rs:168-311 | if no caller passes a log record, no hash is both pending and committed |
| TurnstileRuns.LatestNeverRepeats | src/turnstile/mod.rs:168-311 | under the same condition the latest hash, once left, never comes back |
| TurnstileRuns.NextDisjointIff | src/turnstile/mod.rs:168-311 | from a disjoint state every outcome of an operation keeps pending and committed apart iff the hash it parks is not committed and the orphan record it logs is not pending |
| TurnstileRuns.ForgedLogRecordCollides | src/turnstile/mod.rs:168-252 | a run in which a caller appends such a record and a hash becomes both pending and committed |
| TurnstileRuns.RetrySpends | src/turnstile/mod.rs:255-311 | every retry that finds something strictly lowers the retries left |
| TurnstileRuns.DrainEnds | src/turnstile/mod.rs:255-311 | retrying alone ends within the retries left at its start |
| TurnstileRuns.NothingWaitsIff | src/turnstile/mod.rs:255-267 | no retries are left iff nothing waits |
| TurnstileRuns.Turnstile.constructor | src/turnstile/mod.rs:99-123 | a new turnstile is in the fresh state |
| TurnstileRuns.Turnstile.Append | src/turnstile/mod.rs:213-219 | the entry waits under the hash of its payload over the latest hash; invalid payloads change nothing |
| TurnstileRuns.Turnstile.ConfirmTicket | src/turnstile/mod.rs:222-252 | confirms, or rejects with one more retry counted, permanent failure beyond the limit, and an orphan record |
| TurnstileRuns.Turnstile.RetryNextPending | src/turnstile/mod.rs:255-311 | retries some oldest waiting entry exactly as specified, and returns -1 iff nothing waits |
| TurnstileRuns.Turnstile.LogOrphanLeaf | src/turnstile/mod.rs:168-189 | an orphan record is committed on top of the chain, unless logging is off |
| TurnstileRuns.Turnstile.LogSuccessLeaf | src/turnstile/mod.rs:191-210 | a success record is committed on top of the chain, unless logging is off |
| TurnstileRuns.Turnstile.LeafExists | src/turnstile/mod.rs:314-320 | true iff the hash is pending or committed |
| TurnstileRuns.Turnstile.PendingCount | src/turnstile/mod.rs:328-330 | the number of waiting entries |

## Left out

Assumptions the model makes:

- Steps are sequential: the journal lock covers a whole `append_leaf`, so interleavings inside one `add_leaf` are not modelled.
- Store calls succeed: the code takes a page out of the active map before it stores it, and conservation is not claimed across a failed store.
- SHA-256 is a free term over the hashed tuple, so it is injective; byte concatenation without separators is examined for the names in net patches only, not for leaf hashes, and JSON text is taken to determine the value it was made from; the order of the containers in a snapshot and of a container state's top-level fields is left open.
- Validated configurations only: one to 255 levels, durations positive and increasing, max_items positive, and window and age lengths that fit i64 nanoseconds.
- Page ids, leaf ids and retry counts are unbounded, so u64 and u32 overflow is not modelled; chrono's range limits on durations and dates are not modelled either.
- Timestamps are whole nanoseconds; theorems about windows and monotone runs ask for 0 <= nanoseconds <= i64::MAX, where window division does not round up.
- Pages are values: the manager clones a page out of its maps, changes the clone and puts it back, so aliasing of pages does not arise.
- Clocks and callbacks are parameters: the operation time of `add_leaf`, the current time of a retention pass, and the result of a turnstile callback as a function of what it is given.

What the repository does and the model does not:

- RetentionPass.ApplyRetentionPolicies: is a method beside the manager class that takes the manager, instead of a member of it.
- QueryEngine.QueryEngine.GetDeltaReport: reads the active page once per loaded page from the manager instead of from a copy taken before the loop; sequential steps make these the same.
- SnapshotManagers.SnapshotManager.CreateSnapshot: leaves out the random snapshot id, which nothing reads or hashes, and keeps snapshot pages in a list of their own, so a dedicated level that is also a level of the journal is not modelled; their id counter starts over with the process, and stores that outlive it are not modelled.
- Snapshots.SnapshotIsExact: asks that no page of net patches alone is stored, which is sufficient for one state; SnapshotLoss.SnapshotsExactIff is the exact condition on the configuration.
- SnapshotChains.IdleSnapshotsHashAlike: asks that no page of net patches alone is stored, because such a page may become the start of the later snapshot's replay; SnapshotChains.PageHashIff has no such condition.
- TurnstileRuns.PendingAndCommittedDisjoint: asks that no caller passes a log record, which is sufficient; the exact condition, operation by operation, is TurnstileRuns.NextDisjointIff.
- Radix.RunCounts: is about runs inside one window of every level with the level-0 age limit off, where only counts finalize pages.
- Turnstile persistence: disk writes and reload are not modelled; the code writes before it adds the success record, so disk and memory are not meant to agree.
- `list_pending` and the event accessors of the turnstile, `page_exists`, `is_empty` and `clear` of the store: plain reads and resets of fields that are already modelled.
- The file store, compression, backup and restore, configuration loading, logging, metrics, the sync API, C and WASM interfaces, the demo and Postgres: input and output or wrappers.
- Retention.KeepNIsSuffixIff: speaks of what the contract of the unstable sort allows, not of the order one implementation produces.
- `src/time/hierarchy.rs` and `src/time/level.rs`: repeat the window arithmetic or are lookup tables.
- Binding of patch contents by page roots: combined pages hash only their child hashes, so their roots do not bind their patches.
