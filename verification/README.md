# Lumae plugins: a verified model of catalogue publication and the state machines around it

The Lumae plugins publish generations of a music catalogue to phones. A phone bootstraps once from
a pinned generation and then follows a change journal; covers, analysis results, friend catalogues
and background jobs each have a smaller protocol of their own. This project models those protocols
in Dafny and proves what they promise for every input, every interleaving and every run.

`dafny verify dfyconfig.toml` checks everything.

## What is modelled

| files | part |
|---|---|
| `ChangeJournal` | the cursor journal shared by both streams: compaction, appending, reading one page |
| `CatalogTypes`, `CatalogDiff`, `CatalogBootstrap` | rows and their order, the difference two generations journal, paging a generation |
| `CatalogStore`, `CatalogProtocol`, `CatalogTheorems`, `CatalogOutcomes`, `CatalogExamples` | the tables and transactions of publication, every step of publishers, maintenance, leases and clients, what holds in every run, what publishers and clients are sure to get, and a run that fails |
| `Normalize`, `NormalizeTheorems`, `NormalizeOutcomes` | normalizing a provider response, why what is published has no dangling reference, and what is published of it, value by value |
| `Evidence` | qualifying links between tracks and analysis rows from restricted reads |
| `AnalysisProjection`, `AnalysisStore`, `AnalysisRuns` | the incremental projection against a full recompute, its tables, and every sequence of runs |
| `Covers`, `CoverProtocol`, `CoverTheorems` | cover records, receipts and photos under concurrent writers, purges and readers |
| `WorkerPool`, `WorkerProtocol`, `WorkerFrames`, `WorkerTheorems`, `WorkerOutcomes`, `WorkerCancels`, `WorkerExamples` | isolated analysis workers: checkout, starts, answers, how files end, and what a cancel may strike |
| `LineReader`, `TaggedValues` | the worker's messages: framing and the tagged encoding |
| `Backfill` | the one-row state machine of the profile backfill |
| `FriendSync`, `FriendPager` | the token-fenced friend synchronization and its pager, client and server |
| `Ranking` | the capped rounds of album recommendation |

Tables are maps, transactions are steps, and each protocol is a function `Next` from state and step to
state with an invariant kept by every step. Code that updates state in place is also written as a class
or a loop whose contract equates it with the function the protocol uses.

Conventions: a fingerprint is collision-free and stands for what it covers; identifiers are ranks in the
database's text order, 0 standing for the empty text; the clock is a natural number; random
identifiers are fresh.

## What the code does not promise

Where a promise fails, one lemma names an input or a run (first in each list) and another the exact
condition under which it holds.

- Install-time maintenance reads the epoch without a lock. If a rebase commits in between, it purges
  the new epoch's rows and readers have to bootstrap (`StaleMaintenanceBreaksARun`;
  `MaintainKeepsDensity`, `DensityAfterCompaction`).
- A backfill batch that was taken over as stale and ends late consumes the wake flag; the batch that
  took over then completes the row although a catalogue change was recorded
  (`LateEndLosesWake`; `RunKeepsExactlyWhen`, `WakeKeptExactlyWhen`).
- A refresh that finds no active backfill row starts one in a second statement; if a recovery queues the
  row for later in between, the start changes nothing and the change waits up to an hour
  (`RecoveryDelaysAStart`; `RunKeepsExactlyWhen`, `StartIsPromptExactlyWhen`).
- Cancelling a file marks it under the slot's lock but kills the worker afterwards, so the thread's next
  file can be hit (`CancelMayHitTheNextFile`; `HitStrikesAnotherExactlyWhen`). With the kill under the
  guard it cannot (`GuardedHitsOnlyTheMarked`, `GuardedNeverCrashes`).
- The size limit of a worker's message counts what is buffered, so a message within the limit can be
  lost to bytes that follow it in the same read (`TheCutMatters`; `FitsExactlyWhen`,
  `CutMattersExactlyWhen`).
- Normalization merges a repeated album row but keeps the credits of both, which cannot be stored if
  they share a position and role (`RoleTwiceCollides`; `CreditRowsInsertable`). A repeated library ID
  cannot be stored at all (`LibraryTwiceIsRefused`; `SnapshotInsertable`).
- When the provider lists no library the membership check does not apply, and tracks may name
  libraries that are not published (`UnlistedLibraryDangles`; `SnapshotClosed`).
- A projection that finds no change keeps a vector that is NULL where it should be empty, or the reverse
  (`EmptyVectorStaysNull`; `NoOpIsCurrent`).
- A ranking with a limit of zero or less may still return one album (`RankForNone`; `RankSimilarAlbums`).
  The one caller asks for 1 to 30 (`plugins/FederatedAlbums/__init__.py:1395`), so no request meets this.

One document and the code disagree:

- `plugins/LumaeAnalysis/CATALOG_SYNC.md` says superseded rows are deleted in the transaction that
  publishes their replacement. The code prunes them after it commits; the model follows the code.

## Model

| member | source | states |
|---|---|---|
| `ChangeJournal.JournalStore.Compact` | plugins/LumaeAnalysis/catalog.py:107-143 | the statements of one compaction leave the journal that `Compacted` describes and return the floor aimed at |
| `ChangeJournal.CompactionKeepsDensity` | plugins/LumaeAnalysis/catalog.py:107-143 | a caller with the current epoch never moves the floor back or past the head, and the rows stay exactly floor+1..head |
| `ChangeJournal.DensityAfterCompaction` | plugins/LumaeAnalysis/catalog.py:183-222 | a compaction keeps a dense journal dense if and only if its caller read the current epoch, or purges nothing, or no row is held |
| `ChangeJournal.StaleMaintenanceBreaksDensity` | plugins/LumaeAnalysis/catalog.py:183-222 | a purging compaction by a caller of another epoch leaves floor and head but no row of the current epoch: the journal is no longer dense and a reader at the floor must bootstrap |
| `CatalogExamples.StaleMaintenanceBreaksARun` | plugins/LumaeAnalysis/catalog.py:183-222 | a run of three refreshes, one of them a rebase, and maintenance that read before it: every publisher locks and no row is lost, yet the journal is not dense and a reader at the floor must bootstrap |
| `ChangeJournal.CompactionBounds` | plugins/LumaeAnalysis/catalog.py:107-142 | after an unbounded call at most max(1000, limit) events remain, or four times that under a hold, and no other epoch after a purge |
| `ChangeJournal.RecentEventsStay` | plugins/LumaeAnalysis/catalog.py:107-109 | for any hold and any bound on the advance, the last thousand events, or the last retention ones if those are more, stay with their content, and a floor no further behind stays |
| `ChangeJournal.KeptExactlyWhen` | plugins/LumaeAnalysis/catalog.py:107-111 | a call without a bound keeps exactly those events and, under a hold, those after the held one among four times as many |
| `ChangeJournal.RecentReadersAreServed` | plugins/LumaeAnalysis/catalog.py:107-109 | a reader at most that far behind is served after any compaction |
| `ChangeJournal.HoldKeepsEvents` | plugins/LumaeAnalysis/catalog.py:109-111 | a hold that retention can honour loses no event after it |
| `ChangeJournal.BoundedCallsProgress` | plugins/LumaeAnalysis/catalog.py:113-118 | the floor after any number of bounded calls at one head |
| `ChangeJournal.BoundedCallsCatchUp` | plugins/LumaeAnalysis/catalog.py:113-118 | bounded calls reach the floor of one unbounded call after exactly ceil(gap / max_advance) of them |
| `ChangeJournal.JournalStore.Append` | plugins/LumaeAnalysis/catalog.py:2615-2640 | a publication numbers its events consecutively after the head |
| `ChangeJournal.JournalStore.Rotate` | plugins/LumaeAnalysis/catalog.py:2614-2672 | a rebase starts an empty journal under a new epoch |
| `ChangeJournal.AppendKeepsDensity` | plugins/LumaeAnalysis/catalog.py:2615-2640 | journaling keeps the rows exactly floor+1..head |
| `ChangeJournal.ReadChangePageMeaning` | plugins/LumaeAnalysis/catalog.py:2884-2944 | a page is served exactly when none of its events is missing; an old epoch or a cursor below the floor must bootstrap, one ahead of the head is an error |
| `ChangeJournal.DenseJournalServes` | plugins/LumaeAnalysis/catalog.py:2884-2944 | on a dense journal a reader between floor and head gets cursor+1 .. cursor+min(limit, head-cursor), and something whenever it is behind |
| `CatalogTypes.ViewShows` | plugins/LumaeAnalysis/catalog.py:1640-1662 | a view is that of some rows if and only if it shows the metadata of each, the artwork of albums and tracks and the media of tracks |
| `CatalogTypes.ListingSplit` | plugins/LumaeAnalysis/catalog.py:2609-2613 | publication order splits wherever the keys split: what diffing entity by entity and paging both rely on |
| `CatalogDiff.DiffReplays` | plugins/LumaeAnalysis/catalog.py:2479-2514 | replaying the journaled difference on the view it was diffed against gives the view of the new rows |
| `CatalogDiff.ChangedExactlyWhen` | plugins/LumaeAnalysis/catalog.py:2501-2512 | a row is journaled if and only if it is new or differs from the stored one in metadata, an album or track in artwork, or a track in media |
| `CatalogDiff.DiffEmptyWhenUnchanged` | plugins/LumaeAnalysis/catalog.py:2502-2519 | the diff is empty if and only if the views are equal |
| `CatalogDiff.DiffKeysDistinct` | plugins/LumaeAnalysis/catalog.py:2609-2613 | no row is journaled twice in one publication |
| `CatalogDiff.EveryPrefixIsClosed` | plugins/LumaeAnalysis/catalog.py:2609-2613 | a client that stops after any event of a publication holds no reference to a row it lacks: parents arrive first and leave last |
| `CatalogBootstrap.PageAdvances` | plugins/LumaeAnalysis/catalog.py:3264-3331 | one page delivers the next rows in order for any limit, skipping and repeating nothing |
| `CatalogBootstrap.BootstrapDeliversExactlyOnce` | plugins/LumaeAnalysis/catalog.py:3256-3345 | paging with any mix of limits yields every row exactly once in (entity, id) order and ends within rows+4 pages |
| `CatalogStore.Catalog.IndexRows` | plugins/LumaeAnalysis/catalog.py:2480-2481 | one entity's rows by ID, the last row winning |
| `CatalogStore.Catalog.ChangedRows` | plugins/LumaeAnalysis/catalog.py:2501-2512 | exactly the keys whose fingerprints are new or differ |
| `CatalogStore.Catalog.InsertRows` | plugins/LumaeAnalysis/catalog.py:1494-1577 | insertion succeeds exactly when no ID repeats, and then stores every row |
| `CatalogStore.Catalog.DiffEntities` | plugins/LumaeAnalysis/catalog.py:2479-2514 | diffing entity by entity finds the changes and removals of the whole snapshot |
| `CatalogStore.Catalog.InsertGeneration` | plugins/LumaeAnalysis/catalog.py:2600-2607 | a generation can be written exactly when every entity's IDs are unique, and then holds the snapshot |
| `CatalogStore.Catalog.Build` | plugins/LumaeAnalysis/catalog.py:2463-2650 | what a publisher decides and writes before it locks the state row |
| `CatalogStore.Catalog.Commit` | plugins/LumaeAnalysis/catalog.py:2655-2754 | the publishing transaction: refused when the base moved, otherwise the whole new state |
| `CatalogStore.Catalog.Prune` | plugins/LumaeAnalysis/catalog.py:146-180 | removes expired or completed sessions and every older generation no live lease pins |
| `CatalogStore.Catalog.Open` | plugins/LumaeAnalysis/catalog.py:3150-3226 | a lease pins the published generation and head; at most four live ones per principal |
| `CatalogStore.Catalog.Page` | plugins/LumaeAnalysis/catalog.py:3256-3345 | a page of the pinned generation; the last one completes the session |
| `CatalogStore.Catalog.Release` | plugins/LumaeAnalysis/catalog.py:3348-3358 | releasing completes the session of its own principal only |
| `CatalogStore.Catalog.Maintain` | plugins/LumaeAnalysis/catalog.py:183-222 | install-time cleanup with the state it read before |
| `CatalogStore.DiffOfEntity` | plugins/LumaeAnalysis/catalog.py:2479-2514 | the part of the snapshot's diff that belongs to one entity is that entity's own diff |
| `CatalogStore.SnapshotExactly` | plugins/LumaeAnalysis/catalog.py:2480-2481 | a snapshot gives a key the last row of its entity with that ID, and no other row |
| `CatalogStore.RefreshDecides` | plugins/LumaeAnalysis/catalog.py:2463-2650 | a refresh refuses an empty catalogue, rebases what another schema fingerprinted, finds nothing to do if and only if no row was added or removed or differs in a compared field, and cannot write an ID twice |
| `CatalogProtocol.PlansAreSound` | plugins/LumaeAnalysis/catalog.py:2463-2640 | the events a publisher builds turn the view it read into the view it will publish |
| `CatalogProtocol.CommitKeeps` | plugins/LumaeAnalysis/catalog.py:2652-2754 | a publishing commit keeps every invariant of tables, journal, sessions and clients |
| `CatalogProtocol.FollowKeeps` | plugins/LumaeAnalysis/catalog.py:3361-3440 | a client that applies a served page is at a later position of the same history |
| `CatalogProtocol.PagedKeeps` | plugins/LumaeAnalysis/catalog.py:3256-3345 | a client that receives, or loses, a bootstrap page keeps holding a prefix of its pinned generation |
| `CatalogProtocol.EveryRunKeeps` | plugins/LumaeAnalysis/catalog.py:2167-2778 | every run of publishers, pruning, maintenance, sessions and clients keeps the invariants |
| `CatalogTheorems.EndToEndMirror` | plugins/LumaeAnalysis/catalog.py:2843-2944 | in every reachable state a following client that reads its last page holds exactly the published rows, each with the stored metadata, artwork and media, or is told to bootstrap; its cursor is never ahead |
| `CatalogTheorems.CaughtUpMirrorIsPublished` | plugins/LumaeAnalysis/catalog.py:3361-3440 | a client at the head of the current epoch mirrors the published generation |
| `CatalogTheorems.BootstrapEndsAtPinnedGeneration` | plugins/LumaeAnalysis/catalog.py:3256-3345 | the completing bootstrap page leaves the client with the pinned generation, at the position it was published at |
| `CatalogTheorems.LiveExactlyUntil` | plugins/LumaeAnalysis/catalog.py:3150-3358 | a step leaves a live session live if and only if it does not release, complete or replace it and its time is not up |
| `CatalogTheorems.LeaseKeepsRows` | plugins/LumaeAnalysis/catalog.py:146-180 | at the end of every run a live session is still live if and only if no step completed it and its time is not up; and then no row of its generation has changed |
| `CatalogTheorems.CommitsAreSerial` | plugins/LumaeAnalysis/catalog.py:2652-2706 | a successful commit publishes the predecessor plus one, diffed against the very generation it replaces; a publisher whose base moved changes nothing |
| `CatalogTheorems.LockedPublishersNeverMove` | plugins/LumaeAnalysis/catalog.py:2298-2324 | with the publisher lock, a publisher that waited builds on the newer base and is never refused |
| `CatalogTheorems.MaintainKeepsDensity` | plugins/LumaeAnalysis/catalog.py:183-222 | maintenance keeps the journal dense if and only if it read the current epoch or no row is held |
| `CatalogTheorems.OrderlyRunIsDense` | plugins/LumaeAnalysis/catalog.py:73-143 | in every run without such stale maintenance (or lost rows) the journal stays dense |
| `CatalogTheorems.OrderlyReadersProgress` | plugins/LumaeAnalysis/catalog.py:2884-2944 | in those runs a reader between floor and head always progresses |
| `CatalogTheorems.MirrorsStayClosed` | plugins/LumaeAnalysis/catalog.py:2609-2613 | if fetched catalogues have no dangling reference, no following client ever has one |
| `CatalogOutcomes.RefreshPublishes` | plugins/LumaeAnalysis/catalog.py:2298-2754 | in every reachable state with the publisher lock free, a refresh of a catalogue that can be stored leaves exactly that catalogue published, field by field, under a new generation if and only if something differs |
| `CatalogOutcomes.RebaseStartsAnew` | plugins/LumaeAnalysis/catalog.py:2614-2754 | a publication rebases if and only if what is published was fingerprinted otherwise; it then ends every lease and every reader of another epoch has to bootstrap |
| `CatalogOutcomes.BootstrapArrives` | plugins/LumaeAnalysis/catalog.py:3150-3345 | a client that opens a session and asks for rows+4 pages, with any limits, follows with the published catalogue at the journal's head |
| `CatalogOutcomes.FollowersArrive` | plugins/LumaeAnalysis/catalog.py:3361-3440 | in a dense journal a follower at or after the floor arrives at the published catalogue within as many pages as it is events behind |
| `CatalogOutcomes.RecentReadersSurvive` | plugins/LumaeAnalysis/catalog.py:107-143 | a publication leaves every reader served that was at most a thousand events, or twice the published entities, behind the new head |
| `CatalogOutcomes.MaintenanceKeepsReaders` | plugins/LumaeAnalysis/catalog.py:183-222 | so does maintenance that read the current epoch, by the entities it counted |
| `CatalogOutcomes.PruneLeaves` | plugins/LumaeAnalysis/catalog.py:146-180 | a prune leaves exactly the published generation and those that live leases pin, as published, and exactly the live leases |
| `CatalogOutcomes.OpensExactlyWhen` | plugins/LumaeAnalysis/catalog.py:3150-3226 | a session opens if and only if something is published and its principal has fewer than four live ones; it pins the published generation for 5 to 60 minutes |
| `CatalogOutcomes.PagesServedExactlyWhen` | plugins/LumaeAnalysis/catalog.py:3256-3331 | a page is served if and only if the session is live and the principal's own, from the generation as it was published |
| `CatalogOutcomes.LeasesAreLimited` | plugins/LumaeAnalysis/catalog.py:3150-3226 | in every run no principal has more than four live sessions, and none lives longer than an hour |
| `Normalize.ArtistRows` | plugins/LumaeAnalysis/catalog.py:375-412 | the credits of an item: nameless ones skipped, positions kept |
| `Normalize.FirstOfMeaning` | plugins/LumaeAnalysis/catalog.py:617-618 | an artist row is made from the earliest credit that names the artist |
| `Normalize.Introduce` | plugins/LumaeAnalysis/catalog.py:617-619 | adding credits keeps artists already known and appends every credit row |
| `Normalize.ScanAlbums` | plugins/LumaeAnalysis/catalog.py:602-648 | the last row lists a repeated album, but the credits of all its rows are kept |
| `Normalize.AddInferred` | plugins/LumaeAnalysis/catalog.py:665-680 | an album no row lists is described by the first track naming it, with that description's credits |
| `Normalize.ScanTracks` | plugins/LumaeAnalysis/catalog.py:650-784 | scanning accepts exactly the responses without a faulty track, and reports the first fault otherwise |
| `Normalize.CreditsOfEach` | plugins/LumaeAnalysis/catalog.py:786-796 | grouping credit rows by track gives each track back its own credits |
| `Normalize.EnrichTracks` | plugins/LumaeAnalysis/catalog.py:812-821 | libraries of albums and of credited artists while walking the tracks |
| `Normalize.AddAlbumCredits` | plugins/LumaeAnalysis/catalog.py:857-859 | an artist also gets the libraries of every album that credits it |
| `Normalize.Enrich` | plugins/LumaeAnalysis/catalog.py:786-916 | rows, credits and memberships of the finished catalogue |
| `Normalize.Normalize` | plugins/LumaeAnalysis/catalog.py:583-932 | a response is accepted if and only if no track is faulty; the catalogue then has the rows, credits and memberships its definition lists, otherwise the first fault is reported |
| `NormalizeTheorems.ReferencesResolve` | plugins/LumaeAnalysis/catalog.py:583-932 | track IDs are unique and every album and artist reference of a track or album is in the output |
| `NormalizeTheorems.MembershipsAreUnions` | plugins/LumaeAnalysis/catalog.py:808-916 | album memberships are exactly the unions over their tracks; artist memberships over their tracks and the albums crediting them |
| `NormalizeTheorems.TrackCheckSuffices` | plugins/LumaeAnalysis/catalog.py:2265-2296 | the check on track memberships passes if and only if every track is mapped and every membership of tracks, albums and artists names a listed library |
| `NormalizeTheorems.CreditRowsInsertable` | plugins/LumaeAnalysis/catalog.py:1227-1252 | track credit rows never collide; album credit rows collide if and only if two rows listing one album credit the same position in the same role, written or by default |
| `NormalizeTheorems.RoleTwiceCollides` | plugins/LumaeAnalysis/catalog.py:1227-1252 | a response that lists one album twice, first without a role and then with the default role written out, cannot be stored |
| `NormalizeTheorems.SnapshotInsertable` | plugins/LumaeAnalysis/catalog.py:1494-1577 | the rows of a normalized catalogue can be inserted if and only if no library ID repeats |
| `NormalizeTheorems.LibraryTwiceIsRefused` | plugins/LumaeAnalysis/catalog.py:1494-1577 | a response that lists a library twice cannot be stored |
| `NormalizeTheorems.SnapshotClosed` | plugins/LumaeAnalysis/catalog.py:917-932 | what would be published has no dangling reference if and only if every library a track is in was listed |
| `NormalizeTheorems.UnlistedLibraryDangles` | plugins/LumaeAnalysis/catalog.py:2265-2296 | a response without libraries whose track names one passes the check and publishes a dangling reference |
| `NormalizeTheorems.AcceptedIsClosed` | plugins/LumaeAnalysis/catalog.py:2265-2296 | a catalogue that lists libraries and passes the check publishes no dangling reference |
| `NormalizeTheorems.CheckedRunsStayClosed` | plugins/LumaeAnalysis/catalog.py:2265-2296 | through every run fed by checked responses no following client ever holds a dangling reference |
| `NormalizeOutcomes.AcceptedExactlyWhen` | plugins/LumaeAnalysis/catalog.py:650-700 | a response is accepted if and only if every track has an ID and a title, no track ID repeats, and no track names its album without an album ID |
| `NormalizeOutcomes.CreditsExactly` | plugins/LumaeAnalysis/catalog.py:375-412 | the credits of items are exactly one per named item, with its position, its own or derived ID, and its role or the default |
| `NormalizeOutcomes.LibrariesAreShown` | plugins/LumaeAnalysis/catalog.py:583-600 | a library is published if and only if it is listed with a name, as it was listed last |
| `NormalizeOutcomes.TracksAreShown` | plugins/LumaeAnalysis/catalog.py:650-784 | a track is published with the media, artwork and content the provider sent, referring to exactly its album, the artists its named items credit, and the libraries it lists or else its folder |
| `NormalizeOutcomes.AlbumsAreDescribed` | plugins/LumaeAnalysis/catalog.py:602-680 | an album is published if and only if a row lists it or a track names it, described by the last such row or else the first such track |
| `NormalizeOutcomes.AlbumsRefer` | plugins/LumaeAnalysis/catalog.py:602-680 | it refers to exactly the artists any of its rows credits (or else that track), and the libraries of the tracks that name it |
| `NormalizeOutcomes.ArtistsAreThoseCredited` | plugins/LumaeAnalysis/catalog.py:786-916 | an artist is published if and only if a track or an album credits it, in the libraries of those tracks and of the tracks of those albums |
| `NormalizeOutcomes.ArtistsAreNamed` | plugins/LumaeAnalysis/catalog.py:617-618 | it is shown under the name of its first credit |
| `Evidence.BuildLinks` | plugins/LumaeAnalysis/catalog_analysis.py:907-924 | each track's link: ready, pending or missing |
| `Evidence.Grouped` | plugins/LumaeAnalysis/catalog_analysis.py:932-938 | tracks grouped by analysis ID, in catalogue order |
| `Evidence.JudgeGroup` | plugins/LumaeAnalysis/catalog_analysis.py:320-356 | the judgement of one ready group, by the pairwise comparisons |
| `Evidence.ApplyProgressiveEvidence` | plugins/LumaeAnalysis/catalog_analysis.py:296-356 | every ready link ends as its group is judged; nothing else changes |
| `Evidence.RecordingsConflict` | plugins/LumaeAnalysis/catalog_analysis.py:566-570 | two occurrences carry recording IDs and share none |
| `Evidence.DurationsConflict` | plugins/LumaeAnalysis/catalog_analysis.py:571-572 | two known durations differ by more than the tolerance |
| `Evidence.TextsConflict` | plugins/LumaeAnalysis/catalog_analysis.py:573-575 | both titles and artists differ |
| `Evidence.SuspectAnalysisIds` | plugins/LumaeAnalysis/catalog_analysis.py:553-578 | exactly the analysis IDs of described groups that contradict themselves |
| `Evidence.ApplyProviderConflicts` | plugins/LumaeAnalysis/catalog_analysis.py:360-374 | exactly the links of suspect groups are flagged |
| `Evidence.OnlySharedPrints` | plugins/LumaeAnalysis/catalog_analysis.py:939-950 | weighing with only the prints of shared ready groups gives the links that all prints give |
| `Evidence.OnlySharedDetails` | plugins/LumaeAnalysis/catalog_analysis.py:951-959 | suspicion with only the details of shared groups is suspicion with all details |
| `Evidence.QualifyLinks` | plugins/LumaeAnalysis/catalog_analysis.py:907-959 | the restricted reads give the links of the full reads; the run is retried exactly when a track of a shared group is no longer described |
| `Evidence.CompleteExactlyWhen` | plugins/LumaeAnalysis/catalog_analysis.py:296-374 | evidence is complete exactly for ready links outside conflicting groups that are direct, sole, or in a checked group whose pairs all agree; such a link has no flag |
| `Evidence.RepairExactlyWhen` | plugins/LumaeAnalysis/catalog_analysis.py:290-293 | a link requires repair exactly when its group conflicts or a pair disagrees, and is withheld only where a shared group cannot be validated |
| `Evidence.FinalLink` | plugins/LumaeAnalysis/catalog_analysis.py:296-374 | every value of a final link in terms of the mapping, the analysis rows and the evidence: status, each flag, and the review the flags call for |
| `AnalysisProjection.ItemStateMeaning` | plugins/LumaeAnalysis/catalog_analysis.py:496-522 | a stored row counts as changed exactly when its fingerprints differ from a recomputed row's, and is rewritten exactly when it differs at all |
| `AnalysisProjection.IncrementalIsRecompute` | plugins/LumaeAnalysis/catalog_analysis.py:961-1125 | a projection that writes stores exactly the links and items computed from scratch, each item as last read |
| `AnalysisProjection.JournalIsDifference` | plugins/LumaeAnalysis/catalog_analysis.py:1085-1118 | replaying its journal turns the previous generation's view into the new one's, even when rows changed between the two reads |
| `AnalysisProjection.NoOpIsCurrent` | plugins/LumaeAnalysis/catalog_analysis.py:1004-1035 | a run with nothing to do leaves a view equal to a recompute; the rows are equal if and only if every vector is NULL on both sides or on neither, and the links if and only if the mapping's texts are spelled as they were stored |
| `AnalysisProjection.LinkChangedExactlyWhen` | plugins/LumaeAnalysis/catalog_analysis.py:631-690 | a link is journaled if and only if it is new or its status, completeness, flags, review, or what the sanitizer leaves of its analysis ID or tier changed |
| `AnalysisProjection.ItemChangedExactlyWhen` | plugins/LumaeAnalysis/catalog_analysis.py:496-522 | an item is journaled if and only if it is new, was cleared by a migration, or its scalars, coordinates or a vector's content changed; it is rewritten also where a vector is NULL on one side only |
| `AnalysisProjection.NothingToDoExactlyWhen` | plugins/LumaeAnalysis/catalog_analysis.py:1004-1035 | a run finds nothing to do if and only if something complete is published and no value of any link or item differs from what it read |
| `AnalysisProjection.NoStaleMapping` | plugins/LumaeAnalysis/catalog_analysis.py:978-1002 | so none leaves a track at one analysis ID when the mapping has another that the sanitizer tells apart |
| `AnalysisProjection.RunsExactly` | plugins/LumaeAnalysis/catalog_analysis.py:847-1165 | otherwise it fails if and only if a row to rewrite is gone, waits while track IDs are rewritten, and else publishes the next generation and keeps exactly the pinned older ones |
| `AnalysisStore.CompareItems` | plugins/LumaeAnalysis/catalog_analysis.py:962-971 | exactly the changed and the rewritten items, the former in ID order |
| `AnalysisStore.CompareLinks` | plugins/LumaeAnalysis/catalog_analysis.py:978-1002 | exactly the changed, rewritten and removed links |
| `AnalysisStore.Projector.Run` | plugins/LumaeAnalysis/catalog_analysis.py:847-1165 | one projection commits the whole new state, or leaves every table as it was |
| `AnalysisRuns.EveryRunKeeps` | plugins/LumaeAnalysis/catalog_analysis.py:847-1165 | after any runs the journal is dense, holds the history after its floor, and the history replays to the published view |
| `AnalysisRuns.EmptyVectorStaysNull` | plugins/LumaeAnalysis/catalog_analysis.py:1004-1035 | two runs after which a vector that a recompute finds empty is still stored as NULL |
| `AnalysisRuns.FollowersCatchUp` | plugins/LumaeAnalysis/catalog_analysis.py:1336-1390 | a client whose cursor the journal covers gets the next events in one page, and holds the published view at the head |
| `AnalysisRuns.PublishedIsRecomputed` | plugins/LumaeAnalysis/catalog_analysis.py:847-1165 | after a run that did not fail, the published view is a full recompute of what it read last, value by value, whatever ran before and whatever changed between its two reads |
| `AnalysisRuns.RecentFollowersSurvive` | plugins/LumaeAnalysis/catalog_analysis.py:1085-1118 | after any run a client is served that was at most a thousand events, or twice the items and links, behind the new head |
| `Covers.ReadKeepsFollowing` | plugins/LumaeAnalysis/covers.py:370-378 | a page keeps the reader's mirror current up to its cursor; hasMore is set exactly when more records than the limit are ahead, and without it the mirror is the whole scope |
| `Covers.AcceptedExactlyWhen` | plugins/LumaeAnalysis/covers.py:197-222 | a mutation without a receipt is accepted if and only if it is based on the current revision and the photo it names is stored; the record then shows the cover it puts, or the deletion, one revision on |
| `Covers.CoverStore.ApplyMutation` | plugins/LumaeAnalysis/covers.py:197-222 | the decision on one mutation and the row it writes, which shows what the mutation asks for |
| `Covers.CoverStore.CoverMutation` | plugins/LumaeAnalysis/covers.py:390-406 | a known mutation ID answers from its receipt or conflicts; an accepted one stores record and receipt together |
| `Covers.CoverStore.StoreUpload` | plugins/LumaeAnalysis/covers.py:225-245 | an upload is idempotent by content, restarts the grace period, and needs room in its scope |
| `Covers.CoverStore.DeleteUnused` | plugins/LumaeAnalysis/covers.py:328-331 | of the candidates exactly those still unused and past their grace period go |
| `Covers.CoverStore.PurgeUnusedImages` | plugins/LumaeAnalysis/covers.py:313-335 | the batches delete exactly as many unused images as they have room for, and nothing else |
| `CoverProtocol.InstallKeepsFollowing` | plugins/LumaeAnalysis/covers.py:182-194 | a reader keeps following a write if and only if its number is above the reader's cursor (or it brings nothing new) |
| `CoverProtocol.OnePendingPerScope` | plugins/LumaeAnalysis/covers.py:182-190 | the scope lock keeps two undecided writes of one scope apart |
| `CoverProtocol.PurgeImagesKeeps` | plugins/LumaeAnalysis/covers.py:313-335 | a purge with candidates listed before its locks removes no image that a cover or a pending write names |
| `CoverProtocol.EveryRunKeeps` | plugins/LumaeAnalysis/covers.py:182-406 | every interleaving of locks, numbers, commits, rollbacks, uploads, purges and reads keeps the invariants |
| `CoverTheorems.FeedIsComplete` | plugins/LumaeAnalysis/covers.py:360-379 | a reader has the current value of every record numbered up to its cursor, and the whole scope once hasMore is false, with writers at any point between lock and commit |
| `CoverTheorems.DecisionsHoldAtCommit` | plugins/LumaeAnalysis/covers.py:197-222 | what a writer decided before drawing its number is still the decision when it commits |
| `CoverTheorems.AppliedAtMostOnce` | plugins/LumaeAnalysis/covers.py:390-406 | of all mutations ever applied in a scope none occurs twice |
| `CoverTheorems.RevisionsCountWrites` | plugins/LumaeAnalysis/covers.py:203-217 | the n-th write accepted on a cover was based on revision n |
| `CoverTheorems.RetryIsNeverApplied` | plugins/LumaeAnalysis/covers.py:279-310 | a retried mutation is never applied again, even after its receipt was purged; while the receipt exists it gets the original record |
| `CoverTheorems.RecordsShowTheLastWrite` | plugins/LumaeAnalysis/covers.py:203-217 | in every reachable state each record shows exactly the last mutation of its cover's log, and each receipt answers with what its own mutation asked for |
| `CoverTheorems.WritesArrive` | plugins/LumaeAnalysis/covers.py:390-406 | a write that has its lock ends in two steps: accepted, with record, receipt and log showing it, or without a trace |
| `CoverTheorems.PurgesExactly` | plugins/LumaeAnalysis/covers.py:308-335 | a purge removes exactly the candidates that are unused and past two days, or the receipts past thirty days |
| `CoverTheorems.UploadsExactly` | plugins/LumaeAnalysis/covers.py:225-245 | an upload stores its image as of its own time, again if it was there, and is refused if and only if it is new and its scope holds 2,000 |
| `CoverTheorems.ReceiptsStay` | plugins/LumaeAnalysis/covers.py:308-335 | no step removes or changes a receipt of the last thirty days |
| `CoverTheorems.PhotosAreStored` | plugins/LumaeAnalysis/covers.py:207-212 | every photo a live cover names is stored in its scope |
| `CoverTheorems.QuotaHolds` | plugins/LumaeAnalysis/covers.py:239-242 | a scope never holds more than 2,000 images |
| `CoverTheorems.ImagesLeaveUnusedAndOld` | plugins/LumaeAnalysis/covers.py:308-335 | an image leaves only under its scope's lock, unused and past its grace period |
| `CoverTheorems.SomeTransactionMoves` | plugins/LumaeAnalysis/covers.py:182-190 | taking scope locks in order excludes deadlock |
| `WorkerPool.AwaitAnswer` | plugins/LumaeAnalysis/analysis_isolation.py:1324-1380 | the wait ends at the first final message; only an answer leaves the worker fit for reuse; only a death before acceptance may be retried |
| `WorkerPool.Workers.TakeOut` | plugins/LumaeAnalysis/analysis_isolation.py:1232-1273 | a checkout yields the thread's own worker, the pooled one under the lock, or a new one, or reports that none starts |
| `WorkerPool.Workers.BringBack` | plugins/LumaeAnalysis/analysis_isolation.py:1276-1295 | a worker that is not healthy is stopped and forgotten; the pooled one's lock is released |
| `WorkerProtocol.BeginFacts` | plugins/LumaeAnalysis/analysis_isolation.py:1232-1273 | the first half of a checkout changes no worker in use, reuses only an idle one of the thread, and leaves the place free that a new one will take |
| `WorkerProtocol.FinishFacts` | plugins/LumaeAnalysis/analysis_isolation.py:1246-1273 | a worker that starts goes to the thread alone; a failed start releases the pool lock it held |
| `WorkerProtocol.CheckinFacts` | plugins/LumaeAnalysis/analysis_isolation.py:1276-1295 | only a healthy worker stays in its slot or in the pool |
| `WorkerProtocol.EveryRunKeeps` | plugins/LumaeAnalysis/analysis_isolation.py:1232-1448 | every run with slow and failed starts, deaths, broken protocols, timeouts and cancels keeps the invariants |
| `WorkerTheorems.PoolLockBalances` | plugins/LumaeAnalysis/analysis_isolation.py:1250-1295 | the pool lock is held exactly while one thread has or starts the pooled worker, and was released once for every other time it was taken |
| `WorkerTheorems.NoWorkerServesTwo` | plugins/LumaeAnalysis/analysis_isolation.py:1232-1295 | no worker is in two threads' hands |
| `WorkerTheorems.UnansweredIsNeverReused` | plugins/LumaeAnalysis/analysis_isolation.py:1276-1281 | a worker that gets a request owes no earlier answer |
| `WorkerTheorems.SentAtMostTwice` | plugins/LumaeAnalysis/analysis_isolation.py:1401-1441 | each file is sent at most twice and never after a worker accepted it |
| `WorkerTheorems.CancelledIsNotSent` | plugins/LumaeAnalysis/analysis_isolation.py:1396-1446 | a thread whose file is cancelled starts no worker and sends nothing, also when the cancel came while a worker started; the file ends as cancelled unless its result arrived, and its worker is stopped |
| `WorkerTheorems.OnlyMarkedEndCancelled` | plugins/LumaeAnalysis/analysis_isolation.py:1011-1062 | a file is reported as cancelled only if it was cancelled |
| `WorkerOutcomes.HearingEnds` | plugins/LumaeAnalysis/analysis_isolation.py:1324-1441 | how a file ends for everything its thread may hear, and when the worker stays fit for reuse |
| `WorkerOutcomes.VanishedIsTriedAgain` | plugins/LumaeAnalysis/analysis_isolation.py:1401-1441 | a request whose worker vanished before accepting it is tried once more with nothing recorded; the second time the file ends as crashed, or as cancelled |
| `WorkerOutcomes.CrashesAreEarned` | plugins/LumaeAnalysis/analysis_isolation.py:1401-1441 | in every run a file ends as crashed only if a worker accepted it, it was sent twice, or its worker sent something broken or reported the crash |
| `WorkerOutcomes.FilesEndOnce` | plugins/LumaeAnalysis/analysis_isolation.py:1386-1446 | in every run the end of a file is never changed |
| `WorkerOutcomes.OnlyStartersUse` | plugins/LumaeAnalysis/analysis_isolation.py:1237-1262 | in every run a thread uses only workers it started itself, and so does its slot |
| `WorkerOutcomes.HealthyIsReused` | plugins/LumaeAnalysis/analysis_isolation.py:1232-1295 | a worker that answered well serves its thread's next file without another start |
| `WorkerOutcomes.FilesAreAnalysed` | plugins/LumaeAnalysis/analysis_isolation.py:1386-1446 | in every reachable state a thread at rest has a new file analysed, sent once and ended with its result |
| `WorkerOutcomes.FailedStartsAreFinal` | plugins/LumaeAnalysis/analysis_isolation.py:1386-1415 | after a start that failed the process starts no worker: a file finds one that is still there or is analysed in the process, unless it was cancelled |
| `WorkerOutcomes.NoWorkerIsLost` | plugins/LumaeAnalysis/analysis_isolation.py:1232-1295 | in every run a worker that is alive is in the pool, in its thread's slot or in use |
| `WorkerFrames.StepFrame` | plugins/LumaeAnalysis/analysis_isolation.py:1232-1446 | no step gives a thread a worker that is another's, brings back a call that ended, or lets a worker at work die but by a strike or a death of its own |
| `WorkerExamples.CancelMayHitTheNextFile` | plugins/LumaeAnalysis/analysis_isolation.py:1043-1062 | a run in which nothing fails but through one cancel: its kill strikes the worker of the thread's next file, which nobody cancelled and which ends as a crash |
| `WorkerCancels.HitStrikesAnotherExactlyWhen` | plugins/LumaeAnalysis/analysis_isolation.py:1043-1062 | for every run from mark to kill: the kill strikes the worker that serves another file if and only if in between the thread ended the marked file, kept its worker alive and went on to another file with it |
| `WorkerCancels.GuardedHitsOnlyTheMarked` | plugins/LumaeAnalysis/analysis_isolation.py:1051-1062 | if every kill falls while its file is the thread's current one, it strikes no file but the cancelled one |
| `WorkerCancels.CrashesComeFromCancels` | plugins/LumaeAnalysis/analysis_isolation.py:1043-1062 | in runs without other failures a file fails as a crash only because the cancel of another file struck its worker |
| `WorkerCancels.GuardedNeverCrashes` | plugins/LumaeAnalysis/analysis_isolation.py:1051-1062 | so with the guard none does |
| `LineReader.Reader.Read` | plugins/LumaeAnalysis/analysis_isolation.py:745-766 | the loop yields, keeps and takes exactly what one read is defined to: a line, or late, ended or overrun |
| `LineReader.ReadsLines` | plugins/LumaeAnalysis/analysis_isolation.py:745-766 | successive reads of a stream in pieces yield the complete lines of the pieces before the first that is over the limit together with the unfinished line before it, then the end of the stream or an overrun |
| `LineReader.FitsExactlyWhen` | plugins/LumaeAnalysis/analysis_isolation.py:745-766 | some bytes yield all their lines however reads of at most 65,536 bytes cut them if and only if at no point the unfinished line and a full read from there are together over the limit |
| `LineReader.CutMattersExactlyWhen` | plugins/LumaeAnalysis/analysis_isolation.py:752-758 | what is read depends on the cut if and only if a read can overrun before the farthest point that can be reached and a line ends, or the stream does, between the two |
| `LineReader.TheCutMatters` | plugins/LumaeAnalysis/analysis_isolation.py:752-758 | a message one byte short of the limit, in full reads: read when its line end arrives alone, lost when the next bytes come with it |
| `TaggedValues.EncodesExactly` | plugins/LumaeAnalysis/analysis_isolation.py:311-341 | encoding succeeds exactly on nestings of supported values without a tag key |
| `TaggedValues.RoundTrip` | plugins/LumaeAnalysis/analysis_isolation.py:311-364 | decoding an encoded value gives it back in built-in types if and only if every dataclass inside is the plugin's own and resolves to itself |
| `TaggedValues.NormalIsBuiltIn` | plugins/LumaeAnalysis/analysis_isolation.py:311-341 | the value in built-in types has none but built-in types and dataclasses inside |
| `TaggedValues.BuiltInIsNormal` | plugins/LumaeAnalysis/analysis_isolation.py:311-341 | a value of built-in types is that value itself, so it returns unchanged |
| `TaggedValues.EncodingIsUnambiguous` | plugins/LumaeAnalysis/analysis_isolation.py:323-326 | values that encode alike are alike |
| `TaggedValues.DecodesOnlyResolved` | plugins/LumaeAnalysis/analysis_isolation.py:344-364 | whatever is decoded contains only classes the plugin resolves |
| `TaggedValues.RefReturns` | plugins/LumaeAnalysis/analysis_isolation.py:367-384 | a class reference resolves only when it is marked as the plugin's |
| `Backfill.BackfillRow.Notify` | plugins/LumaeAnalysis/__init__.py:762-787 | a refresh sets the wake of an active row and makes a queued one due |
| `Backfill.BackfillRow.Admit` | plugins/LumaeAnalysis/__init__.py:6229-6255 | admission requeues a row that is absent, ended or stale, keeping its wake |
| `Backfill.BackfillRow.ClaimBatch` | plugins/LumaeAnalysis/__init__.py:6261-6281 | a batch claims a due row or a stale running one |
| `Backfill.BackfillRow.Update` | plugins/LumaeAnalysis/__init__.py:6305-6364 | how each ending leaves the row, with and without a pending wake |
| `Backfill.BackfillRow.Arm` | plugins/LumaeAnalysis/__init__.py:2353-2388 | recovery makes the row due within the hour, or sets the wake of a running one |
| `Backfill.BackfillRow.RunTask` | plugins/LumaeAnalysis/__init__.py:6423-6531 | one turn of the job: paused, coalesced, or one claimed batch with exactly one end |
| `Backfill.WakeOutlivesBatch` | plugins/LumaeAnalysis/__init__.py:6423-6531 | a change that arrives while a batch runs is due within a minute of its end, however it ends |
| `Backfill.NextBatchExactlyWhen` | plugins/LumaeAnalysis/__init__.py:6305-6364 | when the next batch may start after one ended: at once after a change or with more left, a minute after an exception, when the earliest track waits until, or never |
| `Backfill.WakeIsKept` | plugins/LumaeAnalysis/__init__.py:6229-6281 | admission, claim, heartbeat and recovery keep a pending wake |
| `Backfill.TakenOverExactlyWhen` | plugins/LumaeAnalysis/__init__.py:6229-6281 | a running batch is taken over if and only if it has not been heard of for half an hour |
| `Backfill.RecoveryIsDue` | plugins/LumaeAnalysis/__init__.py:2353-2388 | recovery leaves a running row with the wake, and any other claimable within the hour and no later than before |
| `Backfill.WakeKeptExactlyWhen` | plugins/LumaeAnalysis/__init__.py:6326-6346 | a step loses an owed wake if and only if it ends a batch as complete (or with a later retry) after the flag was consumed, or is a refresh's start that finds the row queued for later |
| `Backfill.OnlyLateEndsLose` | plugins/LumaeAnalysis/__init__.py:6261-6281 | such an end is always that of a batch whose claim was taken over |
| `Backfill.RunKeepsExactlyWhen` | plugins/LumaeAnalysis/__init__.py:762-789 | a run never loses a change at any point if and only if none of its steps is such a step |
| `Backfill.NoLostWake` | plugins/LumaeAnalysis/__init__.py:762-789 | in every run without late ends and delayed starts a change leaves the row due within a minute or running with the flag, until a batch claims it |
| `Backfill.LateEndLosesWake` | plugins/LumaeAnalysis/__init__.py:6305-6364 | with one, the row can end complete although a change was recorded: a concrete run |
| `Backfill.OwedBecomesClaimable` | plugins/LumaeAnalysis/__init__.py:6261-6281 | an owed change is claimable within a minute, or once the running batch is stale |
| `Backfill.StartIsPromptExactlyWhen` | plugins/LumaeAnalysis/__init__.py:784-789 | the start that follows a refresh is prompt unless the row was queued for later in between |
| `Backfill.RecoveryDelaysAStart` | plugins/LumaeAnalysis/__init__.py:2353-2388 | a run in which a recovery between the two statements of a refresh delays it by an hour |
| `FriendSync.ConnectionStore.Request` | plugins/FederatedAlbums/sync_jobs.py:32-49 | a request queues a connection that is neither pending nor running under a fresh token |
| `FriendSync.ConnectStores` | plugins/FederatedAlbums/__init__.py:1307-1322 | connecting stores the access token on the owner's connection to that address, which forgets its worker, or on a new one, and changes no other |
| `FriendSync.OneConnectionPerAddress` | plugins/FederatedAlbums/__init__.py:1307-1322 | in every run an owner has one connection to each address |
| `FriendSync.ClaimedExactlyWhen` | plugins/FederatedAlbums/sync_jobs.py:52-80 | a connection is claimed if and only if it is pending or running, or failed fewer than five times and its retry is due |
| `FriendSync.RequestsAreServed` | plugins/FederatedAlbums/sync_jobs.py:32-107 | a request that one worker serves undisturbed ends complete, with the friend's albums cached |
| `FriendSync.FailuresAreRetried` | plugins/FederatedAlbums/sync_jobs.py:83-99 | a failed fetch leaves the cached rows and can be claimed again after five minutes, unless it was the fifth attempt |
| `FriendSync.CandidateExactlyWhen` | plugins/FederatedAlbums/sync_jobs.py:52-80 | one run considers exactly the first 32 connections that can be claimed |
| `FriendSync.ConnectionStore.SyncConnection` | plugins/FederatedAlbums/__init__.py:1073-1128 | a worker without its claim is refused or reports the fetch's failure and writes nothing; with it, it replaces the cached rows and completes the connection |
| `FriendSync.ConnectionStore.RunOne` | plugins/FederatedAlbums/sync_jobs.py:52-107 | one run works on exactly the first candidate whose lock is free, and touches nothing else |
| `FriendSync.EveryRunKeeps` | plugins/FederatedAlbums/sync_jobs.py:52-107 | a worker whose token is still on the row finds it running, with the access token it read |
| `FriendSync.OnlyHoldersPublish` | plugins/FederatedAlbums/__init__.py:1086-1128 | cached rows change only by deletion or by the holder of the row's current token, all at once, fetched with the access token still on the row |
| `FriendSync.ReplacingFences` | plugins/FederatedAlbums/__init__.py:1307-1322 | reconnecting, deleting or claiming again takes the old worker's token off the row |
| `FriendSync.FencedForever` | plugins/FederatedAlbums/sync_jobs.py:69-80 | a token that is off the row never returns to it |
| `FriendSync.ReplacedWorkerWritesNothing` | plugins/FederatedAlbums/sync_jobs.py:83-99 | after that the old worker publishes nothing and never overwrites the newer status, whatever happens in between |
| `FriendSync.NoOrphanedRows` | plugins/FederatedAlbums/__init__.py:1345-1364 | cached rows exist only for existing connections |
| `FriendPager.TakeAnswer` | plugins/FederatedAlbums/__init__.py:1017-1069 | how one answer is judged |
| `FriendPager.FetchRemoteCatalog` | plugins/FederatedAlbums/__init__.py:997-1070 | the fetch loop makes at most 400 requests |
| `FriendPager.AnyServer` | plugins/FederatedAlbums/__init__.py:997-1070 | against any server the result has no repeated, empty or malformed album and at most 100,000 of them, from one named instance |
| `FriendPager.FetchedExactlyWhen` | plugins/FederatedAlbums/__init__.py:997-1070 | a catalogue is fetched if and only if a chain of at most 400 requests, no cursor twice, is answered by acceptable pages of one instance within the size of one answer and the budget of all; it is then those pages in order |
| `FriendPager.EndpointPage` | plugins/FederatedAlbums/__init__.py:1156-1202 | the endpoint answers a cursor with the next keys in order |
| `FriendPager.EndpointIsFetchedWhole` | plugins/FederatedAlbums/__init__.py:997-1070 | fetching an unchanging catalogue returns every album exactly once in key order if and only if it has at most 100,000 albums, all well-formed with keys of at most 256 characters |
| `Ranking.ScoredKeepsAll` | plugins/FederatedAlbums/album_dynamics.py:416-432 | every candidate but the source album is scored, as often as it occurs |
| `Ranking.ChooseCapped` | plugins/FederatedAlbums/album_dynamics.py:431-449 | every pick is, across all artists, the best of the earliest round any album left can be in; picks are distinct and within the final cap, and short of the limit every leftover is a duplicate or its artist is at the cap |
| `Ranking.RankSimilarAlbums` | plugins/FederatedAlbums/album_dynamics.py:413-449 | the same over the scored candidates; the source album is never chosen; with a limit of zero or less one album is returned exactly when a cap is positive and a candidate is left |
| `Ranking.RankForNone` | plugins/FederatedAlbums/album_dynamics.py:413-449 | asked for none, a ranking returns one album: a concrete call |
| `Ranking.RankingIsDetermined` | plugins/FederatedAlbums/album_dynamics.py:431-449 | that decides the ranking: of two rankings of the same candidates the shorter is how the longer begins |
| `Ranking.EveryArtistGetsItsShare` | plugins/FederatedAlbums/album_dynamics.py:434-449 | a ranking the limit did not cut gives every artist min(cap, its albums) places |

## Left out

- Provider-identity rekeys (`publish_provider_identity_rekey`, `jellyfin_continuity`, `rekey_covers`): they replace identifiers in place and are not part of this model; photo safety and the feed theorem are stated without them.
- Fetching from providers, field lookup by alias, text clean-up, artwork and portraits, file tags, per-album totals and search text: a raw row carries what they yield, and no invariant depends on them. The model's order of output rows is their keys' order.
- Payloads: clients and server are compared by fingerprints, as the diff compares them.
- The `available` flag, `first_seen_at` and reactivation counts: every stored row of a generation is available.
- The relationship tables are not part of the stored state of `CatalogStore`; when their rows collide is proved in `NormalizeTheorems`.
- Other sources: each theorem is about one catalogue source; principals of sessions are kept.
- Leases of the analysis stream: sessions are created under the catalogue's state row, which the projection does not lock; `AnalysisStore` takes the pinned generations as an input.
- The sanitizer of stored texts is a function parameter, and the JSON comparison in SQL is equality of values; an empty analysis ID counts as none.
- How a Chromaprint comparison decides: a function parameter of `Evidence`.
- PurgeUnusedImages: one clock value for all batches and no other transaction between them; purges interleaved with every other step are in `CoverProtocol` (`PurgeImagesKeeps`). Which images a batch takes first (the oldest) is left open.
- The receipt purge has no loop of its own; its one step is in `CoverProtocol`.
- Validation of cover mutations, request bodies and image sniffing: they reject a request before the scope is locked.
- The fork path, shutdown, signals, process reaping and memory readings of workers: a worker answers, dies, times out or is cancelled.
- JSON itself: `TaggedValues` starts from parsed values, and base64 is a pair of functions that invert each other. `LineReader` leaves parsing a line to its caller.
- Progress counters, last errors and completion times of the backfill row, and how a batch selects and analyses tracks: only status, wake, retry and heartbeat decide whether a change is lost.
- NoLostWake: a refresh that finds no active row during a maintenance pause starts nothing, as in the code; its change does not count as owed, the next refresh or start records it.
- Network limits of the friend fetch are events or byte counts of an answer; the validation of addresses is left out.
- The advisory lock of a connection may be lost at any time in `FriendSync`, so nothing relies on it.
- Scores of album dynamics, poles and clusters: the ranking takes the order they give.
- `vector_batch` framing, `_text_array` quoting, cursors' base64 text and readiness reports: each would add only easy members.
