# Bookclerk: a verified model

Bookclerk keeps a library of audiobooks in object storage. This project models
the parts of it where order, crashes, quotas and encodings interact, and proves
what those parts promise. It is written in Dafny 4.11; `dafny verify
dfyconfig.toml` checks everything.

## What is modelled

| files | part of the system | form |
|---|---|---|
| `StorageScan.dfy`, `ScanProgress.dfy` | the crash-resumable storage scan: generations, checkpoints, lease fence, adoption, and that it gets somewhere | transition system, any number of workers, jobs, sites and generations |
| `Keys.dfy`, `Lookup.dfy`, `Overlay.dfy`, `Reconcile.dfy`, `Inventory.dfy` | identities in storage keys, paged lookups, the in-process index, the reconcile loop, and scan and reconcile together | loops over tables, a class for the index, lemmas |
| `Convert.dfy`, `ConvertProgress.dfy` | MP3 conversions sharing one scratch ledger, one store and one library, and how they end | transition system, any number of conversions |
| `Acquire.dfy`, `AcquireRuns.dfy` | acquiring a title into several destinations with retries, and what status Acquired means over runs of attempts | lookups and loops proved equal to functions, runs of attempts |
| `Relocate.dfy` | moving an audio object with its companions | loops over a store |
| `Wire.dfy`, `Emitters.dfy`, `CodecRoundTrip.dfy`, `CodecExact.dfy` | the schema-to-codec compiler: emitted Python and TypeScript writers, emitted Python reader, the message they exchange, and what comes back field by field | emitters to a statement language, an interpreter for it, a reader |
| `CiClosure.dfy`, `CiPlan.dfy`, `CiChecks.dfy`, `CiSelect.dfy`, `CiPrereqs.dfy`, `CiNeeds.dfy`, `CiExec.dfy` | the selective-CI planner, what a change selects, prerequisite expansion and what it provides, run-once execution and the gate | worklist and loops proved against sets |
| `Delivery.dfy` | the diagnostics collector's report cursor | loops, runs of calls and uploads |
| `Split.dfy`, `Cue.dfy` | grouping chapters into files, flattening and rebasing chapter trees | loops proved against partitions and trees |

`Basics.dfy` holds wrappers, the order of names and unused numbers.

## What the environment is assumed to do

- A storage page after a cursor holds every current key above the cursor up to
  the next cursor, and no key the store never held. Minted scan ids are unused.
- Each database call, storage call and file operation is one step; an upload or
  a rename either happened or did not. A rename is a copy followed by a delete,
  and the delete may fail.
- The reservation ledger admits a reservation exactly when the other rows plus
  the new size fit the quota, in saturating 64-bit arithmetic, and stores it in
  a signed 64-bit column.
- Slots of a Cap'n Proto layout do not overlap outside unions; discriminants,
  field names and enumerant names are distinct.
- Hashes of distinct CI prerequisites are distinct.
- Before the first acquire of a title, an object is audio of it exactly when the
  existing-media lookup accepts its key and the key is a visible audio key.

## Where the code does less than it says

Each of these keeps the code as it is, gives inputs that show the gap, and
proves the exact condition under which the promise holds.

- A scan generation deleted while its scan runs is returned without rows
  (`StorageScan.DeletedMidScan`), so that a later clear-missing run clears books
  whose audio is there (`Inventory.DeletedScanClearsCarried`). One deleted
  between the decision to resume and the registration comes back empty and is
  completed (`StorageScan.DeletedBeforeBind`); the exact condition is
  `StorageScan.CleanExactlyWhen`.
- A list of structs without any words is decoded as empty, and a message over
  65536 words is rejected (`CodecRoundTrip.PromisedRoundTrip`). An optional
  field that holds an empty or zero value comes back absent
  (`CodecExact.UnchangedExactlyWhen`).
- With a quota above the signed 64-bit range the stored row is clamped and a
  conversion can outgrow it (`Convert.ClampedRowIsExceeded`). Two books that
  share one source object can leave one of them dangling
  (`Convert.SharedSourceDangles`, `Convert.LibraryNeverDangles`), and two whose
  objects differ in the extension alone get one MP3 (`Convert.Mp3ClashExactlyWhen`).
- The existing-media lookup of an acquire filters neither non-audio nor internal
  keys, so a cover named after the title makes it acquired
  (`AcquireRuns.CoverOnlyIsAccepted`, `AcquireRuns.AcquiredIsHeldExactlyWhen`).
- A title stored as several files counts as acquired when an interrupted write
  left one of them, and a sync copies one file only
  (`AcquireRuns.WholeExactlyWhen`, `AcquireRuns.InterruptedWriteIsAccepted`,
  `AcquireRuns.SyncCopiesOneFile`).
- The first file of a split may be shorter than the minimum, because it is
  measured from the beginning of the audio rather than from its first chapter
  (`Split.MinimumExactlyWhen`).
- Scan lookups do not normalise an ISBN written with hyphens, unlike the
  in-process index (`Inventory.UncanonicalIdIsNeverFound`,
  `Overlay.OverlayFindsExactlyWhen`).
- A failed existence probe of a companion's target reads as absent, so the
  rename may replace an object (`Relocate.StepLosesExactlyWhen`,
  `Relocate.RelocationKeepsExactlyWhen`). The integrity
  sidecar follows its audio only when the extension stays
  (`Relocate.MetaFollowsExactlyWhen`).
- A chapter that starts before its parent is lost when the parent falls into
  the outro (`Cue.RebaseCommutesExactlyWhen`).
- A truncated listing can make the report cursor pass files for good
  (`Delivery.TruncatedListingExactlyWhen`, `Delivery.PrefixListingLosesOlder`).
- An empty change set is planned without jobs, which validation rejects
  (`CiExec.JobsPlannedExactlyWhen`). An end-to-end check that only a fixture
  asked for has no scope, and expanding its prerequisites fails
  (`CiPrereqs.ScopeMissingExactlyWhen`, `CiPrereqs.FixtureAloneHasNoScope`).

## Model

| member | source | states |
|---|---|---|
| `StorageScan.StepKeepsInv` | crates/bookclerk-acquire/src/storage_scan.rs:55-119 | every event (storage mutation, lease takeover, reclaim, start, crash, registration, page, row insert, checkpoint, completion, cursor restart) keeps the scan invariant, unless it brings back a vanished generation on whose lost rows someone relies |
| `StorageScan.RunKeepsInv` | crates/bookclerk-acquire/src/storage_scan.rs:55-119 | so does every interleaving of such steps |
| `StorageScan.CleanExactlyWhen` | crates/bookclerk-acquire/src/storage_scan.rs:71-119 | after any run of clean steps the promises hold, and the next step is clean if and only if they then hold on every further run of clean steps; an unclean one has a continuation that completes a generation with a row missing, or returns an index whose generation is not complete |
| `StorageScan.ReviveExactlyWhen` | crates/bookclerk-library/src/store/storage_scan.rs:249-285 | bringing a vanished generation back keeps the invariant if and only if every worker and saved checkpoint that may still rely on it is borne out by the rows it has |
| `StorageScan.CompleteGenerationCovers` | crates/bookclerk-acquire/src/storage_scan.rs:185-262 | a completed registered generation has all rows of every visible key present throughout its life, and only rows of visible keys its store really held |
| `StorageScan.ReturnedIndexIsComplete` | crates/bookclerk-acquire/src/storage_scan.rs:96-119 | a returned index names a generation of the worker's own site that is complete as long as it is registered |
| `StorageScan.DecodesWhatPersistWrote` | crates/bookclerk-acquire/src/storage_scan.rs:162-183 | a checkpoint is accepted if and only if it is what a save writes, of this version, operation and storage instance, and it is returned as saved |
| `StorageScan.AdoptsExactlyWhen` | crates/bookclerk-acquire/src/storage_scan.rs:66-95 | adoption without listing happens if and only if the checkpoint is an apply checkpoint of this site whose generation is registered, complete and of this instance |
| `StorageScan.ResumesExactlyWhen` | crates/bookclerk-acquire/src/storage_scan.rs:66-95 | a scan is resumed if and only if the saved checkpoint is a list checkpoint of this site whose generation is registered for this instance, and then from exactly that checkpoint |
| `StorageScan.UntrustedGenerationRescans` | crates/bookclerk-acquire/src/storage_scan.rs:71-95 | a missing, incomplete or foreign generation leads to a scan from the first page under a new generation |
| `StorageScan.AdoptionIsSound` | crates/bookclerk-acquire/src/storage_scan.rs:75-95 | in every reachable state the adopted generation is a finished scan of the worker's own site that covers it |
| `StorageScan.PersistedKeepsInv` | crates/bookclerk-acquire/src/storage_scan.rs:264-291 | a fenced checkpoint write, a lost fence and the fence-less case all keep the invariant |
| `StorageScan.BadCursorKeepsInv` | crates/bookclerk-acquire/src/storage_scan.rs:97-110 | the single restart after an invalid cursor keeps the invariant; where it leads is `ScanProgress.BadCursorRestarts` |
| `StorageScan.BindKeepsInv` | crates/bookclerk-library/src/store/storage_scan.rs:249-285 | registering a generation, new, known, or vanished with nobody relying on lost rows, keeps the invariant |
| `StorageScan.SoleHolder` | crates/bookclerk-acquire/src/storage_scan.rs:121-138 | an unregistered generation id is held by its minter alone |
| `StorageScan.ReplayAddsNothing` | crates/bookclerk-library/src/store/storage_scan.rs:490-511 | replaying rows that are already stored changes nothing in the database |
| `StorageScan.QuietRun` | crates/bookclerk-acquire/src/storage_scan.rs:185-262 | a generation minted while its store does not change still describes it at the end of the run |
| `StorageScan.QuietInventory` | crates/bookclerk-acquire/src/storage_scan.rs:214-241 | on unchanged storage the rows of a complete generation are those of the visible keys, exactly those without metadata probing, whatever crashes and resumes produced them |
| `StorageScan.DeletedMidScan` | crates/bookclerk-acquire/src/storage_scan.rs:111-118 | for every visible key with rows, a run from the empty system in which a generation deleted during its scan is returned as an index without rows |
| `StorageScan.DeletedBeforeBind` | crates/bookclerk-acquire/src/storage_scan.rs:71-96 | likewise a run (first page, save, crash, decision to resume, deletion, registration) after which the generation is complete without the rows of a key that never left the store |
| `ScanProgress.BadCursorRestarts` | crates/bookclerk-acquire/src/storage_scan.rs:97-110 | from every reachable state a worker that lists under its lease and gets an invalid cursor drops its generation with its rows, registers a fresh one, saves a first-page checkpoint for it and lists again; a second invalid cursor fails the worker and changes nothing else |
| `ScanProgress.RestartCanFinish` | crates/bookclerk-acquire/src/storage_scan.rs:97-119 | and has a run of clean steps that finishes it with the fresh generation complete |
| `ScanProgress.WorkerCanFinish` | crates/bookclerk-acquire/src/storage_scan.rs:111-262 | whatever it is doing, a worker that has not failed and holds its lease can finish on its own generation, which is complete then |
| `ScanProgress.StartCanFinish` | crates/bookclerk-acquire/src/storage_scan.rs:55-95 | in every reachable state a start fails if and only if the job's checkpoint is of another instance; every other start can finish |
| `ScanProgress.PageSurvivesCrash` | crates/bookclerk-acquire/src/storage_scan.rs:185-262 | when a worker dies behind the checkpoint of a page, the next worker of the job goes on in the same generation from exactly the next cursor, and no row is lost |
| `ScanProgress.FinishSurvivesCrash` | crates/bookclerk-acquire/src/storage_scan.rs:71-95 | when it dies behind the last checkpoint, the next one returns the same complete generation without listing |
| `ScanProgress.TakeoverFences` | crates/bookclerk-acquire/src/storage_scan.rs:264-291 | taking a job's lease leaves every earlier worker of the job stale |
| `ScanProgress.FencedForGood` | crates/bookclerk-acquire/src/storage_scan.rs:264-291 | a stale worker that saves, after whatever else happens, writes nothing and fails |
| `Keys.AudioByRank` | crates/bookclerk-acquire/src/reconcile.rs:778-790 | the media rank separates audio from the rest except for keys without a dot |
| `Keys.RankByPreference` | crates/bookclerk-acquire/src/reconcile.rs:778-790 | packaged formats are preferred in their order and before anything else, encrypted leftovers come last |
| `Keys.HiddenExactlyWhen` | crates/bookclerk-acquire/src/storage_scan.rs:293-302 | a key is internal if and only if a whole segment of its path is the staging, index or orphan folder, or a dotted name with the temporary-file mark in it |
| `Keys.IdsExactlyWhen` | crates/bookclerk-acquire/src/reconcile.rs:708-730 | an identity is extracted if and only if a candidate for it stands between brackets, is the stem of a path segment, or is a word of one |
| `Keys.PieceExactly` | crates/bookclerk-acquire/src/reconcile.rs:708-727 | cutting a string gives exactly the pieces without separators that stand between separators or ends |
| `Keys.AsinIsCandidate` | crates/bookclerk-acquire/src/reconcile.rs:733-753 | ten to twelve letters and digits behind a B, in either case, are a candidate and count in upper case |
| `Keys.IsbnIsCandidate` | crates/bookclerk-acquire/src/reconcile.rs:733-767 | so are thirteen digits, also when a hyphen or a space divides them, and count without it |
| `Keys.IsbnHoldsNoLetter` | crates/bookclerk-acquire/src/reconcile.rs:755-767 | and nothing that holds any other character counts as one |
| `Keys.IdsAreCanonical` | crates/bookclerk-acquire/src/reconcile.rs:708-765 | whatever the path, an extracted identity is an upper-case ASIN or thirteen digits |
| `Keys.BracketFormIsFound` | crates/bookclerk-acquire/src/reconcile.rs:708-716 | an identity in brackets is extracted wherever it stands in the key |
| `Keys.StemFormIsFound` | crates/bookclerk-acquire/src/reconcile.rs:718-722 | an identity that is the file stem is extracted, in a folder or at the root |
| `Keys.TokenFormIsFound` | crates/bookclerk-acquire/src/reconcile.rs:718-727 | so is one set apart by spaces, underscores or hyphens in the stem |
| `Lookup.FirstLive` | crates/bookclerk-acquire/src/reconcile.rs:362-399 | the paged search over an ordered table returns exactly the least row that passes the test and still exists, or nothing if there is none |
| `Lookup.StreamSearch` | crates/bookclerk-acquire/src/reconcile.rs:401-448 | the search without an index returns the (rank, key)-least carrier in the listing; it fails only when the listing cannot be read to its end in a million pages or a page returns its own cursor, unless a carrier of the best rank came first |
| `Lookup.SmallIsReadable` | crates/bookclerk-acquire/src/reconcile.rs:401-448 | a backend with a key on every page is read within as many pages as keys |
| `Lookup.StreamIdentity` | crates/bookclerk-acquire/src/reconcile.rs:401-448 | for an identity in any case it returns the best of all keys that carry the upper-cased id, internal and non-audio ones included |
| `Lookup.StreamFirst` | crates/bookclerk-acquire/src/reconcile.rs:587-628 | the wildcard search without an index returns the first matching key in listing order, with the same failures |
| `Lookup.BetterIsTotalOrder` | crates/bookclerk-library/src/store/storage_scan.rs:101-135 | the (rank, key) row order is a strict total order |
| `Overlay.PickBest` | crates/bookclerk-acquire/src/reconcile.rs:770-775 | the earliest candidate of least rank |
| `Overlay.StorageIndex.InsertKey` | crates/bookclerk-acquire/src/reconcile.rs:65-70 | the index holds, for every identity, exactly the inserted keys that carry it, in order |
| `Overlay.StorageIndex.BestKeyForAsin` | crates/bookclerk-acquire/src/reconcile.rs:107-115 | the earliest inserted key of least rank that carries the identity |
| `Overlay.OverlayFindsExactlyWhen` | crates/bookclerk-acquire/src/reconcile.rs:107-115 | the index answers if and only if an inserted key carries the upper-cased id or the digits of the ISBN |
| `Reconcile.FirstLiveIdentity` | crates/bookclerk-acquire/src/reconcile.rs:362-399 | the identity lookup through the scan is the (rank, key)-least live candidate |
| `Reconcile.BestIdentity` | crates/bookclerk-acquire/src/reconcile.rs:345-360 | the in-process index answers first when its candidate's probe answers, else the scan does |
| `Reconcile.FindPattern` | crates/bookclerk-acquire/src/reconcile.rs:548-585 | the wildcard lookup through the scan is the key-least live match |
| `Reconcile.FindExistingForBook` | crates/bookclerk-acquire/src/reconcile.rs:297-331 | stored key, exact plans, wildcards, raw template plans and identities are tried in that order; a failing probe is an error, never a miss |
| `Reconcile.FoundIsLive` | crates/bookclerk-acquire/src/reconcile.rs:297-331 | whichever rule matched, the returned key exists |
| `Reconcile.BookIdsExactly` | crates/bookclerk-acquire/src/reconcile.rs:318-330 | the identities tried for a book are its product id, its ASIN and its ISBN, each whenever it has one |
| `Reconcile.FoundByFirstRule` | crates/bookclerk-acquire/src/reconcile.rs:297-331 | the key found is the one that the first of these rules, at its first position with an answer, gives: the stored key, the exact plans, the wildcards, the raw template plans, the identities |
| `Reconcile.SelectedExactlyWhen` | crates/bookclerk-acquire/src/reconcile.rs:203-226 | the filter passes a book if and only if it is empty or names, in any case, its uuid, product id, ASIN or ISBN |
| `Reconcile.ReconcileOne` | crates/bookclerk-acquire/src/reconcile.rs:203-286 | the new row and the counted outcome of one book, for every option combination and failing probes |
| `Reconcile.VerdictIsStable` | crates/bookclerk-acquire/src/reconcile.rs:227-284 | handling a book a second time leaves it as it is |
| `Reconcile.ReconcileLibrary` | crates/bookclerk-acquire/src/reconcile.rs:170-201 | paging through the library handles every listed book exactly once and leaves the others alone, although rows are written back while paging; a failing lookup ends the run before its book is touched |
| `Reconcile.StoppedRunKeepsRows` | crates/bookclerk-acquire/src/reconcile.rs:227-284 | a run ended by a failing probe has left every row as it was or as its own completed lookup decided |
| `Reconcile.CountersAddUp` | crates/bookclerk-acquire/src/reconcile.rs:118-127 | in a run without failing probes matched, cleared and unchanged add up to the number of books that pass the filters |
| `Reconcile.SecondRunChangesNothing` | crates/bookclerk-acquire/src/reconcile.rs:170-286 | a second run over unchanged storage changes no row and reports nothing matched or cleared |
| `Reconcile.NothingFoundExactlyWhen` | crates/bookclerk-acquire/src/reconcile.rs:297-331 | a lookup ends with nothing if and only if no key that exists or cannot be probed is the stored key, a planned path, a scanned match of a pattern, or scanned under the product id, ASIN or ISBN of the book |
| `Reconcile.ClearedOnlyWhenUnfindable` | crates/bookclerk-acquire/src/reconcile.rs:258-284 | a row is cleared if and only if clearing is asked for, the row is selected and acquired, and no such key exists; nothing else about the row changes |
| `Inventory.ScannedExactly` | crates/bookclerk-acquire/src/storage_scan.rs:214-241 | a finished scan of unchanged storage holds a row if and only if its key is stored, visible and gives rise to it |
| `Inventory.ScansAgree` | crates/bookclerk-acquire/src/storage_scan.rs:55-119 | two finished scans of equal stores hold equal rows, whatever their histories |
| `Inventory.IdentityFoundExactlyWhen` | crates/bookclerk-acquire/src/reconcile.rs:345-399 | an identity lookup succeeds if and only if a visible audio object carries the upper-cased id |
| `Inventory.UncanonicalIdIsNeverFound` | crates/bookclerk-acquire/src/reconcile.rs:318-330 | an id that is not canonical once upper-cased is never found |
| `Inventory.HyphenatedIsbnIsNotCanonical` | crates/bookclerk-acquire/src/reconcile.rs:755-767 | an ISBN written with a hyphen is such an id |
| `Inventory.CarriedBookIsKept` | crates/bookclerk-acquire/src/reconcile.rs:203-286 | a book whose product id, ASIN or ISBN a visible audio object carries is never cleared, failing probes included, and outside clear-only mode ends acquired at a key that exists, after any crash and resume history of the scan |
| `Inventory.CarriedBooksAreKept` | crates/bookclerk-acquire/src/reconcile.rs:170-201 | in the reconciled library, and in one whose run was stopped by a failing probe, no such row is cleared, and one of the account asked for that was handled outside clear-only mode is acquired at a key that exists |
| `Inventory.EmptyIndexClears` | crates/bookclerk-acquire/src/reconcile.rs:258-284 | through an index without rows an acquired row is cleared if and only if neither its stored key nor a planned path exists, whatever audio of the book is stored |
| `Inventory.DeletedScanClearsCarried` | crates/bookclerk-acquire/src/storage_scan.rs:111-118 | a run of the scan that returns such an index while the audio of the book never left the store |
| `Inventory.RescanChangesNothing` | crates/bookclerk-acquire/src/reconcile.rs:170-201 | a second reconcile of unchanged storage through a scan of its own does nothing |
| `Inventory.IndexAgreesExactlyWhen` | crates/bookclerk-acquire/src/reconcile.rs:345-360 | the indexed lookup equals the plain search, the best of all carriers, if and only if that is nothing or a visible audio object |
| `Inventory.AudioHolderWins` | crates/bookclerk-acquire/src/reconcile.rs:401-448 | one visible audio carrier suffices when no internal and no extensionless key carries the id |
| `Convert.Mp3IsNotConvertible` | crates/bookclerk-acquire/src/convert.rs:78-85 | the key a conversion writes is never one a conversion would delete |
| `Convert.Mp3ClashExactlyWhen` | crates/bookclerk-acquire/src/naming.rs:424-430 | two objects share the key of their MP3 if and only if they differ in nothing but the extension |
| `Convert.ConvertibleExactlyWhen` | crates/bookclerk-acquire/src/convert.rs:78-85 | an object is converted if and only if its extension is m4b or m4a, in any case |
| `Convert.ActWithin` | crates/bookclerk-acquire/src/convert.rs:155-256 | each action of a conversion keeps its scratch bytes within its ledger row |
| `Convert.AdmittedFits` | crates/bookclerk-library/src/store/job_queue.rs:1256-1305 | an admitted reservation keeps the sum of the ledger within the quota |
| `Convert.ScratchWithinQuota` | crates/bookclerk-acquire/src/convert.rs:155-307 | over every interleaving of job-owned conversions with obedient encoders, failures, cancellations, crashes and failed clean-up included, each conversion stays within its reservation and all together within the quota |
| `Convert.EncodingIsExclusive` | crates/bookclerk-acquire/src/convert.rs:223-240 | while one conversion encodes, no other holds a byte of reservation or scratch |
| `Convert.ClampedRowIsExceeded` | crates/bookclerk-library/src/store/job_queue.rs:1290-1305 | for every quota past the signed 64-bit range a legal run outgrows its stored row |
| `Convert.StepSafe` | crates/bookclerk-acquire/src/convert.rs:85-307 | every step keeps the order of publication and, when no two rows share a convertible key, library keys naming stored objects |
| `Convert.LibraryNeverDangles` | crates/bookclerk-acquire/src/convert.rs:85-97 | at every point of every run each library row names a stored object, if and only if no two rows named one convertible object at the start |
| `Convert.PublishIsJustified` | crates/bookclerk-acquire/src/convert.rs:207-266 | a publication has a non-empty input of the advertised size whose bytes and output fit the quota together |
| `Convert.SourceDeletedLast` | crates/bookclerk-acquire/src/convert.rs:266-278 | the source is deleted only after the MP3 is stored and recorded |
| `Convert.ReleasedOnlyWhenGone` | crates/bookclerk-acquire/src/convert.rs:283-305 | a ledger row disappears only when its conversion has no scratch left; that it does disappear is `ConvertProgress.LedgerIsGivenBack` |
| `Convert.SharedSourceDangles` | crates/bookclerk-acquire/src/convert.rs:266-278 | for every two rows that share a convertible key, a run without any failure that converts one book and strands the other |
| `ConvertProgress.LedgerIsGivenBack` | crates/bookclerk-acquire/src/convert.rs:283-305 | over every run from an empty ledger without a crash, a failed clean-up or a failed release, exactly the conversions between their reservation and their release hold a row, so that the ledger is empty once all are done |
| `ConvertProgress.FittingConversionCompletes` | crates/bookclerk-acquire/src/convert.rs:155-307 | a job-owned conversion whose input and output fit its quota has a run that publishes the MP3, records it, deletes the source and ends with no scratch and an empty ledger |
| `ConvertProgress.EveryConversionCanEnd` | crates/bookclerk-acquire/src/convert.rs:283-305 | from every state of such a run each conversion can be brought to its end, with its row given back |
| `ConvertProgress.OnlyOwnedHold` | crates/bookclerk-acquire/src/convert.rs:164-178 | over every run, crashes included, only job-owned conversions hold ledger rows |
| `ConvertProgress.TogetherExactlyWhen` | crates/bookclerk-acquire/src/convert.rs:164-178 | two job-owned conversions of known size copy at the same time if and only if twice both sizes fit the quota together; the second is refused otherwise |
| `ConvertProgress.UnknownSizeIsAlone` | crates/bookclerk-acquire/src/convert.rs:164-178 | next to one of unknown size none is admitted |
| `Acquire.FindExistingForRequest` | crates/bookclerk-acquire/src/reconcile.rs:460-524 | planned paths, their patterns, raw template paths and the id are tried in that order over the live listing; a failing probe or listing is an error, never a miss |
| `Acquire.FindAccepts` | crates/bookclerk-acquire/src/reconcile.rs:460-524 | the lookup returns a stored key that one of its rules accepts, if and only if there is one |
| `Acquire.FindGrows` | crates/bookclerk-acquire/src/reconcile.rs:460-524 | as keys are added the answer stays the same or becomes a new key |
| `Acquire.FoundByFirstRule` | crates/bookclerk-acquire/src/reconcile.rs:460-524 | the key found is the one that the first rule with an answer gives at its first position: planned paths, their patterns, raw template paths, their patterns, the id |
| `Acquire.PlanExisting` | crates/bookclerk-acquire/src/pipeline.rs:605-695 | skip, sync, refetch missing or fetch all, as a function of which destinations have a hit; a failing lookup fails the plan |
| `Acquire.MissingExactly` | crates/bookclerk-acquire/src/pipeline.rs:636-672 | the missing list is exactly the destinations without a hit |
| `Acquire.StorePrepared` | crates/bookclerk-acquire/src/pipeline.rs:812-881 | destination by destination, three tries each, stopping at the first failure, honouring the filter |
| `Acquire.WriteFiles` | crates/bookclerk-acquire/src/pipeline.rs:884-910 | the files written before a failing one stay |
| `Acquire.StoreAllDelivers` | crates/bookclerk-acquire/src/pipeline.rs:812-881 | a fetch only adds files of the title or puts them in place of what was there, only touches allowed destinations, and on success has delivered every file to each of them |
| `Acquire.StoreAllInOrder` | crates/bookclerk-acquire/src/pipeline.rs:812-881 | a later destination is written to only once every earlier one has everything |
| `Acquire.SyncMissingDestinations` | crates/bookclerk-acquire/src/pipeline.rs:701-752 | one existing object copied to each missing destination in turn |
| `Acquire.SyncAllCopies` | crates/bookclerk-acquire/src/pipeline.rs:701-752 | a sync adds at most its one object, only at missing destinations, and on success at all of them |
| `Acquire.AcquireBook` | crates/bookclerk-acquire/src/pipeline.rs:124-301 | the status, the stored objects and the touched destinations after one attempt, failing lookups included |
| `AcquireRuns.RunStocks` | crates/bookclerk-acquire/src/pipeline.rs:155-297 | over any sequence of attempts, however keys are named, acquired implies that every destination stores an object, and no key ever disappears |
| `AcquireRuns.TwoFailuresAreAbsorbed` | crates/bookclerk-acquire/src/pipeline.rs:698-881 | an attempt that gets its lookups, its fetch and its quota ends acquired through any two failing writes, whatever it plans |
| `AcquireRuns.ThreeFailuresAreNot` | crates/bookclerk-acquire/src/pipeline.rs:836-881 | three in a row at the first destination end it without |
| `AcquireRuns.CopiedExactlyWhen` | crates/bookclerk-acquire/src/pipeline.rs:727-750 | one object of a sync arrives if and only if one of its tries succeeds |
| `AcquireRuns.FailedFetchIsNotAcquired` | crates/bookclerk-acquire/src/pipeline.rs:256-296 | a fetch that fails or exceeds the quota leaves the title failed, or in progress when the attempt died; a failed download writes nothing |
| `AcquireRuns.AcquiredIsHeldExactlyWhen` | crates/bookclerk-acquire/src/pipeline.rs:155-297 | over any sequence of attempts with partial failures acquired implies that every destination stores audio of the title, if and only if nothing stored before could mislead the lookup: a hit where everything accepted is non-audio or internal, unless refetch-all is sure to repair it, or a sync source that is not audio of the title |
| `AcquireRuns.ExposedRun` | crates/bookclerk-acquire/src/pipeline.rs:605-695 | otherwise, in every mode, a run that ends acquired without the title |
| `AcquireRuns.CoverOnlyIsAccepted` | crates/bookclerk-acquire/src/reconcile.rs:401-448 | with nothing but a cover named after the title and its id at every destination the title is acquired at once, without audio |
| `Acquire.HoldersAreLeftAlone` | crates/bookclerk-acquire/src/pipeline.rs:605-695 | outside refetch-all an unforced attempt writes to no destination that already has a hit |
| `AcquireRuns.SingleFileIsWhole` | crates/bookclerk-acquire/src/pipeline.rs:155-297 | for a title of one file, acquired implies every destination holds all of it, however keys are named |
| `AcquireRuns.WholeExactlyWhen` | crates/bookclerk-acquire/src/pipeline.rs:155-297 | when the lookup accepts the keys that a fetch writes, every run from nothing that ends acquired has every file at every destination if and only if the title is one file |
| `AcquireRuns.InterruptedWriteIsAccepted` | crates/bookclerk-acquire/src/pipeline.rs:838-872 | for any number of destinations, a write interrupted behind an accepted file of the last one, followed by one more attempt, is acquired without the last file |
| `AcquireRuns.SyncCopiesOneFile` | crates/bookclerk-acquire/src/pipeline.rs:727-750 | a sync leaves every empty destination it fills without the other files |
| `AcquireRuns.SyncKeepsExtension` | crates/bookclerk-acquire/src/pipeline.rs:701-752 | a sync that ends acquired has put exactly the source's content, under its extension, at each destination it filled |
| `Relocate.AccompanyingKeys` | crates/bookclerk-acquire/src/match_storage.rs:396-419 | exactly the allowlisted companions, each once, folder names only for a sole audio object |
| `Relocate.SidecarFollows` | crates/bookclerk-acquire/src/match_storage.rs:464-476 | a stem-prefixed sidecar is remapped to the same sidecar of the new key |
| `Relocate.MetaFollowsExactlyWhen` | crates/bookclerk-acquire/src/match_storage.rs:464-476 | the integrity sidecar follows if and only if the extension stays |
| `Relocate.FolderFileFollows` | crates/bookclerk-acquire/src/match_storage.rs:477-481 | a bare folder file keeps its name in the new folder |
| `Relocate.CountAudio` | crates/bookclerk-acquire/src/match_storage.rs:421-461 | the paged count is exact up to one and says two beyond; it fails only when the folder listing cannot be read to its end in ten thousand pages or a page returns its own cursor |
| `Relocate.InFolderIsListed` | crates/bookclerk-acquire/src/match_storage.rs:421-426 | everything directly in a folder is under the listed prefix |
| `Relocate.RelocateWithSidecars` | crates/bookclerk-acquire/src/match_storage.rs:341-388 | the store after a relocation for every outcome of probes and renames; bare folder companions are considered only when the folder has at most one audio object; no object is lost when it fails, the audio rename included, or when target probes work |
| `Relocate.RelocationConserves` | crates/bookclerk-acquire/src/match_storage.rs:341-388 | while target probes work no stored object is lost, and the multiset of objects is conserved unless a delete failed behind a copy |
| `Relocate.RelocationTouchesOnlyCompanions` | crates/bookclerk-acquire/src/match_storage.rs:361-386 | every other object keeps its key and content |
| `Relocate.AudioArrives` | crates/bookclerk-acquire/src/match_storage.rs:341-360 | the audio is at its new key when a relocation ends, whatever happened to the companions |
| `Relocate.CompanionFollowsExactlyWhen` | crates/bookclerk-acquire/src/match_storage.rs:361-386 | a stored companion whose new key is free ends there, with its content and gone from the old key, if and only if its source probe and its rename succeed |
| `Relocate.CompanionArrivesExactlyWhen` | crates/bookclerk-acquire/src/match_storage.rs:361-386 | likewise for any list of companions; one whose new key is taken stays where it is, and so does what is there |
| `Relocate.StepLosesExactlyWhen` | crates/bookclerk-acquire/src/match_storage.rs:363-385 | a companion step loses an object if and only if its target probe fails over an existing object that the rename replaces |
| `Relocate.RelocationKeepsExactlyWhen` | crates/bookclerk-acquire/src/match_storage.rs:341-388 | while every copy is followed by its delete, a whole relocation keeps every object if and only if none of its steps does that |
| `Wire.BitsRoundTrip` | packages/plugin-sdk-python/src/bookclerk_plugin_sdk/_capnp.py:176-181 | numbers survive their bits |
| `Wire.SlotSurvives` | scripts/sdk_emitters.py:1330-1377 | a write to a disjoint slot leaves a slot as it was |
| `Emitters.ScalarRoundTrip` | scripts/sdk_emitters.py:1380-1418 | every in-range scalar is read back from its raw bits |
| `Emitters.EmitWriter` | scripts/sdk_emitters.py:1420-1459 | the one-pass emitter yields the program of the whole struct, in both languages |
| `CodecRoundTrip.WriterMeansEncode` | scripts/sdk_emitters.py:1330-1377 | the emitted writer makes exactly the calls of the reference encoder, Python for every value, TypeScript for well-typed ones |
| `CodecRoundTrip.WritersAgree` | scripts/sdk_emitters.py:923-988 | the two writers issue the same allocations and slot writes for every schema and well-typed value |
| `CodecRoundTrip.MessageRoundTrip` | scripts/sdk_emitters.py:1420-1501 | decoding an encoded value gives its normal form, for every schema, disjoint layout and well-typed value; longer messages than the reader's budget are rejected. What the normal form keeps is `CodecExact.RoundTripExactly` |
| `CodecRoundTrip.LossyExactlyWhen` | scripts/sdk_emitters.py:1380-1418 | the normal form drops only zero optionals if and only if no list of wordless structs has an element |
| `CodecRoundTrip.PromisedRoundTrip` | scripts/sdk_emitters.py:1330-1501 | the promised round trip holds if and only if the value is intact in that sense |
| `CodecRoundTrip.WordlessListIsLost` | scripts/sdk_emitters.py:1330-1377 | the smallest value that is not intact |
| `CodecExact.RoundTripExactly` | scripts/sdk_emitters.py:1420-1501 | within the reader's budget a round trip gives back exactly the one value that agrees with the original, said of the two values alone and at every depth: the same union members and plain values, the fields that are not a blank optional (empty, a zero of either sign) or a null capability, the same list items except those of structs without words |
| `CodecExact.FieldSurvivesExactlyWhen` | scripts/sdk_emitters.py:1056-1065 | a field is there after the round trip if and only if it was there and is not such a blank optional or null capability, and a field without structs in it comes back with its own value |
| `CodecExact.UnchangedExactlyWhen` | scripts/sdk_emitters.py:1420-1501 | a value comes back unchanged if and only if it has no such blank, no field outside its schema and no non-empty wordless list |
| `CodecExact.ScalarDomain` | scripts/sdk_emitters.py:1330-1377 | the well-typed values of each scalar kind, by width and sign |
| `CodecExact.FieldLiesIn` | scripts/sdk_emitters.py:1330-1377 | in the message a number lies at a multiple of its width, lowest bit first and in two's complement, an enum by its position, text with a closing zero, at the pointer of its field |
| `CodecExact.MemberLiesIn` | scripts/sdk_emitters.py:1420-1459 | a union message holds the discriminant of its member in 16 bits, and the member's value likewise |
| `CiClosure.Close` | scripts/ci_plan/plan.py:705-718 | the worklist terminates with the least set that holds the seeds and is closed under compile consumers, records exactly the justified reasons, and each first reason is a seed's or names an earlier package |
| `CiClosure.ExplanationsEnd` | scripts/ci_plan/plan.py:705-718 | following first reasons reaches a seed in at most as many steps as packages were compiled before |
| `CiClosure.ClosureIsMonotone` | scripts/ci_plan/plan.py:705-718 | more seeds compile more packages |
| `CiPlan.ValidatedIsOk` | scripts/ci_plan/plan.py:257-293 | validated relations over Cargo metadata classify every path to known packages and checks |
| `CiPlan.Survey` | scripts/ci_plan/plan.py:620-699 | the loop over changed paths merges what each of them touches |
| `CiPlan.SurveyIsMonotone` | scripts/ci_plan/plan.py:620-699 | a larger change set touches at least as much and escalates whenever the smaller one does |
| `CiPlan.SelectPackages` | scripts/ci_plan/plan.py:719-764 | compiled packages, dev consumers, launching tests and test inputs: exactly the raised packages with exactly the raised flags |
| `CiChecks.BuildPlan` | scripts/ci_plan/plan.py:593-770 | the plan for a list of paths: empty, full, or selective over the least closure; which checks and packages that selects is `CiSelect.PlanExactly` |
| `CiChecks.ReasonsTell` | scripts/ci_plan/plan.py:854-858 | the recorded reasons tell a direct source change from a dependency |
| `CiChecks.RaisesGrow` | scripts/ci_plan/plan.py:728-764 | a dev edge, launched guest or test input of the smaller change has an at least as strong counterpart in the larger one |
| `CiChecks.PickedGrows` | scripts/ci_plan/plan.py:777-912 | every check picked for the smaller change is picked for the larger one; which are picked is `CiSelect.PlanExactly` |
| `CiChecks.FullCoversSelective` | scripts/ci_plan/plan.py:915-952 | the full suite covers every selective plan |
| `CiChecks.PlanningIsMonotone` | scripts/ci_plan/plan.py:593-952 | for change sets contained in one another the larger plan runs every check, package target, end-to-end scope, release mode, postgres step and job of the smaller one, whether or not it escalates |
| `CiSelect.FullExactly` | scripts/ci_plan/plan.py:620-699 | a path escalates to the full suite if and only if it is one of the global files, or no rule classifies it |
| `CiSelect.ClosureByChains` | scripts/ci_plan/plan.py:705-718 | a package is compiled if and only if a chain of compile consumers leads to it from a changed package |
| `CiSelect.PlanExactly` | scripts/ci_plan/plan.py:593-912 | the full plan if and only if some path escalates; otherwise every check, package target, end-to-end scope, release mode and postgres step is planned if and only if a condition on the changed paths, those chains and the declared relations asks for it |
| `CiSelect.SourceChangeIsTested` | scripts/ci_plan/plan.py:728-850 | a changed source file of a package formats, lints and documents, and every transitive compile consumer of the package, the end-to-end crate excepted, is tested by a planned Rust test |
| `CiPrereqs.AddPrereq` | scripts/ci_plan/plan.py:955-969 | one item per kind in declared order, package lists merged, other kinds untouched |
| `CiPrereqs.MergedNames` | scripts/ci_plan/plan.py:959-964 | merging keeps the union of the package lists |
| `CiPrereqs.ExpandPrereqs` | scripts/ci_plan/plan.py:972-1055 | every check gets exactly the builds, pinned binaries, installs and staging it needs, in declared order; it fails if and only if a selected end-to-end check has no scope |
| `CiNeeds.NeedsExactly` | scripts/ci_plan/plan.py:972-1055 | said of the plan, the workspace and the guests: which packages are built before each planned check, whether it gets pinned workerd and the platform, which guests are staged, builds first and staging last |
| `CiNeeds.GuestChangeIsStaged` | scripts/ci_plan/plan.py:860-1030 | when a change compiles the package of a guest, the end-to-end check is planned, the guest is built for it if it is native, and staged if it is not of the platform |
| `CiNeeds.GuestDirOf` | scripts/ci_plan/plan.py:679-690 | the guest of a path is known by the first two components |
| `CiNeeds.AnyGlobExactly` | scripts/ci_plan/plan.py:688-699 | a list of patterns matches a path if and only if one of its patterns does |
| `CiNeeds.AnyPrefixExactly` | scripts/ci_plan/plan.py:620-640 | a path is under a list of prefixes if and only if it continues one of them |
| `CiPrereqs.ScopeMissingExactlyWhen` | scripts/ci_plan/plan.py:806-876 | that happens if and only if the change set is not empty, does not escalate, and touches a fixture that asks for the end-to-end check while nothing else does: no end-to-end path or test, no source change in its packages, no guest package and no smoke-tested package in the closure |
| `CiPrereqs.FixtureAloneHasNoScope` | scripts/ci_plan/plan.py:806-807 | a change set of one fixture for which it happens |
| `CiPrereqs.PrereqsGrow` | scripts/ci_plan/plan.py:972-1055 | prerequisites grow with the plan |
| `CiExec.RunCheck` | scripts/ci_plan/execute.py:684-706 | own commands only after all prerequisites succeeded, a prerequisite only after the earlier ones, each succeeds at most once; the call runs what is left to do in order and stops at the first failure, and its result says whether it got to the end |
| `CiExec.WorkExactly` | scripts/ci_plan/execute.py:684-706 | left to do are exactly the prerequisites that no earlier call completed and all own commands |
| `CiExec.CheckSucceedsExactlyWhen` | scripts/ci_plan/execute.py:684-706 | a call succeeds if and only if every one of these commands does, and has then run each of them in order; a failing call ends with the failing command |
| `CiExec.RunChecks` | scripts/ci_plan/execute.py:684-706 | the same over any sequence of calls on one artifact |
| `CiExec.KindsInOrder` | scripts/ci_plan/execute.py:646-661 | a prerequisite runs after the success of every one of an earlier kind |
| `CiExec.Gate` | scripts/ci_plan/execute.py:713-731 | no problems if and only if the plan job succeeded, every planned job ended as expected and no unknown job was gated |
| `CiExec.JobsPlannedExactlyWhen` | scripts/ci_plan/plan.py:1058-1059 | a plan names all jobs if and only if some path changed |
| `CiExec.EmptyGateMeansPlanned` | scripts/ci_plan/execute.py:713-731 | the jobs ended as expected if and only if the job of every selected check succeeded and every job without one was skipped |
| `CiExec.EveryCheckHasAJob` | scripts/ci_plan/plan.py:119-145 | every enrolled check belongs to a job |
| `Delivery.Scan` | tools/diagnostics-collector/worker.js:170-203 | the loop consumes a prefix of the backlog, returns its good files, leaves the cursor at its last file, and stops at the first accepted file behind a hundred reports |
| `Delivery.Report` | tools/diagnostics-collector/worker.js:160-221 | the same for the filtered and sorted listing |
| `Basics.LessExactlyWhen` | tools/diagnostics-collector/worker.js:238-246 | names are in dictionary order: at the first place where they differ the smaller character, or the end, comes first |
| `Delivery.AdvancesToNext` | tools/diagnostics-collector/worker.js:238-246 | along the sorted backlog the cursor moves to each file in turn |
| `Delivery.ListIncoming` | tools/diagnostics-collector/worker.js:453-483 | the listing is a prefix, and whole unless it reports truncation |
| `Delivery.DeliversExactlyOnce` | tools/diagnostics-collector/worker.js:160-221 | over any run of uploads, calls and failed calls every good file up to the cursor is delivered exactly once, in order, none skipped |
| `Delivery.CallProgress` | tools/diagnostics-collector/worker.js:170-203 | a successful call drains the backlog or delivers a full hundred |
| `Delivery.BacklogDrains` | tools/diagnostics-collector/worker.js:160-221 | a finite backlog is delivered after finitely many calls, failed calls in between or not |
| `Delivery.TruncatedListingExactlyWhen` | tools/diagnostics-collector/worker.js:453-483 | with a truncated listing exactly-once delivery survives a call if and only if no good file that the listing left out belongs at or before a listed file that the call reaches, one up to which no accepted file has a hundred good ones before it |
| `Delivery.PrefixListingLosesOlder` | tools/diagnostics-collector/worker.js:453-483 | a family of stores of any size whose listing in name order, cut off anywhere, loses every older upload it left out, for good |
| `Split.GroupChapters` | crates/bookclerk-acquire/src/split.rs:104-136 | the groups are consecutive nonempty runs of all chapters, cut greedily at the first boundary that is far enough, with a short tail joined to the last |
| `Split.PartitionKeepsAll` | crates/bookclerk-acquire/src/split.rs:104-136 | the groups concatenate to the chapters |
| `Split.MinimumExactlyWhen` | crates/bookclerk-acquire/src/split.rs:115-133 | one group, or every group meets the minimum, if and only if the first boundary past the minimum is that far from the first chapter too, or no later boundary is far enough from it; always when the first chapter is at 0 |
| `Split.LateFirstChapterFallsShort` | crates/bookclerk-acquire/src/split.rs:115-125 | a family of inputs whose first file is too short |
| `Split.NoPartitionIsFiner` | crates/bookclerk-acquire/src/split.rs:104-136 | no partition into consecutive runs that meet the minimum has more groups |
| `Split.CutsBound` | crates/bookclerk-acquire/src/split.rs:110-112 | without a minimum, one chapter per file cannot be exceeded |
| `Split.TrimRanges` | crates/bookclerk-acquire/src/split.rs:55-65 | each trim range runs from its group's first chapter to the next group's first chapter or the end |
| `Split.TilesAbut` | crates/bookclerk-acquire/src/split.rs:55-65 | consecutive ranges abut from the first chapter to the end of the audio |
| `Split.EveryInstantOnce` | crates/bookclerk-acquire/src/split.rs:55-65 | every instant lies in exactly one range |
| `Cue.FlattenNodes` | crates/bookclerk-acquire/src/cue.rs:126-160 | the recursive walk pushes the titled nodes in post-order |
| `Cue.CollectedInPostOrder` | crates/bookclerk-acquire/src/cue.rs:126-160 | said of positions in the tree: the walk meets exactly the titled nodes, each once, a descendant before its ancestors and earlier siblings' subtrees before later ones' |
| `Cue.ContributesExactlyWhen` | crates/bookclerk-acquire/src/cue.rs:126-160 | a node contributes a chapter if and only if its title is not blank; an integer start that is not negative is its start, the snake-case spelling first |
| `Cue.FlattenChapters` | crates/bookclerk-acquire/src/cue.rs:25-33 | strictly increasing starts, exactly the starts of titled nodes, the first in post-order winning ties |
| `Cue.FlatteningIsUnique` | crates/bookclerk-acquire/src/cue.rs:25-33 | those conditions determine the result |
| `Cue.SortIsStable` | crates/bookclerk-acquire/src/cue.rs:30-31 | the sort by start keeps the order of equal starts |
| `Cue.RebaseNodes` | crates/bookclerk-acquire/src/cue.rs:265-317 | the loop builds the rebased tree |
| `Cue.RebaseCommutes` | crates/bookclerk-acquire/src/cue.rs:265-317 | when no child starts before its parent, collecting the rebased tree is shifting and filtering the collected list, for any scaling |
| `Cue.RebasedChapters` | crates/bookclerk-acquire/src/cue.rs:265-317 | rebasing keeps the titles, in order, of the chapters before the outro, starts each at the scaled distance from the end of the intro, those within it at the scaled zero, and without scaling keeps all distances between chapters |
| `Cue.RebaseCommutesExactlyWhen` | crates/bookclerk-acquire/src/cue.rs:265-317 | in general that holds if and only if no titled descendant before the outro hangs under a dropped node |
| `Cue.EarlyChildIsLost` | crates/bookclerk-acquire/src/cue.rs:288-290 | a family of trees where a chapter is lost |

## Left out

- Changes of storage or of the scan rows while one reconcile run is under way: a run sees one set of rows and one store, and starts with an empty in-process index.
- Failing database calls during reconcile: like a failing probe they end the run; only failing existence probes are modelled.
- Naming templates, path limits and wildcard matching: planned keys and pattern tests are parameters.
- Metadata probing during a scan: the rows it may add are allowed by the scan model, not computed.
- Layout fixes across a whole library (`match_storage_to_library`): only the relocation of one title is modelled.
- The acquire scratch quota, its 50 ms watchdogs and `remaining_temp_budget`: timing based, and the initial reservation may be smaller than what a fetch writes.
- Companion PDF, cover, cue and timestamp side effects of an acquire: best effort, errors are swallowed.
- Byte-level pointer encoding of messages: a message is a tree of data bits and pointers with its word count, not a segment with offsets.
- Rust emission, documentation comments and the TypeScript reader of the schema compiler: text formatting, or the same reader in another language.
- Name orders: names are compared by character number, which differs from UTF-16 order outside the basic plane.
- `package_for_path`, test-input directories, glob matching and guest discovery of the planner: parameters of its environment.
- The commands of each CI check: only their number and order matter here.
- Chapter title post-processing, the start map alignment and the choice of the scale in `cue.rs`: the scale is any function.
- Reconcile.ReconcileLibrary: counters are unbounded numbers, the program counts in 32 bits.
- Cue.FlattenChapters: the sort and the removal of duplicates are values, not updates in place.
- Acquire.PlanExisting: the primary key reported with a plan is not modelled, nor the lookup of a single destination through a batch index, whose parts are `Reconcile.BestIdentity` and `Reconcile.FindPattern`.
- AcquireRuns.WholeExactlyWhen: assumes that the lookup accepts the keys a fetch writes; without that a title of several files may never be taken for acquired, and the one-file direction, `AcquireRuns.SingleFileIsWhole`, needs no such assumption.
