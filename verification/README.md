# Verification models

Dafny models of the workbench's durable parts, with proofs that Dafny 4.11 checks by
`dafny verify dfyconfig.toml`. The repository's own code is not changed or needed.

**The leased-worker protocol** (`Protocol*.dfy`, `LeaseTheorems.dfy`, `Repo.dfy`, `Worker.dfy`). Every transaction of
`apps/api-rust/src/repo.rs` is a serialised step on the rows of one workspace: SQLite serialises every write transaction,
PostgreSQL those that first lock the workspace row (`apps/api-rust/src/sql.rs:175-177`). Acquiring and renewing a lease
read the route and the clock without that lock, in both services (`apps/api-rust/src/repo.rs:611-638`,
`apps/api/app/repository.py:228-248`), so the system also has them as late updates, with anything between those readings
and the update (`LateAcquire`, `LateRenew`, `LateLegacyAcquire`, `LegacyRenew`). Workers hold claims that may be stale, leases expire, users
cancel, administrators cut the workspace over. `World` adds the history the claims speak of: identities drawn, claims
issued, the epoch each job was admitted in, ended tenures. The class `Repo` carries out the same transactions on mutable
rows, and the class `Worker` runs the main loop, with any interleaving of other processes between its transactions. Clock
readings are arbitrary unless a statement says that the clock does not go back.

**Named documents** (`Documents.dfy`): commits of named documents as gapless revisions, any number of them interleaved
stage by stage.

**Publication layout** (`Chunks.dfy`, `Windows.dfy`, `Paging.dfy`): the streaming chunk packer against the in-memory
splitter, and segments, pages and incremental dictionaries against the plain decoded table. `Windows` holds the part that
does not depend on what a page contains.

**Composition and merge** (`Plans.dfy`, `Merging.dfy`, `PlanUnion.dfy`): what a saved book and a plan need, the request
they compose to, the merge of requests, and the homomorphism between them.

**Catalog delivery** (`Delivery.dfy`, `Publisher.dfy`): exactly-once delivery with compare-and-swap, retries and crashes,
and when a publication or its rerun finishes.

**Object store, codec, pre-scan, import cycles** (`Objects.dfy`, `Codec.dfy`, `TablePaths.dfy`, `Prescan.dfy`,
`Cycles.dfy`).

What the code does and its surroundings do not always agree:

- `token` is not set exactly on running jobs: publication leaves it on the done job. `CurrentClaim`, `PublishesExactly`
  and `StaleForever` use the token of a running job only.
- The routing-epoch and admission-record fences of the final transaction never decide for an issued claim
  (`PublishesExactly`); they are a consequence of draining before a cutover and of the token.
- Lease exclusion between engines needs a clock that does not go back (`ClockMustNotGoBack`), and is lost where only the
  row lock serialises: under such a clock the engines are kept apart all along exactly if every late update is harmless
  (`KeptApartExactly`). Three runs show where it is not: a Rust acquisition that read its route before a cutover
  (`RouteReadNeedsTheLock`), a legacy acquisition that did (`LegacyRouteReadNeedsTheLock`), and a renewal that decides on
  an old clock reading (`RenewalNeedsTheLock`). A Rust lease so taken is idle (`PastEpochIsIdle`); the legacy service does
  not look at the route again when it claims or renews. A late renewal can also bring a lost lease back
  (`LateRenewalRevives`, `LostLeaseExactly`). Everything else is proved with late updates.
- A journal line may omit its dictionary; the page reader then leaves its coded cells as indices, although the comment at
  `apps/api-rust/src/publish.rs:472-473` says that they address the accumulated dictionary. `DecodedAsMeant` says exactly
  when the two agree, `OmittedDictionaryIsNotDecoded` gives the smallest input where they do not.
- Merging is not associative on requests whose block holds something that is not a list where the next request has a list:
  `MergeAssociative` gives the exact condition, `NullLosesList` an input. Composed requests hold only lists
  (`AssembledListed`).
- The listing of tables by path loses one exactly if some dictionary has two keys of one text with a table at the same
  place below both (`PathsAreDistinct`). String keys are safe (`StringKeysSuffice`); 1 and "1" are not
  (`MixedKeysCollide`).
- Catalog tables are named by the path without its leading slashes, so "/a" and "//a" of one schema are one table: the
  second finds the first one's marker, and either conflicts with it or passes for delivered (`SlashesCollide`). Each entry
  leaves its own rows exactly if the entries that share its table bring the same rows (`OwnRowsExactly`).
- A partitioned table decodes to its descriptor, an ordinary dictionary (`ExactRoundTrip`).

## Model

| member | source | states |
|---|---|---|
| ProtocolInvariant.StepKeepsInv | apps/api-rust/src/repo.rs:285-850 | every transaction of every process, in any interleaving and at any clock readings, keeps the invariant on rows, records, claims and tenures |
| ProtocolInvariant.RunKeepsInv | apps/api-rust/src/repo.rs:285-850 | the invariant holds over whole runs |
| ProtocolTheorems.StepEvolves | apps/api-rust/src/repo.rs:594-850 | a step keeps a job's immutable columns, admission record and publication, leaves a finished job alone, only sets tokens never drawn before, and pays for every status change with the work measure |
| ProtocolTheorems.CurrentClaim | apps/api-rust/src/repo.rs:683-755 | a claim whose token is current on a running job carries the present epoch, the epoch of admission and the job's attempt, which counts the claims issued |
| ProtocolTheorems.EpochSinceAdmission | apps/api-rust/src/repo.rs:334-389 | in every reachable state a queued or running native job means that the engine is Rust and the epoch is that of the job's admission |
| ProtocolTheorems.PublishesExactly | apps/api-rust/src/repo.rs:783-850 | an issued claim publishes exactly if its lease is live, its token is current and the original deadline has not passed; a changed route is only ever reported for a token that is not current, a changed record never |
| ProtocolTheorems.FinishedForever | apps/api-rust/src/repo.rs:594-608 | a job that is done, failed or cancelled never changes again, nor does its publication appear or change |
| ProtocolTheorems.StaleForever | apps/api-rust/src/repo.rs:757-850 | a superseded, cancelled or finished claim can neither publish nor fail its job in any later state |
| ProtocolTheorems.PublicationsAreFinal | apps/api-rust/src/repo.rs:783-850 | a job has a publication exactly if it is done; the row records the last attempt issued and a time before the original deadline |
| ProtocolTheorems.BoundedWork | apps/api-rust/src/repo.rs:594-731 | along any run the status changes of a job are bounded by the measure 2*(3-attempt)+1 queued, +2 running, 0 finished |
| ProtocolTheorems.AdmittedJobIsBounded | apps/api-rust/src/repo.rs:672-731 | a job has at most seven status changes and three claims in any run, and its attempt equals the number of claims issued for it |
| ProtocolTheorems.RecordForever | apps/api-rust/src/repo.rs:393-526 | a job's immutable columns and its admission record never change |
| ProtocolTheorems.IdempotentAdmission | apps/api-rust/src/repo.rs:393-470 | in every later state, repeating a key with the same schema, digest and revision returns the first job with its original deadline, and another request conflicts; no row changes |
| ProtocolTheorems.AdmissionBounds | apps/api-rust/src/repo.rs:393-526 | in every reachable state at most 32 native jobs are queued or running, a key names one job, and each view agrees with its record |
| LeaseTheorems.ChoosesLeast | apps/api-rust/src/repo.rs:692-731 | a claim starts a job exactly if one may run, and then the least of them by creation time and identity |
| LeaseTheorems.ClaimOwnsRunning | apps/api-rust/src/repo.rs:686-691 | after a claim every running job belongs to the claimant |
| LeaseTheorems.ClaimTakesOver | apps/api-rust/src/repo.rs:686-691 | a claim that passes its fences leaves an attempt current exactly if it was current and the claim is made under its own identity |
| LeaseTheorems.AbandonedIsRecovered | apps/api-rust/src/worker.rs:194-208 | an attempt whose tenure ended is stale from the next successful claim by anyone on |
| LeaseTheorems.RetiredLeaseEnds | apps/api-rust/src/worker.rs:289-291 | the lease of an ended tenure is never extended |
| LeaseTheorems.RoutingIsExclusive | apps/api-rust/src/repo.rs:334-389 | in every reachable state a workspace routed to the legacy engine has no active native job; under a clock that does not go back, and if every late update is harmless, no Rust lease is live then, and no legacy lease while it is routed to Rust |
| LeaseTheorems.KeptApartExactly | apps/api/app/repository.py:228-248 | under a clock that does not go back neither service ever holds a live lease out of turn exactly if every late update serves the engine routed to, or changes nothing, or has ended |
| LeaseTheorems.ClockMustNotGoBack | apps/api-rust/src/repo.rs:366-380 | without that clock the lease half fails: a run that shows it |
| LeaseTheorems.RouteReadNeedsTheLock | apps/api-rust/src/repo.rs:611-625 | a Rust acquisition whose route was read before a cutover takes a lease in a workspace routed to the legacy engine: a run, under a clock that does not go back, that shows it |
| LeaseTheorems.LegacyRouteReadNeedsTheLock | apps/api/app/repository.py:228-236 | a legacy acquisition whose route was read before a cutover takes a lease in a workspace routed to Rust: a run that shows it |
| LeaseTheorems.RenewalNeedsTheLock | apps/api/app/repository.py:243-248 | a renewal that decides on an old clock reading revives a legacy lease that had ended when the workspace was cut over to Rust: a run that shows it |
| LeaseTheorems.PastEpochIsIdle | apps/api-rust/src/repo.rs:650-678 | no claim, failure or publication under an epoch that has passed gets through its fences, in any later state |
| LeaseTheorems.LostLeaseStaysLost | apps/api-rust/src/repo.rs:611-638 | a lease once not live stays so until its identity regains it, by an acquisition or by a renewal that had found it live |
| LeaseTheorems.LostLeaseExactly | apps/api-rust/src/repo.rs:611-638 | a step makes a lost lease live exactly if it regains it past the step |
| LeaseTheorems.LateRenewalRevives | apps/api-rust/src/repo.rs:627-638 | a renewal that read the clock before the lease ended brings it back: a run that shows it |
| LeaseTheorems.LostTenureClaimsNothing | apps/api-rust/src/worker.rs:270-288 | after a final transaction found the lease lost, every later claim under that identity is refused and changes nothing, under a clock that does not go back and until the lease is regained |
| Repository.Repo.Admit | apps/api-rust/src/repo.rs:393-526 | the transaction on rows is the admission step, with its result |
| Repository.Repo.Cancel | apps/api-rust/src/repo.rs:594-608 | the transaction on rows is the cancel step |
| Repository.Repo.Acquire | apps/api-rust/src/repo.rs:611-625 | the lease goes to the owner exactly if it is its own or expired and the engine is Rust |
| Repository.Repo.TakeLease | apps/api-rust/src/repo.rs:617-623 | the update of an acquisition alone, whatever the route is by then |
| Repository.Repo.Renew | apps/api-rust/src/repo.rs:627-638 | only a live lease of this owner and epoch is extended |
| Repository.Repo.Release | apps/api-rust/src/repo.rs:640-648 | the owner's lease ends, another's is kept |
| Repository.Repo.Cutover | apps/api-rust/src/repo.rs:334-389 | the transaction on rows is the cutover step: drained, no live lease of the other kind, next epoch |
| Repository.Repo.ScanList | apps/api-rust/src/repo.rs:692-731 | the loop over the queue refines its specification: the least eligible job starts, each earlier queued job becomes an error with its reason, each later one is untouched |
| Repository.Repo.ScanQueue | apps/api-rust/src/repo.rs:686-731 | the body of a claim: requeue the others' running jobs, then the loop |
| Repository.Repo.Claim | apps/api-rust/src/repo.rs:683-731 | the claim transaction is the claim step with its result |
| Repository.Repo.Fail | apps/api-rust/src/repo.rs:757-781 | the fail transaction is the fail step |
| Repository.Repo.Publish | apps/api-rust/src/repo.rs:783-850 | the publish transaction is the publish step |
| Repository.Repo.IsCurrent | apps/api-rust/src/repo.rs:745-755 | whether the token is still on the running job |
| WorkerProcess.ReachesRelies | apps/api-rust/src/worker.rs:225-300 | over any interleaving of other processes a worker may rely on: reachable rows, its identity not ended by others, its fresh identities unused, stale claims staying stale |
| WorkerProcess.Worker.Native | apps/api-rust/src/worker.rs:600-660 | the watchdog loop stops for lease loss only when the lease was found lost, for cancellation only when the token is stale, and for a poll the database does not answer |
| WorkerProcess.Worker.Attempt | apps/api-rust/src/worker.rs:317-431 | a successful attempt has its publication; a discarded one other than by lease loss is stale; the view check never fires; the connection may fail before the final transaction or after its commit |
| WorkerProcess.Worker.Execute | apps/api-rust/src/worker.rs:302-315 | after a claim is run its token is stale unless the lease was lost or the refusal could not be recorded, with other processes before and after every transaction |
| WorkerProcess.Worker.ClaimAndExecute | apps/api-rust/src/worker.rs:270-287 | one round of the loop: a refused claim marks the lease lost, which ends the tenure; a claim that is returned is run |
| WorkerProcess.Worker.Tenure | apps/api-rust/src/worker.rs:270-288 | the claim loop of one tenure ends by loss, stop or an empty queue, with the heartbeat joined |
| WorkerProcess.Worker.Run | apps/api-rust/src/worker.rs:225-300 | when the worker returns, every identity it held a lease under has ended, and so has the owner of every claim it took |
| Documents.Workspace.Initialize | apps/api-rust/src/repo.rs:209-244 | a native workspace starts at revision 0; an existing one is left alone |
| Documents.Workspace.ReadSnapshot | apps/api-rust/src/repo.rs:264-283 | a snapshot read outside any transaction is the replay of the accepted edits up to its revision |
| Documents.Workspace.Commit | apps/api-rust/src/repo.rs:285-332 | a commit succeeds exactly against the head it names, as the next gapless revision, and rows of earlier revisions are kept |
| Documents.ChainExtends | apps/api-rust/src/repo.rs:285-332 | after an accepted edit every revision row still holds the sequential application of its prefix |
| Documents.Race | apps/api-rust/src/repo.rs:285-332 | any number of commits against one revision, interleaved in any order of their stages with other processes between: never two succeed, a success is the edit at its revision, five turns end a commit; if nobody else commits and the revision was the head, then once one is over exactly one has succeeded and the others that are over were stale |
| Documents.RacingSteps | apps/api-rust/src/repo.rs:285-332 | one stage of one commit keeps what every commit knows and that at most one has succeeded |
| Documents.DecidedSteps | apps/api-rust/src/repo.rs:285-332 | without other commits each stage keeps that either nothing was added and none is over, or one edit was and the others over were stale |
| Documents.SnapshotIsLastWrite | apps/api-rust/src/repo.rs:285-332 | a document at revision n is the last edit of its name among the first n |
| Chunks.SplitInMemory | apps/api-rust/src/publish.rs:41-62 | the in-memory splitter computes the chunk sequence |
| Chunks.Chunker.Push | apps/api-rust/src/publish.rs:137-142 | one line joins the buffer or starts a new chunk |
| Chunks.PackerMatchesSplitter | apps/api-rust/src/publish.rs:131-154 | packing line by line gives exactly the splitter's chunks for every byte stream |
| Chunks.SplitKeepsEveryByte | apps/api-rust/src/publish.rs:41-62 | the concatenation of the chunks is the stream |
| Chunks.ChunksFitReread | apps/api-rust/src/publish.rs:388-388 | every chunk fits the reread bound when every line fits the reader's bound |
| Chunks.WriteChunks | apps/api-rust/src/publish.rs:156-206 | the writer refuses exactly streams with a line that is over-long or whose body is not accepted (UTF-8, blank or JSON, a table laid out), and otherwise writes the splitter's chunks |
| Chunks.WriteThenReread | apps/api-rust/src/publish.rs:360-406 | what was written rereads as the stream, and only the stream bound can refuse it |
| Windows.AdjacentPages | apps/api-rust/src/publish.rs:449-532 | two adjacent windows concatenate to the joined window, with the first refusal |
| Windows.DecodedMeans | apps/api-rust/src/publish.rs:506-522 | reading refuses exactly if some row of the window cannot be decoded |
| Windows.PagesTile | apps/api-rust/src/publish.rs:104-123 | pages cut every PAGE_ROWS rows hold the rows of their line, for every length |
| Windows.FirstSegment | apps/api-rust/src/publish.rs:475-488 | reading the first segment and then the others with its dictionary entries added is reading the whole |
| Paging.WriteTable | apps/api-rust/src/publish.rs:68-127 | the writer lays out every line in order with running offsets, and refuses exactly tables with ragged columns |
| Paging.WrittenHolds | apps/api-rust/src/publish.rs:68-127 | the layout holds the plain decoded table, segment k decoded with dictionaries 0 to k |
| Paging.ReadTable | apps/api-rust/src/publish.rs:449-532 | for every segmentation and page split that holds a table, a page of it is exactly rows offset to min(offset+limit, total), or a refusal if one of them has an index out of range |
| Paging.WriteThenRead | apps/api-rust/src/publish.rs:449-532 | publishing a table and reading a page of it gives exactly rows offset to min(offset+limit, total) of the decoded table, and refuses exactly ragged columns and a page size out of bounds |
| Paging.DecodedAsMeant | apps/api-rust/src/publish.rs:472-488 | the decoded table is the one its indices mean exactly if every journal line with coded cells carries a dictionary |
| Paging.PrefixSuffices | apps/api-rust/src/publish.rs:472-488 | when all indices are in range, decoding with the entries known so far gives what the complete dictionary would |
| Paging.OmittedDictionaryIsNotDecoded | apps/api-rust/src/publish.rs:480-488 | a concrete table whose last line omits its dictionary reads back an index for a label |
| Plans.Requirements | apps/api-rust/src/compose.rs:213-443 | the loops report every requirement, in the order of the checks, pledges by identity |
| Plans.OrderedAscending | apps/api-rust/src/compose.rs:230-233 | the index of pledges yields each saved pledge once, in ascending order of identity |
| Plans.CheckActions | apps/api-rust/src/compose.rs:274-307 | the lots of every action are checked, and exactly the saved lots they name are touched |
| Plans.NeedsNothing | apps/api-rust/src/compose.rs:213-443 | no requirement is reported exactly if the mode fits, every reference resolves, quantities are in range, pledged lots that are sold are released, and every affected allocation has a treatment with its exit |
| Plans.Compose | apps/api-rust/src/compose.rs:446-539 | composition refuses exactly with the requirements found, or over the request bound, and otherwise assembles treatments, binding and one block per scenario |
| Plans.RequestStatesTreatments | apps/api-rust/src/compose.rs:464-496 | the records are the book's, except that each allocation states the plan's treatment in its own field |
| Plans.BlocksStateInstructions | apps/api-rust/src/compose.rs:497-524 | one block per scenario with the plan's lists kind by kind; every initial-margin entry names its scenario and is otherwise unchanged |
| Plans.WriteSlots | apps/api-rust/src/compose.rs:510-521 | a block has a list for each kind of the plan, initial margin stamped with the scenario |
| Merging.AppendNew | apps/api-rust/src/allocation.rs:194-201 | extra entries are appended, dynamic margin only if not there yet |
| Merging.AddsFirsts | apps/api-rust/src/allocation.rs:194-201 | the dynamic-margin rule in closed form: the list and then the first occurrences of unseen entries |
| Merging.MergeInto | apps/api-rust/src/allocation.rs:186-204 | a block takes another's lists kind by kind |
| Merging.MergeSelected | apps/api-rust/src/allocation.rs:155-207 | the merge loop, with its refusals, computes the merge |
| Merging.MergesIfShared | apps/api-rust/src/allocation.rs:165-185 | requests merge exactly if all share the first one's book and number of scenarios |
| Merging.MergeAssociative | apps/api-rust/src/allocation.rs:155-207 | two groupings of three requests are refused together and agree exactly if no block has a value that is not a list where the next request extends a list |
| Merging.NullLosesList | apps/api-rust/src/allocation.rs:186-204 | three requests, the middle one with a null: one grouping keeps the last one's list, the other loses it |
| Merging.AnyGrouping | apps/api-rust/src/allocation.rs:155-207 | merging a list equals merging the merges of any grouping of it |
| Merging.MergeConserves | apps/api-rust/src/allocation.rs:155-207 | actions and ordinary instructions are the ordered concatenations; dynamic margin is the first list and then first occurrences |
| PlanUnion.UnionIsMapped | apps/api-rust/src/compose.rs:213-443 | the union of compatible plans without requirements has none |
| PlanUnion.UnionAssembles | apps/api-rust/src/compose.rs:464-531 | the union assembles to the merge of the two assembled requests |
| PlanUnion.ComposeOfUnion | apps/api-rust/src/compose.rs:446-539 | if any number of compatible plans compose, their union has no requirement and composes to the merge of their requests, unless that exceeds the request bound |
| PlanUnion.CompatiblePlansExist | apps/api-rust/src/compose.rs:446-539 | a book and two different plans that meet the hypotheses of the homomorphism |
| PlanUnion.AssembledListed | apps/api-rust/src/compose.rs:497-524 | composed requests hold only lists |
| Delivery.StepKeeps | apps/api/app/iceberg.py:65-107 | every commit of every publisher and other writer keeps the delivery invariant and all that is delivered |
| Delivery.ExactlyOnce | apps/api/app/iceberg.py:71-107 | in every reachable state a table holds the rows of one entry of a run, once and in order, if it has the run's marker, and none otherwise |
| Delivery.OwnRowsExactly | apps/api/app/iceberg.py:60-80 | an entry that is delivered always has its own rows in its table exactly if the entries that share the table bring the same rows |
| Delivery.SeparateSuffices | apps/api/app/iceberg.py:60-68 | which holds if no two paths of one schema differ only in leading slashes |
| Delivery.SlashesCollide | apps/api/app/iceberg.py:60-68 | "/a" and "//a" of one schema are one table, which can only have the rows of one of them |
| Delivery.ReceiptMeansDelivered | apps/api/app/repository.py:109-123 | a recorded receipt means that every table has its marker, then and in every later state |
| Publishing.Catalog.Stage | apps/api/app/iceberg.py:80-97 | partitions are staged exactly if every one can be read and rows, columns, casts and the total agree, as their rows in order |
| Publishing.Catalog.Commit | apps/api/app/iceberg.py:98-105 | data and marker are committed together, exactly if the table is still at the loaded version |
| Publishing.Catalog.DeliverTable | apps/api/app/iceberg.py:65-108 | one table is delivered or found delivered, or refused for a cause of its own: three lost swaps are three other commits, a marker conflicts only with an entry that shares the table; with nobody else around a fitting entry is delivered unless a read, the catalog or the publisher fails |
| Publishing.Catalog.DeliverAll | apps/api/app/iceberg.py:57-108 | the tables are delivered in order, with the receipts of their markers; the first refusal is explained by its entry, and a ready run stays ready |
| Publishing.Catalog.RecordPublication | apps/api/app/repository.py:109-123 | the receipt is recorded once, and never differs; the job is still done with the same result |
| Publishing.Catalog.Publish | apps/api/app/iceberg.py:16-114 | a publication of a done job that returns has delivered every table and recorded its manifest; a refusal is explained by some entry, never by a conflict with another publisher; from any state where the run is ready, with nobody else around, it finishes unless a read, the catalog or the publisher fails |
| Publishing.CrashAndRerun | apps/api/app/iceberg.py:16-114 | whatever a failed publication left, a rerun with nobody else around finishes if the run is ready, each table with the rows of an entry of the run once and in order, an unambiguous entry's own, and with the manifest already recorded, if any; a publication nobody disturbs leaves a ready run ready |
| ObjectStore.RunKeepsIntact | apps/api-rust/src/objects.rs:125-196 | an intact object keeps its bytes over any run of puts, crashes and damage to other objects |
| ObjectStore.NothingTorn | apps/api-rust/src/objects.rs:140-170 | without damage whatever is stored is intact, wherever writers crash |
| ObjectStore.Objects.Put | apps/api-rust/src/objects.rs:125-196 | put leaves an intact object alone, repairs a damaged one, and fails only for its format or an input-output fault |
| ObjectStore.Objects.GetBounded | apps/api-rust/src/objects.rs:198-250 | a read that succeeds returns the bytes the descriptor names, whatever others do; an intact object is read exactly if it fits the bound |
| ObjectStore.PutThenGet | apps/api-rust/src/objects.rs:121-250 | what was put is read back |
| ObjectStore.PutAll | apps/api-rust/src/publish.rs:156-245 | the objects of a publication, each of its own format, are put one by one, and at the end all of them are there and described by their references |
| ObjectStore.PutAllThenGet | apps/api-rust/src/publish.rs:156-245 | each object of a publication is read back exactly if it fits the bound, whatever other writers do |
| ManifestCodec.RoundTrip | apps/api/app/artifacts.py:167-247 | decoding an encoded value from any store that still has its objects gives the value, with partitioned tables as their descriptors |
| ManifestCodec.ExactRoundTrip | apps/api/app/artifacts.py:167-247 | the value itself comes back exactly if it holds no partitioned table |
| ManifestCodec.BuildDistinct | apps/api/app/artifacts.py:231-232 | rebuilding a dictionary from its entries keeps keys, order and values, with 1, 1.0 and True one key |
| ManifestCodec.LookalikeStaysOrdinary | apps/api/app/artifacts.py:46-51 | a dictionary that looks like a node comes back as that dictionary |
| ManifestCodec.LoadsInAnyOrder | apps/api/app/artifacts.py:103-144 | a stored object is loaded by a reference with its four fields in any order |
| TablePaths.UnescapeEscape | apps/api/app/artifacts.py:262-262 | escaping is inverted by unescaping and leaves no slash |
| TablePaths.PrintInjective | apps/api/app/artifacts.py:260-266 | different segment lists print different paths |
| TablePaths.VisitFindsTables | apps/api/app/artifacts.py:249-268 | the visit finds exactly the tables of a value, each under its printed path |
| TablePaths.PathsAreDistinct | apps/api/app/artifacts.py:249-268 | the result lists every table, each under its own path, exactly if no dictionary in the value has two keys of one text with a table at the same place below both, whatever the texts of keys that are not plain |
| TablePaths.EachTableIsListed | apps/api/app/artifacts.py:249-268 | then each table is found under the path that leads to it |
| TablePaths.StringKeysSuffice | apps/api/app/artifacts.py:260-263 | values whose dictionary keys are strings meet that condition |
| TablePaths.MixedKeysCollide | apps/api/app/artifacts.py:260-263 | of the tables under the keys 1 and "1" only one is listed |
| Prescan.ScanReads | apps/api/app/cd_sequence_jobs.py:83-113 | an accepted scan captured exactly the objects of the frames, and charged bytes, rows, decoded column sizes and row sizes of every appearance within the caps |
| Prescan.ScanCoversDecode | apps/api/app/cd_sequence_jobs.py:64-116 | what a scan accepts decodes from the captured objects alone as from the store: no read misses |
| Prescan.Scanner.AdmitFrame | apps/api/app/cd_sequence_jobs.py:98-112 | one frame is admitted or refused with the first cap it breaks, the sizes its metadata tells included |
| Prescan.Measure | packages/portfolio-risk/src/portfolio_risk/analytics/_deposit_continuation_partition_bounds.py:7-38 | a table is measured exactly if no size is negative and the totals with it stay within their caps |
| Prescan.Scanner.ScanNode | apps/api/app/cd_sequence_jobs.py:85-113 | the recursive scan computes totals and captured objects |
| Prescan.LoadBounded | apps/api/app/cd_sequence_jobs.py:71-116 | a loaded value is the one the whole store gives, read within the caps |
| ImportCycles.Reaches | scripts/check_architecture.py:69-76 | the worklist ends on every finite graph and tells whether a path exists |
| ImportCycles.CycleMeansBack | scripts/check_architecture.py:67-77 | an edge lies on a cycle without repeated nodes exactly if its source is reached back from its target |
| ImportCycles.CycleEdges | scripts/check_architecture.py:67-77 | the result is in order and holds exactly the edges on some cycle, once each |
| ImportCycles.CyclesAreMutual | scripts/check_architecture.py:67-77 | an edge is on a cycle exactly if its endpoints reach each other |

## Left out

- The legacy Python service is an environment: it only touches statuses of its own, takes leases that are not live, moves the head of legacy workspaces, and uses no idempotency key of native jobs.
- Identities, tokens and tenures are fresh naturals; a new job's identity is not yet a row (a primary key). SHA-256 is injective: a digest stands for its content.
- A transaction is atomic and an error rolls it back. A connection may fail before any transaction of the worker, or after its commit; of the requests of clients only the outcome of the transaction is modelled.
- The worker loop has a number of rounds until the stop flag is seen; the producer, the verifier, the spool and the executable checks give arbitrary outcomes. Threads are interleavings.
- Progress and result columns, listing and paging of jobs, HTTP routes, SQL text, parameter binding and migration are left out.
- Worker.Run: a worker that returns while its last refusal could not be recorded leaves a running job; what is claimed is that its tenure has ended, so the next claim requeues it.
- Byte bounds of manifests, pages and headers, and the stream parser and verifier inside the reread are left out; the reread is the bounds, the order and the identity of the stream.
- Catalog delivery is for one destination; the fingerprint of a schema is injective, and whether a partition can be read or cast is given. Which kinds of jobs, paths and column types can be published is left out. Dropped tables are left out. A catalog call that fails after its commit is a crash after it.
- Chunks.WriteThenReread: the manifest, page, header, parser and verifier checks of the reread are left out; they decide nothing about the bytes of the stream.
- ManifestCodec.RoundTrip: series, arrays, models and frames with object columns are left out.
- Documents of compositions are parsed already: the shape checks of the book and the plan are left out, as are requests whose actions or blocks are not lists. Requirement texts are constructors with the same data.
- SetField: assigning a field of a scalar replaces the scalar, where the source stops with a panic.
- Quantities are exact numbers, and one number stands for 1 and 1.0, which the source's test for a repeated dynamic-margin entry keeps apart.
- The receipt check and the coefficient estimate of allocations are left out: a selection and a sum.
- Damage to a temporary file of a running put, S3 transport and the removal of objects are left out.
- In the codec dates are their ISO texts, and JSON `items` that are not lists are refused. The texts of keys that are floats or nodes are arbitrary.
- The pre-scan leaves out cancellation, which only refuses more; what the metadata of a table tells is a parameter.
- Reading imports from Python sources, and the other rules of that script, are left out.
- Garbage collection, the deposit and commercial job guards and the business workbook are left out: their conjunctions are settled by one branch each.
