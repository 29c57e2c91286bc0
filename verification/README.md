# Verification model of the retrieval service's index generations and ranking

This project models, in Dafny, the part of the retrieval service that decides what
may be served: the content-addressed artifact store, the index builder, the lifecycle
of index generations with its garbage collection, the atomic publication of the model
manifest, the hybrid ranking pipeline with its calibration, and the printers and
parsers around them.  `dafny verify dfyconfig.toml` checks all of it.

## How the system is modelled

* **Tables and sessions.**  A database is a value of maps (`Tables.Database`), with the
  unique, foreign-key, check and cascade rules of the schema as the predicate `Schema`.
  `Tables.Session` is the unit of work: `db` holds the pending rows and the ghost field
  `flushed` every state sent to the database.  A flush demands `Schema`, so every method
  that keeps `session.Sound()` proves the constraints in every intermediate flushed
  state, not only at commit.  A savepoint or a transaction rollback restores a copy.
* **Hashes** are injective constructors over what they hash, **UUIDs** are ordered
  identities, **vectors** are sequences of coordinates with a float32 part and the residue
  rounding drops, **RRF scores** are reals and **raw scores** are positions on the ascending
  grid of doubles (so the next representable value is one position up).
* **Foreign code** answers arbitrarily within its constructors' checks.  The Markdown
  parser, chunker, metadata extractor and embedding provider are one object,
  `Collaborators.Adapters`, whose ghost field `log` holds every call with its answer; a
  document sent to the provider is logged with its text and the chunk hash it stands for,
  so what was sent, what a build should have made of the answers, and where the rows it
  stored come from (`Provenance`) are statements about that log.
* **File system calls** are numbered by `Volume.Directory`.  Exactly the calls in its
  `faults` fail, `room` bounds how much each write takes, and another process may do
  anything to the directory while a caller's check runs unless the directory is quiet.
  Opening, measuring and closing a file to look at it is one call, and so is syncing a
  directory.
* **Locks, clocks and audit sinks** are parameters.

The modules, in dependency order: `Basics`, `Ordering` (ORDER BY), `Grouping`, `Text`,
`Documents`, `ArtifactIdentity`, `FrozenManifest`, `Backfill`, `Tables`, `StoredParses`,
`ParseRoundTrip`, `StoreFrames`, `ChunkOwnership`, `ArtifactInserts`, `ParseStore`,
`VectorStore`, `StoreInvariant`, `Readiness`, `IndexRepository`, `Collaborators`,
`Provenance`, `ParseStage`, `EmbeddingStage`, `BuildStage`, `IndexProgress`, `IndexService`, `Pipeline`,
`RollbackCheck`, `Transitions`, `Activation`, `ActivationService`, `Lifecycle`, `Histories`,
`LegacyLifecycle`, `Workflow`, `Volume`, `Publication`, `Lanes`, `Fusion`, `Evidence`,
`Search`, `Calibration`, `Tokens`, `PhysicalLines`, `Relations`.

## Main results

1. `Histories.ReadyForever`: a run that was READY once passes the rollback artifact check
   in every later state in which it is READY, ACTIVE or PREVIOUS, over every history of
   builds, activations, rollbacks, prunes and registrations of sources and configurations.
   `IndexService.Index` and `Pipeline.Index` establish it for a new run,
   `RollbackCheck.AssertTargetArtifacts` is the check itself, decided by its row loops.
2. `Histories.SlotsThroughout` and `StatusReaches`: one ACTIVE and one PREVIOUS run at most,
   pointer equal to the ACTIVE run or empty, FAILED and ARCHIVED terminal, in every state
   of every history; the `Activation` methods keep the schema at every flush in between.
3. `Histories.ActivationPrunesExactly` and `Activation.Repository.PruneArchivedRun`: pruning
   removes exactly what only the archived run used, for every batch size.
4. `ParseRoundTrip.SavedParseIsFound`, `ParseStore.SaveParse`, `VectorStore.SaveVectorExact`:
   the store is a cache that returns exactly what was saved and refuses exactly what
   disagrees with it.
5. `Pipeline.Index`: a FAILED build leaves its run row and nothing else, an exception
   leaves nothing; from a sound store a completed build is READY exactly when every file
   decodes, every answer in the collaborators' log is good and every projection they add up
   to can be saved, and a FAILED one carries the code of the first undecodable file or of
   the last answer; what a READY build stored is what was answered about it, every vector
   under its own chunk hash (`Provenance.Accounted`); and the hashes in the log's embedding
   calls are distinct and had no stored vector when the build began.
6. `FrozenManifest.FrozenArtifactManifest` and `Backfill.LegacyParses.Run`: the frozen
   migration code agrees with the application, batch by batch.
7. `Publication.AtomicPublish`: the failing calls, the prior manifest and the caller's
   answers decide a publication's outcome and phase, it fails for no other reason, and each
   phase leaves behind exactly what it says; `Publication.RestoresExactly` gives the calls
   after whose failure the prior state is not restored.
8. `Fusion.ReciprocalRankFusion`, `Fusion.FusionDominance`, `Evidence.EvidenceShown`,
   `Evidence.GroupingRanksParents`, `Calibration.Calibrate`, `Calibration.SearchUnknown`: the
   score formula and the ranking laws, what each item shows, and the end-to-end soundness of
   calibrated floors.
9. `Tokens.AcceptedExactly`, `Tokens.AcceptedIsCanonical`, `PhysicalLines.SplitUnique`.

## Where the code does not meet an expectation

* **Publication does not restore after four calls**
  (`src/omf_retrieval/infrastructure/embedding/prepare.py`).  `Publication.LeftAfter` states
  what each leaves.  (a) When `os.close` of the staged file fails (line 275) the descriptor
  is already released; the `finally` block closes it again at line 334, that call raises,
  and the `.manifest-` file stays.  (b) When closing the backup placeholder fails (line 285)
  `backup` is not assigned yet, so an empty `.manifest-backup-` file stays.  (c) When
  unlinking it fails (line 287) the file stays too: the `finally` block removes a backup
  only while it carries the prior manifest's identity.  (d) When opening the published
  manifest after the rename fails (line 301) there is no publication record yet, so the new
  bytes stay and the backup goes.  `Publication.Schedule` numbers these calls from the first
  call, the writes the content needs and the prior manifest, and `Publication.RestoresExactly`
  says that a failed publication in a quiet directory, whose `finally` block meets no failing
  call, has restored the prior state if and only if its first failing call is none of the
  four (for new bytes that differ from the prior ones).  `Publication.DescriptorExample`,
  `PlaceholderExample`, `UnlinkExample` and `NewBytesExample` are publications of three
  bytes in which just one of the four calls fails.
* **Grouping reads only the first child** of a parent to rank it
  (`src/omf_retrieval/application/search/evidence.py`:48).  That is the best child because
  `SearchService.search` always passes a strictly ranked list (`Search.SurvivingRanked`);
  the ranking law is stated for such lists.

## Model

| member | source | states |
|---|---|---|
| Ordering.OrderUnique | src/omf_retrieval/infrastructure/database/search.py:150-151 | A strictly ordered enumeration of rows under a total sort key is the only answer ORDER BY can give |
| Text.BlankExamples | src/omf_retrieval/application/indexing/service.py:241 | Which characters a blank text consists of |
| Grouping.GroupFlatten | src/omf_retrieval/infrastructure/database/repository_activation.py:88-101 | Regrouping rows ordered by content recovers each content's rows in order |
| Grouping.GroupRows | src/omf_retrieval/infrastructure/database/repository_activation.py:88-101 | The append loop computes every group and refuses exactly the rows of a content outside the target |
| ArtifactIdentity.WalkChunks | src/omf_retrieval/application/indexing/artifact_identity.py:20-100 | The one-pass counters accept only owner-sorted chunks whose ordinals count from 0 per owner, and count them |
| ArtifactIdentity.ParseArtifactManifest | src/omf_retrieval/application/indexing/artifact_identity.py:20-100 | The manifest exists exactly for coherent projections (sections 0..n-1, chunks sorted by owner, ordinals 0..m-1 each, chunks iff body not blank) |
| ArtifactIdentity.ManifestInjective | src/omf_retrieval/application/indexing/artifact_identity.py:20-100 | Two projections have the same manifest exactly when every persisted field agrees |
| ArtifactIdentity.StoredFormCoherent | src/omf_retrieval/application/indexing/artifact_identity.py:20-100 | Persisting a projection (dropping blocks and warnings) changes neither admissibility nor manifest |
| FrozenManifest.FrozenArtifactManifest | migrations/versions/0002_index_run_activation_lifecycle.py:45-147 | The frozen algorithm accepts exactly the rows the value constructors and the application accept, with the same counts and, from the row fields by name, the same payload |
| Backfill.AdvanceCursor | migrations/versions/0002_index_run_activation_lifecycle.py:157-176 | A keyset batch holds distinct unvisited parses, and the cursor leaves exactly the others |
| Backfill.LegacyParses.Run | migrations/versions/0002_index_run_activation_lifecycle.py:150-238 | For every batch size the loop ends having visited every parse once, equal to the unbatched map, and fails exactly when some parse has no manifest |
| StoredParses.SameParseFind | src/omf_retrieval/infrastructure/database/repository_artifacts.py:51-159 | find_parse reads only the rows of its own parse |
| ParseRoundTrip.SavedParseIsFound | src/omf_retrieval/infrastructure/database/repository_artifacts.py:51-268 | Stored unordered rows read back as the saved sections without blocks and the chunks in their original order, owned as computed |
| ParseRoundTrip.OrdinalCounts | src/omf_retrieval/infrastructure/database/repository_artifacts.py:51-159 | In an admissible projection a chunk's ordinal counts its section's earlier chunks, so section and chunk ordinal restore the order |
| ChunkOwnership.ValidateAndMapChunks | src/omf_retrieval/infrastructure/database/repository_artifacts.py:435-470 | The mapping exists exactly when every chunk lies in one section only and the ordinals follow, and it maps each chunk to the section whose lines contain it |
| ChunkOwnership.SoleCandidate | src/omf_retrieval/infrastructure/database/repository_artifacts.py:435-470 | The owner of a chunk is the only section whose line range contains it |
| ChunkOwnership.StoredOwners | src/omf_retrieval/infrastructure/database/repository_artifacts.py:435-470 | Ownership depends only on persisted fields |
| ArtifactInserts.InsertSections | src/omf_retrieval/infrastructure/database/repository_artifacts.py:161-268 | Sections are inserted in order, each flush keeps the schema, parents resolve to earlier rows, and nothing else changes |
| ArtifactInserts.InsertChunks | src/omf_retrieval/infrastructure/database/repository_artifacts.py:161-268 | Chunks are inserted under their owners, each flush keeps the schema, and nothing else changes |
| ParseStore.ReplayExact | src/omf_retrieval/infrastructure/database/repository_artifacts.py:473-498 | A replay is accepted exactly when every persisted field agrees |
| ParseStore.CreateParse | src/omf_retrieval/infrastructure/database/repository_artifacts.py:161-268 | The rows created for an admissible projection read back as that projection |
| ParseStore.SaveParse | src/omf_retrieval/infrastructure/database/repository_artifacts.py:161-268 | New input is stored and found; over a stored parse it answers that parse exactly if version and every persisted field agree, and changes nothing; a rejection changes nothing |
| VectorStore.NormalizeIdempotent | src/omf_retrieval/infrastructure/database/repository_artifacts.py:381-404 | Normalising a stored vector again changes nothing |
| VectorStore.NormalizeRounds | src/omf_retrieval/infrastructure/database/repository_artifacts.py:381-404 | A vector is accepted exactly when it has the dimension and is finite, and keeps the float32 value of each coordinate and nothing else |
| VectorStore.CoherentLookups | src/omf_retrieval/infrastructure/database/repository_artifacts.py:285-311 | While equal hash and configuration imply equal vector, the reusable lookup never conflicts and finds a vector exactly when one is stored |
| VectorStore.SaveVectorExact | src/omf_retrieval/infrastructure/database/repository_artifacts.py:313-379 | A vector is saved exactly when it is finite, has the dimension, and rounds to every stored vector of the same chunk hash |
| VectorStore.SaveVectorCoherent | src/omf_retrieval/infrastructure/database/repository_artifacts.py:313-379 | Saving keeps equal hash and configuration implying equal vector |
| VectorStore.SaveVectorStructure | src/omf_retrieval/infrastructure/database/repository_artifacts.py:313-379 | A save keeps every row, adds at most the one link, and the chunk then carries the normalised vector |
| VectorStore.SaveEmbedding | src/omf_retrieval/infrastructure/database/repository_artifacts.py:313-379 | After a save the chunk's row names the configured model and holds the float32 value of every coordinate, every other row is kept; otherwise nothing changes |
| StoreInvariant.ParseCreatedGrows | src/omf_retrieval/infrastructure/database/repository_artifacts.py:161-268 | Saving a parse only adds rows and keeps the store sound |
| StoreInvariant.VectorSavedGrows | src/omf_retrieval/infrastructure/database/repository_artifacts.py:313-379 | Saving a vector only adds rows and keeps the store sound |
| StoreInvariant.DeleteKeepsSound | src/omf_retrieval/infrastructure/database/repository_activation.py:566-574 | Pruning contents keeps every surviving parse sound and vectors coherent |
| StoreFrames.DeleteKeepsSchema | src/omf_retrieval/infrastructure/database/models.py:290-330 | The cascades of a content delete leave no dangling row |
| StoreFrames.DeleteTwice | src/omf_retrieval/infrastructure/database/repository_activation.py:562-574 | Deleting contents in two steps with all cascades is deleting their union once |
| StoreFrames.DeleteKeepsParse | src/omf_retrieval/infrastructure/database/repository_activation.py:566-574 | A delete leaves every row of another content's parse, its embeddings included |
| Readiness.ExtendsKeepsReady | src/omf_retrieval/infrastructure/database/repository_activation.py:416-551 | Growing the store keeps parsed content ready, and blank content as long as nothing is parsed for it |
| Readiness.DeleteKeepsReady | src/omf_retrieval/infrastructure/database/repository_activation.py:416-551 | Pruning other contents keeps a content ready |
| Readiness.RunStaysReady | src/omf_retrieval/infrastructure/database/repository_activation.py:416-551 | A run stays ready while its row, configuration, occurrences and contents are kept |
| IndexRepository.CreateBuildingRun | src/omf_retrieval/infrastructure/database/repositories.py:128-145 | A BUILDING run with the binding's source, configuration and commit is created exactly for 40 lower-case hexadecimal digits and resolvable identities |
| IndexRepository.UpsertContent | src/omf_retrieval/infrastructure/database/repositories.py:147-178 | The row of a digest is reused or added, and it collides exactly with a stored row of that digest and another text; under the digest of the text only a store whose hashes lie can collide |
| IndexRepository.CreateOccurrence | src/omf_retrieval/infrastructure/database/repositories.py:180-235 | An exact replay is idempotent; a taken path with other data or a foreign run is refused |
| IndexRepository.MarkFinished | src/omf_retrieval/infrastructure/database/repositories.py:365-420 | Exactly the BUILDING runs of the binding finish, with the result's status and statistics, and only that row changes |
| ParseStage.ObtainParse | src/omf_retrieval/application/indexing/service.py:244-308 | The parse of a document is found or built from its own text; from a sound store only a projection that cannot be saved, or a malformed configuration hash, can raise, and the log shows which answers it was |
| ParseStage.Project | src/omf_retrieval/application/indexing/service.py:249-292 | Parsing and splitting ends with a failure code exactly as the last answer demands, or with the projection that the logged answers to this text and its sections add up to |
| ParseStage.RejectsExactly | src/omf_retrieval/infrastructure/database/repository_artifacts.py:161-268 | Under a new key a projection is rejected exactly when its chunks have no unique owners or no manifest |
| Collaborators.LoggedProjection | src/omf_retrieval/application/indexing/service.py:249-299 | A parse answer and one good split answer per section make the build go on exactly when the joined chunks can be saved |
| Collaborators.AnsweredAppend | src/omf_retrieval/application/indexing/service.py:205-365 | Judging two stretches of answers in turn is judging them together: no projection spans two documents |
| ParseStage.FoundIsValid | src/omf_retrieval/application/indexing/service.py:378-389 | Artifacts the repository returns always pass the service's own check: the snapshot's versions and configuration hash, and distinct chunks |
| Provenance.ParsesFromThen | src/omf_retrieval/application/indexing/service.py:244-299 | New parses stay the projections of their contents' own texts while the build goes on |
| Provenance.VectorsFromStay | src/omf_retrieval/application/indexing/service.py:359-365 | A hash keeps carrying the vector answered for it while the store grows coherently |
| Provenance.StoreFromThen | src/omf_retrieval/application/indexing/service.py:205-365 | What two stretches of a build stored is accounted for by the answers of both |
| EmbeddingStage.LinkReusable | src/omf_retrieval/application/indexing/service.py:309-333 | After the chunk loop every chunk is embedded or waits, and those wait, in order, whose hash had no stored vector |
| EmbeddingStage.LookupsUnderSound | src/omf_retrieval/application/indexing/service.py:311-329 | From a sound store no lookup conflicts and a reusable vector can always be saved |
| EmbeddingStage.SaveAgreeing | src/omf_retrieval/application/indexing/service.py:359-365 | A well-shaped vector that agrees with its hash's vectors is saved and keeps agreeing |
| EmbeddingStage.SaveGroup | src/omf_retrieval/application/indexing/service.py:359-365 | One vector is saved for every chunk of a hash without a conflict, touching no other hash; from a sound store every stored vector of the hash then has its float32 coordinates |
| BuildStage.SaveAll | src/omf_retrieval/application/indexing/service.py:359-365 | Every missing hash carries the vector at its own position |
| BuildStage.EmbedMissing | src/omf_retrieval/application/indexing/service.py:334-365 | The log grows by one embedding call, whose documents are the first chunk of each missing hash; after a good answer every waiting chunk is embedded, and every stored vector of the j-th hash has the float32 coordinates of the j-th vector answered |
| BuildStage.SendingMissing | src/omf_retrieval/application/indexing/service.py:330-339 | A hash about to be sent is in no earlier embedding call of the run and had no vector at its start |
| BuildStage.BuildArtifacts | src/omf_retrieval/application/indexing/service.py:244-365 | A built document has a sound parse with every chunk embedded, the log grew by one embedding call at most, and the new parse and vectors are the answers for this text and these hashes |
| IndexProgress.ContentsCount | src/omf_retrieval/application/indexing/service.py:201-243 | The distinct digests counted are the run's distinct contents |
| IndexProgress.BlanksCount | src/omf_retrieval/application/indexing/service.py:201-243 | The blank documents counted are the run's blank occurrences |
| IndexService.CompletedRun | src/omf_retrieval/application/indexing/service.py:190-376 | A finished file list makes the run's contents ready and its statistics exact |
| IndexService.IndexTurn | src/omf_retrieval/application/indexing/service.py:205-365 | One turn of the file loop keeps the progress invariant and the account of what is stored, or ends FAILED at an undecodable file or with the code of the last answer, or raises |
| IndexService.Index | src/omf_retrieval/application/indexing/service.py:190-376 | From a sound store READY exactly when all files decode and all logged answers are good and can be saved; READY means every file recorded with its text and metadata, counted and served, its parses, vectors and metadata being the answers about them; a failure names the first undecodable file or the last answer, with exact statistics; each hash is in the log at most once and never if stored; the rest of the database is untouched |
| Pipeline.FinishedIsReady | src/omf_retrieval/application/indexing/pipeline.py:107-138 | A finished READY run passes the rollback artifact check |
| Pipeline.Index | src/omf_retrieval/application/indexing/pipeline.py:95-138 | FAILED leaves exactly the FAILED run, with the service's code and statistics or, after an exception, the invariant failure, each as the answers demand; an abort leaves nothing; READY passes the artifact check, comes about exactly for good answers and stored what was answered; no hash is sent twice or although stored; it completes exactly when lock, commit and snapshot allow |
| RollbackCheck.ClassifyContents | src/omf_retrieval/infrastructure/database/repository_activation.py:51-79 | The loop counts rows, distinct contents and blank rows and collects the contents with text |
| RollbackCheck.CheckGroup | src/omf_retrieval/infrastructure/database/repository_activation.py:103-191 | The checks on one content's rows decide whether they rebuild to the declared manifest with one embedding each |
| RollbackCheck.GroupMeans | src/omf_retrieval/infrastructure/database/repository_activation.py:103-191 | The row checks accept a parse exactly when find_parse accepts it and every chunk is embedded |
| RollbackCheck.ValidateManifestRows | src/omf_retrieval/infrastructure/database/repository_activation.py:82-191 | All rows belong to contents with text and every such content's group is sound |
| RollbackCheck.QueriesMean | src/omf_retrieval/infrastructure/database/repository_activation.py:466-551 | The two joined queries pass the row checks exactly when the run's artifacts are ready; a parse row of a blank document is refused |
| RollbackCheck.AssertTargetArtifacts | src/omf_retrieval/infrastructure/database/repository_activation.py:416-551 | The whole check accepts exactly the ready runs, statistics included: every content the run uses is blank and unparsed, or parsed with every chunk embedded under the configured model |
| Transitions.SlotIsUnique | src/omf_retrieval/infrastructure/database/models.py:171-182 | A source has one run in a unique slot |
| Transitions.SetStatusSchema | src/omf_retrieval/infrastructure/database/models.py:142-182 | A status change keeps the schema when the slot is free and the activation time is set |
| Transitions.SwapSchema | src/omf_retrieval/infrastructure/database/repository_activation.py:205-252 | Every flushed state of an activation satisfies the schema |
| Transitions.RollbackSchema | src/omf_retrieval/infrastructure/database/repository_activation.py:331-338 | Every flushed state of a rollback satisfies the schema, the transient ARCHIVED one included |
| Activation.NextBatch | src/omf_retrieval/infrastructure/database/repository_activation.py:562-574 | Deleting the next batch gives the state of one delete over all batches so far, and keeps the schema |
| Activation.Repository.PruneArchivedRun | src/omf_retrieval/infrastructure/database/repository_activation.py:553-574 | For every batch size the loop equals one set-based delete, with the schema at every flush |
| Activation.Repository.UniqueStatusRun | src/omf_retrieval/infrastructure/database/repository_activation.py:385-402 | The run in a slot is found if there is one |
| Activation.Repository.Swap | src/omf_retrieval/infrastructure/database/repository_activation.py:205-251 | The flushed states are exactly archive, demote, promote, as far as the slots are filled |
| Activation.Repository.Activate | src/omf_retrieval/infrastructure/database/repository_activation.py:205-266 | Succeeds exactly for a READY run of a consistent source; the new state and the report are as specified, a refusal changes nothing |
| Activation.Repository.PrepareRollback | src/omf_retrieval/infrastructure/database/repository_activation.py:268-296 | A candidate is prepared exactly for a consistent pair whose target is ready, and describes it |
| Activation.Repository.Rollback | src/omf_retrieval/infrastructure/database/repository_activation.py:298-348 | Only the prepared candidate and an unchanged pair succeed, through exactly three flushed states |
| ActivationService.Activate | src/omf_retrieval/application/indexing/activation.py:152-168 | Commits and reports the activation or leaves the database as it was |
| ActivationService.Rollback | src/omf_retrieval/application/indexing/activation.py:170-218 | Commits and reports exactly when the target can be prepared and the running provider is its own; a refusal flushes nothing |
| Lifecycle.SlotsAgree | src/omf_retrieval/infrastructure/database/repository_activation.py:404-408 | Under the invariant the pointer is the ACTIVE run and PREVIOUS implies ACTIVE |
| Lifecycle.ActivatedRuns | src/omf_retrieval/infrastructure/database/repository_activation.py:225-251 | Which status, time and pointer every run and source has after an activation |
| Lifecycle.PrunedKeepsReady | src/omf_retrieval/infrastructure/database/repository_activation.py:553-574 | Pruning one run keeps every other ready run ready |
| Lifecycle.ActivationKeepsInvariant | src/omf_retrieval/infrastructure/database/repository_activation.py:205-266 | An activation keeps schema, lifecycle, store soundness and the readiness of every kept run |
| Lifecycle.RollbackKeepsInvariant | src/omf_retrieval/infrastructure/database/repository_activation.py:298-348 | A rollback keeps the same invariant |
| Lifecycle.BuildKeepsInvariant | src/omf_retrieval/application/indexing/pipeline.py:95-138 | A completed build keeps the same invariant |
| Histories.InvariantThroughout | src/omf_retrieval/infrastructure/database/repository_activation.py:205-348 | The invariant holds in every state of every history |
| Histories.InitialInvariant | src/omf_retrieval/infrastructure/database/models.py:16-200 | It holds before anything is built |
| Histories.SourceKeepsInvariant | src/omf_retrieval/infrastructure/database/repository_config.py:83-98 | Registering a source under a new key keeps the invariant |
| Histories.ConfigKeepsInvariant | src/omf_retrieval/infrastructure/database/repository_config.py:107-128 | Registering a configuration keeps the invariant, the readiness of every kept run included |
| Histories.StatusReaches | src/omf_retrieval/infrastructure/database/repository_activation.py:205-348 | Along a history FAILED and ARCHIVED are terminal, READY is never entered again, ACTIVE and PREVIOUS are the only cycle |
| Histories.ReadyForever | src/omf_retrieval/infrastructure/database/repository_activation.py:416-551 | A run once READY passes the artifact check in every later state unless it is ARCHIVED |
| Histories.SlotsThroughout | src/omf_retrieval/infrastructure/database/repository_activation.py:205-348 | In every state one ACTIVE and one PREVIOUS at most, pointer equal to ACTIVE or empty, PREVIOUS implies ACTIVE, activation times set |
| Histories.RollbackTwice | src/omf_retrieval/infrastructure/database/repository_activation.py:298-348 | Two rollbacks restore every status and pointer; only the two activation times differ |
| Histories.ActivateThenRollback | src/omf_retrieval/infrastructure/database/repository_activation.py:205-348 | After an activation the former run can be rolled back to at once and becomes active again |
| Histories.ActivationPrunesExactly | src/omf_retrieval/infrastructure/database/repository_activation.py:229-252 | An activation removes the archived run's occurrences, the contents only it used and what derives from them, and nothing else |
| Histories.OthersArtifactsKept | src/omf_retrieval/infrastructure/database/repository_activation.py:566-573 | Artifacts of every content another run uses are untouched |
| LegacyLifecycle.ViolationMeans | migrations/versions/0002_index_run_activation_lifecycle.py:247-294 | The migration finds no violation for a source exactly when its rows are consistent |
| LegacyLifecycle.ViolationNames | migrations/versions/0002_index_run_activation_lifecycle.py:265-285 | The violation reported names a rule that the source's rows break |
| LegacyLifecycle.MigrationAcceptsLifecycle | migrations/versions/0002_index_run_activation_lifecycle.py:247-300 | The migration accepts all rows exactly when they satisfy the lifecycle invariant and both unique slots |
| Workflow.ReadyMayActivate | src/omf_retrieval/application/indexing/pipeline.py:175-189 | A READY build of a consistent system can always be activated |
| Workflow.Index | src/omf_retrieval/application/indexing/pipeline.py:148-189 | When the build aborts, fails or is READY; a failed build leaves the running generation alone, a refused activation the built database; a READY run becomes ACTIVE whenever activation gets its lock |
| Publication.WriteAll | src/omf_retrieval/infrastructure/embedding/prepare.py:259-264 | The write loop leaves exactly the content after as many calls as the prefixes written need, or ends at the first call that fails |
| Publication.Fill | src/omf_retrieval/infrastructure/embedding/prepare.py:259-277 | The staged file is complete exactly when none of its calls fails; the descriptor is broken exactly when its close is the first failing one |
| Publication.RestoreOwned | src/omf_retrieval/infrastructure/embedding/prepare.py:401-439 | It succeeds whenever the manifest is the owned inode and no call fails, and then shows the prior bytes and leaves no restore name; a foreign manifest is left alone |
| Publication.Rollback | src/omf_retrieval/infrastructure/embedding/prepare.py:207-234 | It succeeds whenever the record is restorable and no call fails, and then the prior coordinate is back; a manifest that is not the published inode is left alone |
| Publication.Commit | src/omf_retrieval/infrastructure/embedding/prepare.py:236-242 | Only a backup that still is the prior inode is removed, and it is whenever no call fails |
| Publication.DrawBackupName | src/omf_retrieval/infrastructure/embedding/prepare.py:282-287 | A name is drawn and freed exactly when none of three calls fails; a placeholder is left exactly when the close or the unlink is the first failing one |
| Publication.SaveBackup | src/omf_retrieval/infrastructure/embedding/prepare.py:278-296 | The prior manifest is linked and read exactly when it is admissible and none of the numbered calls fails; the failure says what was left, a placeholder exactly for two of them |
| Publication.Swap | src/omf_retrieval/infrastructure/embedding/prepare.py:297-318 | Recorded exactly when the check passes and neither call fails; unprotected exactly when the open is the first failing one; otherwise the rename did not happen |
| Publication.Seal | src/omf_retrieval/infrastructure/embedding/prepare.py:319-326 | It succeeds exactly when both answers are yes and no call fails; until then the record still describes how to roll back |
| Publication.RolledBackIsRestored | src/omf_retrieval/infrastructure/embedding/prepare.py:207-234 | Rolling back a recorded publication restores the prior bytes or absence and removes the backup name |
| Publication.CleanUp | src/omf_retrieval/infrastructure/embedding/prepare.py:333-345 | Without a failing call the temporary name is gone, and the backup if it still is the prior inode; after a broken descriptor nothing is removed |
| Publication.Finish | src/omf_retrieval/infrastructure/embedding/prepare.py:327-345 | Whenever no call of the finally block fails, a recorded publication is rolled back to the prior state and otherwise exactly the attempt's own names are removed |
| Publication.AtomicPublish | src/omf_retrieval/infrastructure/embedding/prepare.py:245-345 | The schedule of failing calls and answers decides outcome and phase, and a failure has a failing call, answer or prior manifest as its reason; success shows the new bytes and touches no other name, a failure leaves exactly what its phase says when the finally block meets no failing call; a foreign manifest survives |
| Publication.RestoresExactly | src/omf_retrieval/infrastructure/embedding/prepare.py:245-345 | A failed publication restores the prior state if and only if its first failing call is not the close of the staged file, the close or unlink of the placeholder, or the open after the rename |
| Publication.DescriptorExample | src/omf_retrieval/infrastructure/embedding/prepare.py:275-339 | A single failing close of the staged file leaves its name in the directory, with the new bytes |
| Publication.PlaceholderExample | src/omf_retrieval/infrastructure/embedding/prepare.py:282-345 | A single failing close of the placeholder leaves an empty backup name beside the untouched manifest |
| Publication.UnlinkExample | src/omf_retrieval/infrastructure/embedding/prepare.py:287-345 | A single failing unlink of the placeholder leaves an empty backup name too |
| Publication.NewBytesExample | src/omf_retrieval/infrastructure/embedding/prepare.py:299-345 | A single failing open after the rename leaves the new bytes under the manifest name |
| Lanes.CandidateRows | src/omf_retrieval/infrastructure/database/search.py:495-533 | Rows are read exactly when each is of the active generation and valid |
| Lanes.LaneDescending | src/omf_retrieval/infrastructure/database/search.py:148-151 | A lane lists distinct chunks at or above the floor by descending score, as many as the limit allows, and nothing left out scores higher |
| Lanes.TopThenFloor | src/omf_retrieval/application/search/policy.py:194-200 | Applying a higher floor to a top-N lane is the top-N of the higher-floor lane |
| Fusion.CollectLane | src/omf_retrieval/application/search/rrf.py:41-46 | The loop builds known candidates and one-based ranks, and refuses exactly disagreeing metadata |
| Fusion.ReciprocalRankFusion | src/omf_retrieval/application/search/rrf.py:18-81 | Succeeds exactly for positive policies and agreeing lanes; every chunk scores weight / (k + position + 1), summed over the lanes it is in, and reports these positions as ranks |
| Fusion.FusedScores | src/omf_retrieval/application/search/rrf.py:48-71 | Ranks and score of a fused chunk from its last positions in the lanes alone |
| Fusion.FusionPermutes | src/omf_retrieval/application/search/rrf.py:48-71 | The list is the union of the lanes, each chunk once, in strict (descending score, id) order |
| Fusion.FusionSymmetric | src/omf_retrieval/application/search/rrf.py:48-71 | Swapping lanes with their weights swaps the reported ranks and nothing else |
| Fusion.FusionDominance | src/omf_retrieval/application/search/rrf.py:48-71 | A candidate no worse in both lanes and strictly better in one comes first |
| Evidence.CollectGroups | src/omf_retrieval/application/search/evidence.py:40-44 | Each parent's group is its children in input order |
| Evidence.GroupEvidence | src/omf_retrieval/application/search/evidence.py:34-91 | The loops compute the specified items, or refuse a limit or inconsistent headings; over a ranked list each item shows its children field by field |
| Evidence.FirstIsBest | src/omf_retrieval/application/search/evidence.py:46-56 | In a ranked list a parent's first child has its maximum score and sorting its children changes nothing |
| Evidence.ItemsAreBest | src/omf_retrieval/application/search/evidence.py:50-90 | Each item carries its rank and its parent's maximum score |
| Evidence.EvidenceShown | src/omf_retrieval/application/search/evidence.py:57-90 | Item i shows exactly the list's items of its parent, best first: one match each with its own excerpt, lines, ranks and score, their common heading path and all their origins |
| Evidence.GroupingRanksParents | src/omf_retrieval/application/search/evidence.py:46-49 | Distinct parents by (best child, id), as many as the limit allows |
| Evidence.NoBetterParentLeftOut | src/omf_retrieval/application/search/evidence.py:46-49 | No parent left out has a child that would put it before one returned |
| Evidence.SmallerLimitIsPrefix | src/omf_retrieval/application/search/evidence.py:46-49 | The result for a smaller limit is a prefix of any successful larger one |
| Search.LaneRetained | src/omf_retrieval/application/search/service.py:124-125 | The floor applied again by the service keeps the whole lane |
| Search.SearchQuery | src/omf_retrieval/application/search/service.py:64-149 | When a search is refused as invalid, as without an index, or else found, with the items showing the surviving chunks and the status |
| Search.SurvivingRanked | src/omf_retrieval/application/search/service.py:126-139 | Grouping always receives a strictly ranked list, at both relevance levels |
| Search.ResultMeans | src/omf_retrieval/application/search/service.py:123-149 | Parents by best surviving child, every surviving child shown, strict results found in both lanes and contained in the default list |
| Search.NothingFound | src/omf_retrieval/application/search/service.py:144-149 | A default search has no evidence exactly when no chunk reaches its lane's floor |
| Calibration.AssessCalibration | src/omf_retrieval/application/search/calibration.py:37-74 | Calibratable exactly when every known case beats an unknown maximum; the margin is the least over the cases of the larger lane margin, absent exactly when a case has no score |
| Calibration.BestIsFirst | scripts/calibrate_search.py:70-82 | The best acceptable row is the first of the best-scored acceptable ones among the five visible rows |
| Calibration.AboveMaximumIsEmpty | scripts/calibrate_search.py:99-103 | A floor just above a lane's maximum empties it |
| Calibration.UnknownFindsNothing | scripts/calibrate_search.py:204-232 | With the calibrated floors the unknown query has no evidence at either level |
| Calibration.KnownKeepsBest | scripts/calibrate_search.py:70-82 | A known case that beats the maxima keeps, in a lane that beats its maximum, the first best-scored acceptable row among the visible ones in its fused list |
| Calibration.BlockedCaseLosesBest | src/omf_retrieval/application/search/calibration.py:50-68 | A case that does not beat the maxima loses every visible acceptable row to any floors above them |
| Calibration.Calibrate | scripts/calibrate_search.py:143-232 | Floors are offered exactly when all cases beat maxima below 1.0, and then separate the unknown query from every known case |
| Calibration.SearchUnknown | src/omf_retrieval/application/search/service.py:64-149 | With the calibrated floors a search for the unknown query, unless refused, answers no evidence and no items |
| Tokens.DecodeEncode | src/omf_retrieval/application/admin/tokens.py:116-126 | Decoding an encoding gives the bytes back, for any bytes |
| Tokens.EncodeDecode | src/omf_retrieval/application/admin/tokens.py:126-131 | Re-encoding a decoded text gives it back exactly when its unused trailing bits are zero |
| Tokens.SameBits | src/omf_retrieval/application/admin/tokens.py:116 | The encoding holds the bits of the bytes in big-endian order, zero bits following the last |
| Tokens.Vectors | src/omf_retrieval/application/admin/tokens.py:115-116 | Test vectors of RFC 4648, section 10, and the two URL-safe characters |
| Tokens.AcceptedExactly | src/omf_retrieval/application/admin/tokens.py:120-132 | A token is accepted exactly when it is omfr_, 16 lower-case hexadecimal digits, a dot and 43 URL-safe characters, the last of them one of the 16 whose two unused bits are zero |
| Tokens.ParseIssued | src/omf_retrieval/application/admin/tokens.py:105-132 | Every issued token parses to its key id and secret |
| Tokens.AcceptedIsCanonical | src/omf_retrieval/application/admin/tokens.py:105-132 | An accepted token is the only printed form of what it parses to |
| PhysicalLines.SplitPhysicalLines | src/omf_retrieval/application/indexing/ports.py:248-285 | The lines concatenate to the source, each is a physical line, and all but the last are ended |
| PhysicalLines.SplitUnique | src/omf_retrieval/application/indexing/metadata.py:357-365 | There is one such split of any text |
| Relations.CheckEvidence | src/omf_retrieval/application/indexing/metadata.py:283-297 | The cited range is accepted exactly when the evidence document decodes and has that many physical lines |
| Relations.ParseRelationSidecar | src/omf_retrieval/application/indexing/metadata.py:161-200 | Accepted exactly when every entry states a relation, field by field, that is grounded in the snapshot, and no relation or conflict pair repeats |

## Left out

- Parse, embedding and occurrence rows have no surrogate ids; their unique keys identify them.
- The `document_relations` table and `save_relations`, `indexed_at`, `started_at` and failure details: they add columns nothing here reads.
- Document metadata is one opaque value; the extractor's date, version and marker helpers are not modelled.
- File bytes are an optional text, absent when strict UTF-8 decoding fails; exact-type checks of Python values have no counterpart.
- Advisory locks and `FOR UPDATE` are parameters; the re-read of the pointer under the source lock cannot differ in a serial model.
- The checks for two runs in a unique slot and for a missing activation time cannot fire under the database constraints and are not branches of the model.
- `IndexService.index` without a `run_id` and commands that call it outside the pipeline are not modelled.
- Durability (what `fsync` guarantees after a crash), file modes other than regular or not, and the path's device number are not modelled; interference happens only while a caller's check runs; a failing call has no effect.
- The calls of the `finally` block are not in a publication's schedule: what it leaves is stated for the case that none of them fails.
- Floating-point rounding: RRF scores are reals and one raw score serves SQL and application; trigram and vector scoring are inputs.
- Evidence origins are sets, not sorted tuples; a conflict pair is a set of two paths.
- JSON decoding, path canonicalisation, policy hashing, settings, authentication, CLI, API and web client are outside the model.
- Base64 follows the unpadded URL-safe form only; audit HMACs are not modelled.
- Lifecycle.BuildKeepsInvariant: assumes the repository's configuration row is the one the service builds with, which the repository's constructor validates against the persisted hash.
