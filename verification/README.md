# Sofias Memory: a verified model

Sofias Memory keeps documents, a knowledge graph and cognitive memories in PostgreSQL,
runs its work as durable pipelines, and projects the graph into Neo4j. This project
models the parts of it whose correctness spans operations, and proves what they promise.
To check everything, run `dafny verify dfyconfig.toml` with Dafny 4.11.

Each committed transaction is one atomic step; whatever happens outside a transaction may
interleave, crash, or come late. Tables are maps and sets of rows. Ids drawn at random are
fresh; hashes and HMACs are injective; a tokenizer is any function from text to a count;
YAML and JSON are functions that undo each other.

## The modules

Durable pipeline engine

- `PipelineLifecycle` - run and step rows as objects, the two status matrices.
- `EngineTransactions` - every short transaction as a function of the committed rows:
  submission, claim, the engine's five phases, heartbeat, cancellation, stale recovery.
- `EngineSession` - the same transactions as they run, assigning fields of loaded rows.
- `EngineSystem` - any number of live, stale and crashed executions of one run,
  interleaved with its environment.
- `EngineSafety` - the invariant of that system and its preservation.
- `EngineTheorems`, `EngineResume` - exactly-once effects, cancellation, progress,
  termination; resume as one straight pass; the drift check.
- `EngineOutcomes` - what each transaction and recovery leaves, written out: waits, claims,
  codes, times.

Knowledge graph

- `GraphProjection` - outbox commands, what Neo4j does with them, reconciliation counts.
- `KnowledgeStore` - the rows of one dataset's active generation, the graph a rebuild
  would load from them, mark and sweep, the invariant, the scan that finds NEXT edges.
- `KnowledgeForget`, `KnowledgeForgetSafety` - forgetting a source from local candidates,
  forgetting a dataset, and when the cheap form is the global one.
- `KnowledgeCognify`, `KnowledgeCognifySafety`, `KnowledgeCognifySource`,
  `KnowledgeCognifyBatch`, `KnowledgeCognifyTheorems` - preparing a batch, persisting it
  under savepoints, and what that keeps.
- `KnowledgeStatuses`, `KnowledgeMerging` - what a cognify does to source statuses, and to the
  contents of the rows it reuses.
- `KnowledgeExtraction`, `KnowledgeArrivals`, `KnowledgeTold`, `KnowledgeContents` - the rows a
  cognify leaves, told by what the provider extracted.
- `KnowledgeLanding` - which sources are worked on, what is left of them, and that once is enough.
- `KnowledgeDocuments` - what a forget leaves of sources and documents.
- `KnowledgeRollbacks` - what a rolled back source leaves behind.
- `KnowledgeRuns` - any sequence of remembers, cognifies and forgets.
- `KnowledgeFailures` - which failing sources leave incremental maintenance exact, and a run in
  which one does not.
- `KnowledgeSession` - cognify and forget as loops over the rows of one transaction.

Cognitive memory

- `CognitiveMemory` - items, provenance and the idempotency ledger; one transaction as a
  function and as methods.
- `CognitiveMemoryRaces` - any number of calls interleaved at their transactions.
- `CognitiveMemoryOutcomes` - what each operation stores and answers, field by field.

Chunker, maintenance, SKILL.md

- `Chunking` - the binary searches, the span loop, the tail merge, the chunks.
- `Importance`, `GraphMaintenance`, `GraphMaintenanceSession` - weights, markers and
  degree centrality; plan, apply and in-place update; a whole pass.
- `MaintenanceOutcomes` - what a pass leaves of every row, degrees and blends written out.
- `SkillMarkdown`, `SkillMarkdownTheorems` - the printer and the parser, and the round trip.
- `SkillImports` - line breaks, names, what an import accepts and what it makes.

`Wrappers` and `Ordering` hold the optional value, sorting, and lists without repeats.

## Where a promise fails, and exactly when

- Progress after a stale recovery. `pipeline_recovery.py:401-407` reports 1.0 for a
  CANCELLING run that was stopped between two steps, although the remaining steps never
  succeeded. Progress equals the share of SUCCEEDED steps exactly when recovery found an
  orphaned RUNNING step (`RecoveredProgressIsExact`, `RecoveredProgressCounterexample`).
- The chunk limit. `_preferred_cut` searches up to one character past the greatest end
  that fits, so a span can hold one trailing newline too many. It exceeds `max_tokens`
  exactly when the cut takes the newline at that end (`CutOverstepsOnlyByNewline`,
  `NewlineOversteps`).
- Forgetting beside a FAILED source. The authoritative queries count only ACTIVE sources,
  but a source whose re-extraction fails is marked FAILED and keeps its active chunks.
  Forgetting another source can then deactivate rows those chunks still support. Source
  forget equals mark and sweep exactly when nothing is stranded in this way
  (`ForgetIsMarkAndSweep`); a run of seven events strands an entity
  (`FailedSourceIsStranded`). It never happens in runs in which a source fails only while
  its active chunks mention nothing (`UnmentionedFailuresAreHarmless`).
- Savepoint isolation. A source that rolls back leaves no row, mention or evidence
  (`CognifyIsolatesSources`), but plans are shared by the batch: the data of a new row are
  those of the first entity heard under its key, whether or not that source lands
  (`EntityContents`), so a rolled back source can name a row another one leaves
  (`RolledBackNameStays`).
- Degrees. They add up to twice the non-loop relations exactly when every such relation
  joins two counted entities (`Handshake`); in a maintenance pass they always do
  (`PassHandshake`).
- Centralities. A marker is read back exactly when its centrality lies in [0, 1]
  (`CentralityMustBeAWeight`); those a pass computes always do (`CentralitiesAreWeights`).
- SKILL.md tools. A declared tool with whitespace in it passes the validators and comes
  back as several. The round trip holds exactly when no tool has whitespace (`RoundTrip`,
  `ToolWithSpaceSplits`); whatever an import accepted always round-trips
  (`ImportsRoundTrip`).

## Model

| member | source | states |
|---|---|---|
| `PipelineLifecycle.TerminalRunsNeverMove` | sofias_memory/domain/pipeline_lifecycle.py:52-89 | terminal runs have no outgoing transition; a CANCELLING run can only end CANCELLED or FAILED |
| `PipelineLifecycle.RunRow.Transition` | sofias_memory/services/pipeline_lifecycle.py:125-178 | a move is refused, changing nothing, exactly outside the matrix; an allowed one sets attempt, worker, timestamps and error as specified and no other field |
| `PipelineLifecycle.RunRow.ApplyProgress` | sofias_memory/services/pipeline_lifecycle.py:238-242 | progress is stored exactly when it lies in [0, 1] |
| `PipelineLifecycle.StepRow.Transition` | sofias_memory/services/pipeline_lifecycle.py:181-235 | the step twin: refused exactly outside the matrix, otherwise the whole new row |
| `EngineSession.UnitOfWork.ValidateStoredPlan` | sofias_memory/pipelines/engine.py:476-534 | the one-pass loop returns drift, corruption, or the accumulated outputs and first pending index of the plan specification |
| `EngineSession.UnitOfWork.PrepareRun` | sofias_memory/pipelines/engine.py:384-474 | what prepare commits and answers on every branch: not owner, drift, corrupt, cancelling, all done, ready |
| `EngineSession.UnitOfWork.CheckpointBeforeStep` | sofias_memory/pipelines/engine.py:544-633 | what a checkpoint commits and answers: fence, cancellation, pause, unresolvable or drifted input, started step |
| `EngineSession.UnitOfWork.LoadFencedRunningStep` | sofias_memory/pipelines/engine.py:652-694 | the fence holds only for the owner, the running step and its expected attempt |
| `EngineSession.UnitOfWork.CommitStepSuccess` | sofias_memory/pipelines/engine.py:741-812 | what a persisted success commits: step, progress, cancellation, last step |
| `EngineSession.UnitOfWork.StoreSuccess` | sofias_memory/pipelines/engine.py:780-812 | the branch after the fence held: output, progress, terminal moves |
| `EngineSession.UnitOfWork.CommitStepFailure` | sofias_memory/pipelines/engine.py:814-869 | what a failure commits: retry with backoff while attempts remain, else failure |
| `EngineSession.UnitOfWork.CancelFailedStep` | sofias_memory/pipelines/engine.py:871-909 | a retryable failure under cancellation ends step and run CANCELLED in one transaction |
| `EngineSession.UnitOfWork.CancelQueuedSteps` | sofias_memory/pipelines/engine.py:536-542 | every QUEUED step becomes CANCELLED and no other step moves |
| `EngineSession.UnitOfWork.CancelRun` | sofias_memory/services/run_control.py:126-167 | a cancel request ends a QUEUED run at once, marks a RUNNING one CANCELLING, and leaves the others alone |
| `EngineSafety.InitialInv` | sofias_memory/services/pipeline_lifecycle.py:38-122 | a submitted run with the built step plan satisfies the system invariant |
| `EngineSafety.NextKeepsInv` | sofias_memory/pipelines/engine.py:264-382 | every event of every execution, operator, claimer or recovery keeps the system invariant |
| `EngineSafety.PrepareKeepsRows` | sofias_memory/pipelines/engine.py:384-474 | prepare keeps the rows in shape and, by the owner in flight, never raises |
| `EngineSafety.CheckpointKeepsRows` | sofias_memory/pipelines/engine.py:544-633 | a checkpoint keeps the rows in shape, starts at most the next step and stores its hash |
| `EngineSafety.SuccessKeepsRows` | sofias_memory/pipelines/engine.py:741-812 | a committed success extends the SUCCEEDED prefix by one and keeps the shape |
| `EngineSafety.FailureKeepsRows` | sofias_memory/pipelines/engine.py:814-909 | a committed failure keeps the shape and never raises for an owner in flight |
| `EngineSafety.CancellingRecovered` | sofias_memory/services/pipeline_recovery.py:335-472 | stale recovery of a CANCELLING run ends it CANCELLED or FAILED and keeps the shape |
| `EngineSafety.RunningRecovered` | sofias_memory/services/pipeline_recovery.py:204-333 | stale recovery of a RUNNING run requeues or fails it and keeps the shape |
| `EngineTheorems.RunAndStepsAgree` | sofias_memory/pipelines/engine.py:430-458 | in every reachable state: k SUCCEEDED steps, at most one RUNNING or FAILED, then only QUEUED or only CANCELLED, as the run status says |
| `EngineTheorems.ProgressIsTheShareDone` | sofias_memory/pipelines/engine.py:787-790 | in every reachable state progress is k/n, except that a CANCELLED run may report 1.0; a SUCCEEDED run always reports 1.0 |
| `EngineTheorems.MemoryMatchesRows` | sofias_memory/pipelines/engine.py:290-294 | the owner's in-memory succeeded count and outputs are exactly the SUCCEEDED rows |
| `EngineTheorems.ExactlyOnce` | sofias_memory/pipelines/engine.py:652-694 | over every interleaving a step's persist is committed once if its row is SUCCEEDED and never otherwise, by the claim that started its latest attempt |
| `EngineTheorems.TerminalIsForever` | sofias_memory/domain/pipeline_lifecycle.py:40-63 | no event changes the rows or effects of a terminal run |
| `EngineTheorems.CancellationIsSafe` | sofias_memory/pipelines/engine.py:571-577 | once CANCELLING no step starts, at most the one in flight succeeds, the run ends only CANCELLED or FAILED, and it ends FAILED if a permanent failure is ever committed |
| `EngineTheorems.FailureIsReported` | sofias_memory/pipelines/engine.py:814-909 | how the owner's failure leaves step and run: permanent, FAILED under its own code, CANCELLING or not; retryable, a cancellation if one was requested, else a retry while attempts remain, else FAILED; no other step moves but by cancellation |
| `EngineTheorems.PermanentFailureIsFinal` | sofias_memory/pipelines/engine.py:831-839 | whatever events follow a committed permanent failure, the run stays FAILED under that failure's code |
| `EngineTheorems.CancelledNeverFailedForGood` | sofias_memory/pipelines/engine.py:871-909 | in every run from submission that ends CANCELLED no permanent failure was ever committed |
| `EngineTheorems.ProgressNeverFalls` | sofias_memory/pipelines/engine.py:787-790 | reported progress never decreases |
| `EngineTheorems.RecoveredProgressIsExact` | sofias_memory/services/pipeline_recovery.py:401-409 | a recovered CANCELLING run reports the share of SUCCEEDED steps exactly when an orphaned RUNNING step was found |
| `EngineTheorems.RecoveredProgressCounterexample` | sofias_memory/services/pipeline_recovery.py:401-409 | submit, claim, cancel, recover: progress 1.0 with nothing done |
| `EngineTheorems.PhaseAdvances` | sofias_memory/pipelines/engine.py:295-375 | every phase brings its execution strictly closer to its end, and the owner of a run in flight never raises |
| `EngineTheorems.WorkNeverGrows` | sofias_memory/pipelines/engine.py:841-869 | attempts left and phases left form a measure no event increases and every owner phase or claim decreases |
| `EngineTheorems.BoundedWork` | sofias_memory/pipelines/retry_policy.py:50-51 | a run of n steps is claimed at most max_run_attempts times, and makes at most max_run_attempts * (3n + 3) claims and phases |
| `EngineTheorems.NeverStuck` | sofias_memory/services/pipeline_queue_claimer.py:152-201 | a run that is neither terminal nor paused can be claimed once its backoff is over, or its owner has a phase to take |
| `EngineTheorems.FairRunsEnd` | sofias_memory/pipelines/engine.py:841-869 | every fair interleaving, whatever crashes, stale phases, retries, cancellations and recoveries fill it, with more rounds than work left, has the run terminal or paused after one of them |
| `EngineTheorems.FairRunsTerminate` | sofias_memory/pipelines/engine.py:264-382 | every fair interleaving without a shutdown request leaves the run terminal |
| `EngineTheorems.SubmittedRunsTerminate` | sofias_memory/pipelines/retry_policy.py:50-51 | from submission, more than `max_run_attempts * (3n + 3)` fair rounds without a shutdown request end in a terminal state |
| `EngineTheorems.RunsToItsEnd` | sofias_memory/pipelines/engine.py:264-382 | from every reachable state a sequence of claims and owner phases, no longer than the work left, ends terminal or paused |
| `EngineTheorems.BackoffGrowsToItsCap` | sofias_memory/pipelines/retry_policy.py:53-61 | jitter aside, delays never shrink with the attempt and never exceed the cap |
| `EngineOutcomes.RetryWaits` | sofias_memory/pipelines/engine.py:841-869 | after a retryable failure with attempts left the run is due exactly at now + min(cap, base doubled attempt - 1 times) + jitter |
| `EngineOutcomes.ClaimedWhenDue` | sofias_memory/services/pipeline_queue_claimer.py:152-201 | a waiting run is claimed from its time on and never earlier, and what a claim leaves of run and executions, field by field |
| `EngineOutcomes.OnlyQueuedIsClaimed` | sofias_memory/services/pipeline_queue_claimer.py:152-201 | a claim of a run that is not QUEUED does nothing |
| `EngineOutcomes.WaitLasts` | sofias_memory/pipelines/engine.py:841-869 | over any interleaving without a claim that is due, a waiting run stays exactly as it is or is cancelled |
| `EngineOutcomes.RunningRecoveryIsReported` | sofias_memory/services/pipeline_recovery.py:204-333 | stale recovery of a RUNNING run: which code it fails under, or until when it waits, with the backoff written out; the orphaned step keeps its attempt, hash and error |
| `EngineOutcomes.CancellingRecoveryIsReported` | sofias_memory/services/pipeline_recovery.py:335-472 | stale recovery of a CANCELLING run: CANCELLED with every step from the orphan on, or FAILED as ambiguous with the orphan alone |
| `EngineOutcomes.CancelIsReported` | sofias_memory/services/run_control.py:126-167 | a cancel request ends a QUEUED run and all its open steps at once, makes a RUNNING one CANCELLING, leaves any other alone, and moves no execution |
| `EngineOutcomes.HeartbeatIsReported` | sofias_memory/infrastructure/postgres/repositories/pipeline_runs.py:480-520 | a heartbeat counts exactly for the execution that owns a run in flight |
| `EngineOutcomes.CheckpointIsReported` | sofias_memory/pipelines/engine.py:544-633 | the owner at the next step: ends a CANCELLING run, does nothing if told to stop, fails an input that has no derivation or drifted, and otherwise starts the step under its hash |
| `EngineOutcomes.SuccessIsReported` | sofias_memory/pipelines/engine.py:741-812 | the owner's commit: output, share done, and the end of the run, its cancellation, or the next step; a failed step.persist leaves nothing |
| `EngineOutcomes.SupersededIsHarmless` | sofias_memory/pipelines/engine.py:652-694 | an execution whose claim was superseded moves no row, commits no effect and starts no step |
| `EngineOutcomes.MovesAreAllowed` | sofias_memory/domain/pipeline_lifecycle.py:52-89 | in any state whatever, every event moves the run and each step along the status matrices or not at all |
| `EngineOutcomes.TimesAgree` | sofias_memory/services/pipeline_lifecycle.py:125-235 | in every reachable state a run has started exactly if it was claimed, finished exactly if terminal, waits only while QUEUED, has an error code exactly if FAILED; first start and finish are never overwritten |
| `EngineOutcomes.SubmittedPlan` | sofias_memory/services/pipeline_lifecycle.py:38-122 | submission stores the definition's steps in order, QUEUED and never tried, and a run due at once |
| `EngineOutcomes.HashCoversDefinitionAndInput` | sofias_memory/pipelines/registry.py:221-233 | two step hashes agree exactly if definition id and derived input do |
| `EngineResume.ResumeRefinesStraightPass` | sofias_memory/pipelines/engine.py:290-375 | after any mix of retries, pauses, crashes and reclaims the stored outputs are those of one uninterrupted pass |
| `EngineResume.DriftCheckIsExact` | sofias_memory/pipelines/engine.py:476-534 | a resume of a run in flight, CANCELLING or not, fails it with STEP_INPUT_DRIFT exactly when the step count, an ordinal, a name or a stored hash disagrees; otherwise a RUNNING run goes on and a CANCELLING one ends CANCELLED |
| `EngineResume.ScanFindsDisagreement` | sofias_memory/pipelines/engine.py:490-530 | the scanning loop reports drift exactly when some step disagrees |
| `EngineResume.RedefinedStepDisagrees` | sofias_memory/pipelines/registry.py:221-233 | a changed definition_id of a step with a stored hash is a disagreement |
| `EngineResume.NoFalseDrift` | sofias_memory/pipelines/engine.py:476-628 | with stable derivers, after any events no resume and no checkpoint by any execution fails a run of a submitted plan with STEP_INPUT_DRIFT, and no step disagrees with the definition |
| `GraphProjection.ReplayUpserts` | sofias_memory/infrastructure/neo4j/projection.py:20-72 | a batch of upserts with no edge before its endpoints never fails and adds exactly what it names |
| `GraphProjection.ReplayDeletes` | sofias_memory/infrastructure/neo4j/projection.py:74-99 | a batch of deletes removes exactly what it names and the edges of deleted nodes |
| `GraphProjection.DistinctStaysOrdered` | sofias_memory/services/cognify.py:1768-1795 | merging commands by identity keeps every edge after its endpoints |
| `GraphProjection.CompareIsExact` | sofias_memory/services/graph_reconciliation_service.py:220-238 | the missing and extra counts are all zero exactly when the projections are equal |
| `KnowledgeStore.NextEdgesAreConsecutive` | sofias_memory/services/cognify.py:1747-1765 | grouping by document, sorting by ordinal and pairing neighbours finds exactly the chunks whose ordinals follow on |
| `KnowledgeStore.RebuildScanIsExpected` | sofias_memory/infrastructure/postgres/repositories/graph_rebuild.py:253-265 | the rebuild's grouping, sorting and pairing, over any listing of the active chunks, loads exactly the NEXT edges that reconciliation expects |
| `KnowledgeForgetSafety.ForgetLeaves` | sofias_memory/services/forget.py:595-652 | row by row, which chunks, relations and entities a source forget leaves active, in terms of the rows before |
| `KnowledgeDocuments.SourceForgetLeaves` | sofias_memory/services/forget.py:595-691 | a source forget that passes its guard leaves the source DELETING, no active chunk, and one fresh empty document exactly if it was for memory only and there was one; otherwise no document; other sources keep theirs |
| `KnowledgeDocuments.DatasetForgetLeaves` | sofias_memory/services/forget.py:694-787 | the same for every source of a dataset; a DELETED source stays DELETED |
| `KnowledgeDocuments.FinalizeSettles` | sofias_memory/pipelines/steps/forget.py:650-740 | the last step settles a DELETING source, and only that one, as PENDING or DELETED |
| `KnowledgeDocuments.ForgottenMemoryStartsOver` | sofias_memory/pipelines/steps/forget.py:202-255 | forgotten for its memory only and settled, a source is cognified again from its empty document |
| `KnowledgeDocuments.DeletedStaysDeleted` | sofias_memory/pipelines/steps/forget.py:650-740 | forgotten in full and settled, a source is never cognified again |
| `KnowledgeForgetSafety.MarkedChunks` | sofias_memory/infrastructure/postgres/repositories/relation_evidence.py:137-172 | the authoritative queries count exactly the remaining chunks of ACTIVE sources |
| `KnowledgeForgetSafety.ForgetKeepsInv` | sofias_memory/services/forget.py:595-652 | a source forget keeps the invariant: no active relation with an inactive endpoint, every active row supported |
| `KnowledgeForgetSafety.ForgetIsMarkAndSweep` | sofias_memory/services/forget.py:616-652 | forgetting by local candidates equals mark and sweep exactly when nothing is stranded |
| `KnowledgeForgetSafety.RelationSwept` | sofias_memory/services/forget.py:616-628 | one relation ends as mark and sweep would have it exactly if it is not stranded |
| `KnowledgeForgetSafety.EntitySwept` | sofias_memory/services/forget.py:633-652 | one entity ends as mark and sweep would have it exactly if it is not stranded |
| `KnowledgeForgetSafety.ForgetIsExactWhenOthersActive` | sofias_memory/services/forget.py:595-652 | when every other source with mentions on active chunks is ACTIVE, nothing is stranded and the local form is the global one |
| `KnowledgeFailures.FailedSourceIsStranded` | sofias_memory/infrastructure/postgres/repositories/entity_mentions.py:67-102 | remember two sources, cognify both, change the prompt, have the second refused, forget the first: an entity the second still mentions in an active chunk is inactive |
| `KnowledgeForgetSafety.ForgetProjects` | sofias_memory/services/forget.py:790-864 | a source forget's delete commands take a projection in step with the rows before to one in step with the rows after |
| `KnowledgeForgetSafety.ForgetAllProjects` | sofias_memory/services/forget.py:694-787 | a dataset forget leaves nothing to project and its commands take the projection there |
| `KnowledgeForgetSafety.ForgetAllKeepsInv` | sofias_memory/services/forget.py:694-787 | a dataset forget keeps the invariant |
| `KnowledgeCognify.KeyOf` | sofias_memory/services/cognify.py:933-961 | a relation's endpoint resolves to the key of a declared entity with its local id |
| `KnowledgeCognify.OpsOf` | sofias_memory/services/cognify.py:931-990 | over all chunks, every relation comes after mentions of both its endpoints in the same chunk |
| `KnowledgeCognifySafety.MentionEffect` | sofias_memory/services/cognify.py:1234-1264 | applying an entity plan adds its key and its mention and no other |
| `KnowledgeCognifySafety.MentionKeepsInv` | sofias_memory/services/cognify.py:1363-1405 | applying an entity plan keeps the invariant: one active row a key, one mention an entity and chunk |
| `KnowledgeCognifySafety.EvidenceKeepsInv` | sofias_memory/services/cognify.py:1407-1441 | applying a relation plan keeps the invariant, evidence with both endpoint mentions included |
| `KnowledgeCognifySafety.EvidenceAddsIdentity` | sofias_memory/services/cognify.py:1266-1285 | applying a relation plan adds its identity and no other |
| `KnowledgeCognifySafety.EvidenceAddsEvidence` | sofias_memory/services/cognify.py:1286-1297 | applying a relation plan adds its evidence and no other |
| `KnowledgeCognifySource.SourceAdds` | sofias_memory/services/cognify.py:1164-1306 | one source's transaction adds exactly the keys, mentions, identities and evidence of its chunks |
| `KnowledgeCognifySource.CognifyCommandsOrdered` | sofias_memory/services/cognify.py:1331-1354 | in the emitted order no edge comes before its endpoints |
| `KnowledgeCognifySource.CognifyProjects` | sofias_memory/services/cognify.py:1331-1354 | a landed source's commands bring a projection from the rows before to the rows after |
| `KnowledgeCognifySource.PersistSourceKeeps` | sofias_memory/services/cognify.py:1164-1361 | a landed source keeps the invariant and the plans of the sources after it |
| `KnowledgeCognifyBatch.SeeFromKeepsResolver` | sofias_memory/services/cognify.py:907-998 | resolving extractions keeps the batch's planned ids unused by any row and by each other |
| `KnowledgeCognifyBatch.PrepareKeepsBatch` | sofias_memory/services/cognify.py:480-558 | every plan of a prepared batch fits the rows it was prepared against, and plans do not overlap |
| `KnowledgeCognifyBatch.PersistOneKeeps` | sofias_memory/services/cognify.py:1127-1145 | a source landing or rolling back keeps the invariant and every later plan |
| `KnowledgeCognifyTheorems.PersistBatchIsolatesSources` | sofias_memory/services/cognify.py:1102-1162 | whichever sources roll back, keys, identities, mentions and evidence afterwards are those from before and those of the survivors |
| `KnowledgeCognifyTheorems.CognifyIsolatesSources` | sofias_memory/services/cognify.py:480-558 | the same for a whole cognify, prepared and persisted |
| `KnowledgeCognifyTheorems.CognifyKeeps` | sofias_memory/services/cognify.py:1102-1162 | a cognify keeps the invariant, keeps the projection in step, and strands nothing |
| `KnowledgeCognifyTheorems.PlannedIsPersisted` | sofias_memory/services/cognify.py:400-409 | when no source rolls back, the planned counters are the persisted ones |
| `KnowledgeCognifyTheorems.SourceCountsAgree` | sofias_memory/services/cognify.py:992-998 | source by source, what was planned as created is what is created |
| `KnowledgeStatuses.CognifyStatuses` | sofias_memory/services/cognify.py:1123-1152 | which sources a cognify leaves ACTIVE and which FAILED, for any refusals and any rollbacks; no other status changes |
| `KnowledgeMerging.CognifyEnriches` | sofias_memory/services/cognify.py:1363-1441 | over a cognify every row keeps its key or identity, its aliases and any description, and its confidence never falls |
| `KnowledgeMerging.LandedKnowledgeArrives` | sofias_memory/services/cognify.py:907-998 | every alias and confidence a landed source extracted is in the active row of its key, every relation confidence in the row of its identity |
| `KnowledgeArrivals.CognifyTells` | sofias_memory/services/cognify.py:907-998 | whatever is refused or rolls back: an entity is mentioned in a chunk, and a relation evidenced by it, exactly if it was before, or the chunk was read and its extraction declares the entity, or relates what its source id names to what its target id names |
| `KnowledgeTold.SaidEntityArrives` | sofias_memory/services/cognify.py:1234-1264 | every entity declared by a chunk that was read has an active row under its key, mentioned in that chunk |
| `KnowledgeTold.SaidRelationArrives` | sofias_memory/services/cognify.py:952-990 | every relation stated by a chunk that was read has an active row from the entity declared under its source id to the one declared under its target id, with evidence on that chunk |
| `KnowledgeTold.NewMentionWasSaid` | sofias_memory/services/cognify.py:1234-1264 | a new mention is of a chunk that was read, by an entity its extraction declares |
| `KnowledgeTold.NewEvidenceWasSaid` | sofias_memory/services/cognify.py:1286-1297 | new evidence is of a chunk that was read, for a relation its extraction states in that direction |
| `KnowledgeTold.NewEntityWasSaid` | sofias_memory/services/cognify.py:1363-1405 | a newly active entity is declared by a chunk that was read |
| `KnowledgeTold.NewRelationWasSaid` | sofias_memory/services/cognify.py:1407-1441 | a newly active relation is stated, in its direction, by a chunk that was read |
| `KnowledgeContents.EntityContents` | sofias_memory/services/cognify.py:1000-1043 | an entity's data are those of its row before, or of the first entity heard under its key in the batch; aliases and confidence come from there or from such entities |
| `KnowledgeContents.RelationContents` | sofias_memory/services/cognify.py:1045-1100 | a relation's description is the one before, or, where there was none, the first heard in the batch; its confidence is the one before or one heard |
| `KnowledgeRollbacks.RolledBackNameStays` | sofias_memory/services/cognify.py:1114-1119 | two sources that mention a new entity, the first rolls back: the row the second leaves carries the name the first gave |
| `KnowledgeLanding.DecisionIs` | sofias_memory/services/cognify.py:601-688 | when a source is worked on, activated, or has no document to work on |
| `KnowledgeLanding.NewestIsLast` | sofias_memory/infrastructure/postgres/repositories/documents.py:72-89 | the document worked on is the active one created last |
| `KnowledgeLanding.LandedSourceIsDone` | sofias_memory/services/cognify.py:784-852 | a source that lands is ACTIVE, its document summarized, every chunk extracted: those it had, or one for each ordinal its text is cut into |
| `KnowledgeLanding.UnlandedSourceIsKept` | sofias_memory/services/cognify.py:1123-1152 | a source that does not land keeps its documents and chunks, markers included |
| `KnowledgeLanding.OnceIsEnough` | sofias_memory/services/cognify.py:601-688 | after a cognify in which nothing was refused or rolled back, the same request changes nothing, whatever the provider would return |
| `KnowledgeRuns.ProjectionAgreesWithSource` | sofias_memory/services/graph_reconciliation_service.py:120-174 | after any run, replaying all outbox commands never misses an endpoint and gives exactly the graph PostgreSQL holds, its NEXT edges as the rebuild scans them; the diff is all zeros |
| `KnowledgeRuns.NothingDangles` | sofias_memory/services/forget.py:595-652 | after any run an active relation joins active entities and every active row is supported |
| `KnowledgeRuns.EvidenceNeedsMentions` | sofias_memory/services/cognify.py:1229-1297 | after any run evidence comes with mentions of both endpoints in its chunk |
| `KnowledgeRuns.IncrementalIsMarkAndSweep` | sofias_memory/services/forget.py:595-652 | along runs whose forgets strand nothing the incremental graph is always the global recomputation |
| `KnowledgeFailures.UnmentionedFailuresAreHarmless` | sofias_memory/services/cognify.py:1481-1486 | in every run in which a source fails only while its active chunks mention nothing, incremental maintenance is exactly mark and sweep |
| `KnowledgeSession.KnowledgeUnitOfWork.ForgetSourceRows` | sofias_memory/pipelines/steps/forget.py:202-255 | the guards, the flag flips and the outbox rows of a source forget, as specified |
| `KnowledgeSession.KnowledgeUnitOfWork.ForgetDatasetRows` | sofias_memory/services/forget.py:694-787 | a dataset forget's flag flips, reset documents and outbox rows, as specified |
| `KnowledgeSession.FindOrphanRelations` | sofias_memory/services/forget.py:616-628 | the candidate loop finds exactly the touched relations without authoritative evidence |
| `KnowledgeSession.FindOrphanEntities` | sofias_memory/services/forget.py:633-652 | the candidate loop finds exactly the touched entities with neither authoritative mention nor relation |
| `KnowledgeSession.BuildForgetCommands` | sofias_memory/services/forget.py:790-864 | the command dictionary filled in five loops is the specified command list |
| `KnowledgeSession.FindNextEdges` | sofias_memory/services/forget.py:830-848 | the grouping and scanning loops find the specified NEXT edges |
| `KnowledgeSession.KnowledgeUnitOfWork.ApplyEntityPlan` | sofias_memory/services/cognify.py:1363-1405 | reuse of an active row by key with merged aliases and larger confidence, or a new row; one mention a chunk |
| `KnowledgeSession.KnowledgeUnitOfWork.ApplyRelationPlan` | sofias_memory/services/cognify.py:1407-1441 | reuse of an active row by identity, or a new row; one evidence row a chunk |
| `KnowledgeSession.KnowledgeUnitOfWork.PersistSourcePlan` | sofias_memory/services/cognify.py:1164-1361 | the loop over a source's knowledge and its closing writes leave the specified rows and counters |
| `KnowledgeSession.KnowledgeUnitOfWork.PersistPreparedBatch` | sofias_memory/services/cognify.py:1102-1162 | the loop over sources under savepoints leaves the specified rows and totals |
| `KnowledgeSession.ResolveSourceKnowledge` | sofias_memory/services/cognify.py:907-998 | the resolving loop returns the specified resolver and counters, writing nothing |
| `CognitiveMemory.MemorySession.CreateItem` | sofias_memory/services/cognitive_memory.py:249-318 | create commits item, provenance and ledger row together, or answers the winner, or changes nothing |
| `CognitiveMemory.MemorySession.SupersedeItem` | sofias_memory/services/cognitive_memory.py:329-432 | supersede links the target to its replacement under the claimed key, or changes nothing |
| `CognitiveMemory.MemorySession.ForgetItem` | sofias_memory/services/cognitive_memory.py:434-514 | forget scrubs the item once and is idempotent, or changes nothing |
| `CognitiveMemory.MemorySession.ClaimKey` | sofias_memory/services/cognitive_memory.py:297-318 | a ledger insert is refused, changing nothing, exactly when the key is taken |
| `CognitiveMemory.ReplayIsExact` | sofias_memory/services/cognitive_memory.py:215-227 | a bound key answers its own request with its own ids and any other with a conflict |
| `CognitiveMemoryOutcomes.CreateIs` | sofias_memory/services/cognitive_memory.py:249-318 | a create under a free key succeeds: one new row, field by field as requested, and the answer shows it |
| `CognitiveMemoryOutcomes.SupersedeIs` | sofias_memory/services/cognitive_memory.py:329-432 | a supersede under a free key succeeds exactly on an ACTIVE target: both rows field by field, and what each refusal answers |
| `CognitiveMemoryOutcomes.ForgetIs` | sofias_memory/services/cognitive_memory.py:434-514 | a forget under a free key leaves a tombstone with its type and links, provenance of kind and system alone, every other row as it was, and answers what is stored |
| `CognitiveMemoryOutcomes.AnsweredIsDone` | sofias_memory/services/cognitive_memory.py:575-728 | over any interleaving a successful answer stays true: the created item exists, the superseded one points to the named replacement, the forgotten one is FORGOTTEN |
| `CognitiveMemory.TransactKeepsStore` | sofias_memory/services/cognitive_memory.py:249-514 | every transaction keeps the table constraints, evolves items only forward, and settles its answer |
| `CognitiveMemory.TransactKeepsProvenance` | sofias_memory/services/cognitive_memory.py:488-511 | a transaction removes provenance references exactly where it forgets an item |
| `CognitiveMemoryRaces.OneKeyOneAnswer` | sofias_memory/services/cognitive_memory.py:575-728 | two successful answers under one key answer one request and name the same ids, however the calls raced |
| `CognitiveMemoryRaces.OneKeyOneChange` | sofias_memory/services/cognitive_memory.py:249-318 | over any interleaving one key commits at most one state change |
| `CognitiveMemoryRaces.FailureChangesNothing` | sofias_memory/services/cognitive_memory.py:215-227 | over any interleaving the event in which a call fails changes no row and binds no key, and a conflict says the key answers another request |
| `CognitiveMemoryRaces.InternalErrorsAreUnreachable` | sofias_memory/services/cognitive_memory.py:575-728 | the no-winner, no-result and missing-item errors never happen |
| `CognitiveMemoryRaces.LineageIsAcyclic` | migrations/versions/0018_create_native_cognitive_memory.py:132-179 | superseded_by links form finite acyclic chains of one memory type whose last item alone may be ACTIVE |
| `CognitiveMemoryRaces.ChainsAreDisjoint` | migrations/versions/0018_create_native_cognitive_memory.py:132-179 | in every reachable state two chains that share an item are one chain, entered at two places |
| `CognitiveMemoryRaces.ForgottenIsFinal` | sofias_memory/services/cognitive_memory.py:488-511 | a FORGOTTEN item never changes again, not even on replay of the key that created it; its provenance keeps only kind and system and never changes again either |
| `CognitiveMemoryRaces.ProvenanceIsKept` | sofias_memory/services/cognitive_memory.py:488-511 | until its item is forgotten, provenance stays as it was given, over any interleaving |
| `CognitiveMemoryRaces.EveryCommitIsWellShaped` | migrations/versions/0018_create_native_cognitive_memory.py:132-179 | every committed state meets the shape checks |
| `Chunking.MaxEndForTokenLimit` | sofias_memory/pipelines/chunking.py:153-173 | the binary search always moves forward, and for counts that never fall returns the greatest end that fits |
| `Chunking.PreferredCut` | sofias_memory/pipelines/chunking.py:176-181 | the cut is after the last blank line, else the last newline, else at the limit |
| `Chunking.CutOverstepsOnlyByNewline` | sofias_memory/pipelines/chunking.py:176-181 | a cut exceeds the limit exactly when it takes the newline one past the greatest fitting end |
| `Chunking.CutIsUnique` | sofias_memory/pipelines/chunking.py:176-181 | the last blank line, else the last newline, else the limit: there is only one such cut |
| `Chunking.NewlineOversteps` | sofias_memory/pipelines/chunking.py:176-181 | "a\nb" with room for one token: 1 is the greatest end that fits, and the first cut is at 2 |
| `Chunking.OverlapStart` | sofias_memory/pipelines/chunking.py:184-207 | the repeated part never exceeds the overlap, and for shrinking suffix counts is the longest such |
| `Chunking.ChunkSpans` | sofias_memory/pipelines/chunking.py:116-150 | the spans cover the text, each ends at the end of the text if the rest fits and else at the cut at the greatest end that fits, and each next one starts at the longest overlap allowed |
| `Chunking.MergeSmallTail` | sofias_memory/pipelines/chunking.py:210-227 | a small last span joins the one before it exactly when both fit, and coverage and bounds are kept |
| `Chunking.SpanEnd` | sofias_memory/pipelines/chunking.py:125-131 | the end of one span: all the rest if it fits, else the cut at the greatest end that fits |
| `Chunking.NextStart` | sofias_memory/pipelines/chunking.py:138-148 | the start of the next: the longest overlap allowed, else none |
| `Chunking.SpansAreDetermined` | sofias_memory/pipelines/chunking.py:116-150 | for counts that shrink with the text and room for one character there is only one sequence of spans that ends and starts as it should |
| `Chunking.MaterializeChunks` | sofias_memory/pipelines/chunking.py:230-259 | chunks are the spans' slices with ordinals 0 to n-1 and distinct ids |
| `Chunking.ChunksRebuildDocument` | sofias_memory/pipelines/chunking.py:230-259 | texts and offsets alone rebuild the document character for character |
| `Chunking.ChunkDocumentText` | sofias_memory/pipelines/chunking.py:66-104 | arguments are refused exactly as documented, each with its error; otherwise the chunks are the determined spans with the tail merged exactly if small and fitting, they rebuild the document, and a text that fits is one chunk |
| `Importance.RefreshKeepsFeedback` | sofias_memory/services/graph_maintenance_service.py:478-539 | refreshing a row preserves its feedback component whatever it held before |
| `Importance.RefreshIsStable` | sofias_memory/services/graph_maintenance_service.py:478-570 | a refreshed row needs no further refresh, and a written weight lies in [0, 1] |
| `MaintenanceOutcomes.EffectiveClips` | sofias_memory/services/graph_maintenance_service.py:478-570 | the effective weight is the rounded mean of feedback and centrality, each clipped to [0, 1] |
| `MaintenanceOutcomes.EffectiveGrows` | sofias_memory/services/graph_maintenance_service.py:478-570 | more feedback or more centrality never lowers it |
| `MaintenanceOutcomes.FeedbackIs` | sofias_memory/services/graph_maintenance_service.py:507-561 | feedback is read from a marker of this version with two weights in [0, 1], and otherwise from the weight |
| `Importance.CentralityMustBeAWeight` | sofias_memory/services/graph_maintenance_service.py:507-561 | a written marker is read back exactly if its centrality lies in [0, 1]; otherwise feedback is next read from the blended weight |
| `Importance.CentralitiesAreWeights` | sofias_memory/services/graph_maintenance_service.py:456-475 | every centrality lies in [0, 1] |
| `Importance.EntityCentrality` | sofias_memory/services/graph_maintenance_service.py:456-475 | the dictionary of degrees filled relation by relation gives each entity its degree over the largest, rounded |
| `Importance.Handshake` | sofias_memory/services/graph_maintenance_service.py:461-468 | degrees add up to twice the non-loop relations exactly when none leaves the entity set |
| `GraphMaintenance.PassHandshake` | sofias_memory/services/graph_maintenance_service.py:179-223 | in a maintenance pass the degrees always add up to twice the non-loop relations with evidence |
| `GraphMaintenance.PlanThenApplyIsInPlace` | sofias_memory/services/graph_maintenance_service.py:226-300 | planning then applying equals updating in place: the same rows and the same commands in order |
| `GraphMaintenance.PlanThenApplyEqualsInPlace` | sofias_memory/services/graph_maintenance_service.py:303-453 | the same for a whole pass over entities and relations |
| `GraphMaintenance.MaintenanceReachesFixedPoint` | sofias_memory/services/graph_maintenance_service.py:179-223 | after applying a plan, the next plan against the same evidence is empty |
| `GraphMaintenance.MaintenanceKeepsFeedback` | sofias_memory/services/graph_maintenance_service.py:367-453 | a pass preserves every feedback component and moves no weight out of [0, 1] |
| `MaintenanceOutcomes.CentralityIs` | sofias_memory/services/graph_maintenance_service.py:456-475 | a centrality is the number of supported non-loop relations at the entity over the largest such number, rounded |
| `MaintenanceOutcomes.PassDeactivates` | sofias_memory/services/graph_maintenance_service.py:226-300 | a pass deactivates exactly the listed relations without evidence |
| `MaintenanceOutcomes.PassRefreshesEntities` | sofias_memory/services/graph_maintenance_service.py:367-453 | a pass gives every listed entity the marker and blend of its centrality, and touches no other |
| `MaintenanceOutcomes.PassRefreshesRelations` | sofias_memory/services/graph_maintenance_service.py:367-453 | a pass gives every supported relation the blend of its endpoints' mean centrality, and touches no other |
| `MaintenanceOutcomes.PassIsProjected` | sofias_memory/services/graph_maintenance_service.py:367-453 | the commands of a pass are exactly the relations it deactivated and the rows it rewrote, with their new weights |
| `GraphMaintenance.StalePlanIsHarmless` | sofias_memory/services/graph_maintenance_service.py:367-453 | a plan applied late changes only rows still listed and deactivates only planned relations |
| `GraphMaintenanceSession.ComputePlan` | sofias_memory/services/graph_maintenance_service.py:179-223 | the planning loops return the specified plan, and none for an ineligible dataset |
| `GraphMaintenanceSession.MaintenanceUnitOfWork.UpdateEntityImportance` | sofias_memory/services/graph_maintenance_service.py:226-257 | the in-place loop leaves the specified rows and commands |
| `GraphMaintenanceSession.MaintenanceUnitOfWork.UpdateRelationImportance` | sofias_memory/services/graph_maintenance_service.py:260-300 | the relation twin, with the mean of the endpoints' centralities |
| `GraphMaintenanceSession.MaintenanceUnitOfWork.ApplyPlan` | sofias_memory/services/graph_maintenance_service.py:367-453 | the three applying loops leave the specified rows and commands and count them |
| `GraphMaintenanceSession.MaintainDataset` | sofias_memory/services/graph_maintenance_service.py:138-161 | plan and apply in one transaction does what updating in place would, and a second pass would do nothing |
| `SkillMarkdown.UnlinesOfLines` | sofias_memory/interoperability/skill_md.py:77-92 | joining the lines of a text gives the text back |
| `SkillMarkdown.NormalizedIsStable` | sofias_memory/domain/skill_revision_content.py:53-58 | normalized text holds no carriage return and normalizes to itself |
| `SkillImports.NormalizedLines` | sofias_memory/domain/skill_revision_content.py:53-58 | however its lines are broken, by \r\n, \r or \n, a text normalizes to those lines, each break counting once |
| `SkillImports.ValidNameIsParts` | sofias_memory/domain/skill_name.py:35-52 | a name is valid exactly if it has at most 64 characters and is parts of letters and digits joined by single hyphens |
| `SkillImports.ImportIsAccepted` | sofias_memory/interoperability/skill_md.py:77-205 | an import is accepted exactly if its lines hold frontmatter that loads as known fields with acceptable values and an acceptable body |
| `SkillImports.ImportMakes` | sofias_memory/interoperability/skill_md.py:95-205 | what an accepted import makes of every field |
| `SkillMarkdown.CanonicalTagsAre` | sofias_memory/domain/skill_revision_content.py:127-137 | canonical tags are strictly increasing, hold the same tags, and stay as they are |
| `SkillMarkdown.SplitUndoesJoin` | sofias_memory/interoperability/skill_md.py:164-167 | splitting the joined tools gives them back exactly when none has whitespace |
| `SkillMarkdownTheorems.SplitUndoesAssembly` | sofias_memory/interoperability/skill_md.py:77-92 | frontmatter without a bare delimiter line comes apart again, whatever lines the body has |
| `SkillMarkdownTheorems.SerializedParses` | sofias_memory/interoperability/skill_md.py:170-250 | every printed document parses to the same name and content, but for how its tools split |
| `SkillMarkdownTheorems.RoundTrip` | sofias_memory/interoperability/skill_md.py:136-250 | for accepted content the round trip is exact if and only if no declared tool has whitespace |
| `SkillMarkdownTheorems.CanonicalRoundTrip` | sofias_memory/domain/skill_revision_content.py:168-183 | the hashed canonical object survives exactly the same contents |
| `SkillMarkdownTheorems.ToolWithSpaceSplits` | sofias_memory/interoperability/skill_md.py:164-167 | a tool with a space in it does not come back |
| `SkillMarkdownTheorems.ImportsRoundTrip` | sofias_memory/interoperability/skill_md.py:170-205 | whatever an import accepts is valid content, and exporting and importing it again gives it back |
| `SkillMarkdownTheorems.FindClosing` | sofias_memory/interoperability/skill_md.py:82-88 | the scan stops at the first closing delimiter |
| `SkillMarkdownTheorems.SerializeSkill` | sofias_memory/interoperability/skill_md.py:224-250 | the dictionary filled key by key and dumped: what it prints parses back to the same name and content, exactly if no tool has whitespace |

## Left out

- Cognify rebuild, generation activation and Improve's entity merging: one dataset and one generation are modelled.
- Storage deletion, document rehydration, summaries and embeddings: input and output, or columns no property here reads.
- Row properties in the projection (names, weights, confidences): reconciliation compares identities, and so does the model.
- Outbox leases and retries: commands are replayed in order.
- Advisory locks: one run at a time works on a dataset, so a batch is persisted on the rows it was prepared against.
- Concurrent forgets: the branches for a forget already running on the same target are taken as doing nothing.
- Recovery of runs without a heartbeat: a claim always writes one, so no submitted run reaches that branch.
- Asyncio shielding, logging, metrics, HTTP routes, provider clients and the CRUD services.
- Manual retry: it submits a new run and touches nothing of the old one but a link.
- `_next_non_empty_start`: a one-character string is never false in Python, so the function returns its argument and the model has no member for it.
- Order of a dictionary's keys in printed YAML: the printer fills them in one fixed order, and the model hands YAML a mapping.
- EntityCentrality: rounding is any function that is idempotent and stays in [0, 1], over real weights; which way a float tie breaks is not modelled.
- Request digests: the canonical string and its HMAC are one injective datatype, so collisions are not modelled.
- RoundTrip: for the document at hand YAML and JSON are assumed to undo themselves on what the printer hands them, and YAML to write no bare delimiter line.
- NeverStuck: a queued run whose backoff is over counts as claimable; the claimer's policy and its arbitration between runs of one dataset are not modelled.
- EveryCommitIsWellShaped: the confidence-bounds, validity-window, content and scope-grammar CHECKs are left out; the model stores those fields as a request gives them and never combines them.
