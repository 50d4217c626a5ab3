# Verified model of the continual research backend

This Dafny project models the backend authority of codex_continual_research_bot and proves what its parts guarantee to
each other and over whole histories. `dafny verify dfyconfig.toml` checks everything.

Three connected components are modelled.

* **The queue, run and lease protocol.** `LedgerModel` is the relational ledger as a value with one atomic step per
  ledger operation; `Ledger` is the same ledger as a class that updates its tables in place, proved against those steps.
  Since each operation is one transaction, an interleaving of any workers, crashes and operators is a sequence of steps,
  and `LedgerSafety` proves what every sequence keeps. `RunLifecycle` adds the run state machine, whose transitions read
  first and swap later, with arbitrary events in between. `Orchestrator`, `QueueWorker`, `Scheduled`, `Interactive`,
  `SessionLeases` and `WorkerLoopTable` are the callers and the other tables. `Settlement` splits the end
  of an execution into its transactions, `Executions` has any number of executions in flight, and `Resumption`, `Fencing`,
  `Attempts`, `InteractiveLaws`, `ScheduledRuns` and `LeaseHistory` hold the theorems. `LedgerEffects`, `StartLaws`, `Endings`,
  `RunEndings` and `TriggerLaws` say what the operations and whole executions answer and leave, read off the tables alone.
* **The proposal-to-graph pipeline.** `Validator`, `Competition`, `Canonicalization` (specification) with `Canonicalizer`
  (the loops), `GraphHistory` and `GraphProjection`. `CanonicalContent`, `CanonicalEdges`,
  `CanonicalNodes`, `CanonicalQuarantine` and `GraphExport` say what a graph and its export contain; `Pipeline`,
  `Permutation`, `NodeIdentity` and `GraphPipeline` relate the stages, which have overlapping rules of their own.
  `Reports` and `ReportHistory` tie the pipeline back to the runs: what is stored, reported and replayed.
* **Two stateful loops.** `RuntimeModel`, `Runtime`, `RuntimeLaws` and `RuntimeFailures` for one execution of a run with bounded
  repair; `WorkerLoop`, `WorkerLoopLaws` and `WorkerLoopTurns` for the worker loop. Both keep counters beside an append-only log; the counters are
  proved to be folds of the log.

`Timestamps` justifies modelling stored times as instants, `TextRules` says what the text rules behind
deduplication mean, `JsonSchema` is the schema subset of the tool registry, and `Prelude`, `Ordering`, `Failures` and
`Proposals` are shared vocabulary.

Where the code differs from what one would expect, the model follows the code and a lemma says so:

* A proposal that passes validation and competition can still be quarantined, when it supersedes a hypothesis that only
  the proposal itself introduces (`Pipeline.AcceptedCanStillBeQuarantined`; the exact condition is `ValidatedQuarantineIff`).
* A resumed run is told the mode its row records, not the mode it was started under
  (`Resumption.ResumeCanChangeTheMode`; the exact condition is `ResumeIsTheSameRequestIff`).
* A queue item executed before it is available is dead-lettered untried if this would be its last attempt
  (`Attempts.EarlyExecution`).
* A worker whose stale claim was recovered has everything refused that names it. But its failure of an item that it then sees
  not claimed names nobody and is recorded: on a completed item, which can be completed again, or on an item claimed by
  somebody else after it looked (`Fencing`; the exact conditions are `RecoveredWorkerCommitsIff` and `CompletedForGoodIff`).
* Two retries decided on the same row can take an item beyond its attempt limit
  (`Attempts.StaleRetriesExceedLimit`; the bound that holds is `AttemptsAreBoundedInAnyHistory`).
* A scheduled run whose failure was reported before, as after the recovery of its dead-lettered item, ends by escaping and
  leaves its item claimed (`ScheduledRuns.TakenReportStrandsTheItem`).
* With acquisition clocks in order, session leases stay disjoint if and only if the next grant after a purged lease starts
  past that lease's expiry (`LeaseHistory.DisjointAlwaysIff`), which a purge with a clock ahead can violate.
* A late release is harmless if lease ids are distinct. Derived ids are not, within one second
  (`LeaseHistory.DerivedIdsCollide`); the scheduled service uses derived ids.
* A run whose failure has been reported can never complete, although interactive runs with a retryable failure are
  reported as failed and requeued (`ReportHistory.ReportedFailureIsFinal`).
* The stored iteration rows do not always reproduce the malformed-proposal streak
  (`WorkerLoopLaws.StoredLogReproducesStreakIff`).

Time, clocks, the launcher's output, the outcome of handlers and preflight checks, and what a loop observes are parameters.

## Model

| member | source | states |
|---|---|---|
| `Validator.DuplicateIds` | src/codex_continual_research_bot/output_validation.py:318-339 | exactly the ids that occur at two positions of the list |
| `Validator.SemanticViolations` | src/codex_continual_research_bot/output_validation.py:152-296 | the loops report a violation if and only if it is due, for all eleven kinds, with the compaction check |
| `Validator.RepairableIffReferencesHold` | src/codex_continual_research_bot/output_validation.py:46-50 | every reported violation is repairable exactly when ids are distinct and all references resolve |
| `Validator.NoViolationIffAccepted` | src/codex_continual_research_bot/output_validation.py:152-296 | nothing is reported exactly when the proposal meets the declarative acceptance conditions |
| `Competition.CompetitionAcceptsIff` | src/codex_continual_research_bot/orchestrator.py:498-608 | competition accepts if and only if every claim cited about a listed hypothesis is declared with declared evidence, every current best is supported and challenged, there is a challenger, and a listed hypothesis is weakened, retired or one end of a supersession, or an active conflict is reconciled or escalated |
| `Competition.RefusedIff` | src/codex_continual_research_bot/orchestrator.py:498-608 | each of the six refusals, with the ids it names, is given exactly when it is due |
| `Competition.StrengtheningIsNoPressure` | src/codex_continual_research_bot/orchestrator.py:65-79 | revisions that only strengthen are refused unless an active conflict is settled |
| `Canonicalizer.Canonicalize` | src/codex_continual_research_bot/graph_canonicalization.py:112-396 | the loop-by-loop canonicalizer computes the specification graph, reasons, flag and counts |
| `Canonicalizer.CollectEvidence` | src/codex_continual_research_bot/graph_canonicalization.py:150-179 | evidence pass: nodes, edges, keys and aliases under first-wins |
| `Canonicalizer.CollectClaims` | src/codex_continual_research_bot/graph_canonicalization.py:181-240 | claim pass: admitted claims under first-wins, a reason per rejected claim |
| `Canonicalizer.ApplyChallengers` | src/codex_continual_research_bot/graph_canonicalization.py:248-286 | challenger pass over the growing draft |
| `Canonicalizer.ApplyArguments` | src/codex_continual_research_bot/graph_canonicalization.py:288-316 | argument pass, with the count of challenging arguments |
| `Canonicalizer.ApplyRevisions` | src/codex_continual_research_bot/graph_canonicalization.py:318-363 | supersede pass: version bump, replacement and edge, or a reason |
| `Canonicalizer.ReplaceOrAppendNode` | src/codex_continual_research_bot/graph_canonicalization.py:494-509 | replacement in place, or appending |
| `CanonicalFacts.EvidenceFacts` | src/codex_continual_research_bot/graph_canonicalization.py:150-179 | one node and one RECORDED_IN edge per evidence key, whatever the duplicates |
| `CanonicalFacts.ClaimFacts` | src/codex_continual_research_bot/graph_canonicalization.py:181-240 | one node per admitted claim key, with its RECORDED_IN and DERIVED_FROM edges |
| `CanonicalFacts.CanonicalGraphIsClosed` | src/codex_continual_research_bot/graph_canonicalization.py:386-396 | for every proposal and context no edge dangles, so the integrity check adds no reason |
| `CanonicalReasons.QuarantineSet` | src/codex_continual_research_bot/graph_canonicalization.py:183-363 | the quarantine set is exactly the union of what each claim, challenger, argument and supersession is rejected for |
| `CanonicalContent.EdgesAreContributions` | src/codex_continual_research_bot/graph_canonicalization.py:150-363 | for every proposal and context the edge bag is exactly the sum of the contributions of evidence keys, admitted claims, challengers, arguments and supersessions |
| `CanonicalContent.NodesAreContributions` | src/codex_continual_research_bot/graph_canonicalization.py:150-363 | for every proposal and context the node ids are exactly the union of theirs; challengers contribute only if the current best is known |
| `CanonicalEdges.EdgesAreDrawn` | src/codex_continual_research_bot/graph_canonicalization.py:150-363 | how often any edge is in any canonical graph: kind, source, target and note read off the proposal and context alone, for every part of a proposal |
| `CanonicalEdges.ChallengersAttackTheBest` | src/codex_continual_research_bot/graph_canonicalization.py:248-286 | with a known current best the CHALLENGES edges without an argument are one per challenger, from its candidate version to the current best at its version of the context |
| `CanonicalEdges.ChallengersAreRecorded` | src/codex_continual_research_bot/graph_canonicalization.py:265-275 | and the RECORDED_IN edges of hypotheses are one per challenger, from its candidate version to the provenance node |
| `CanonicalEdges.NoBestNoAttack` | src/codex_continual_research_bot/graph_canonicalization.py:248-262 | with no known current best there are neither |
| `CanonicalQuarantine.ReasonsAreDue` | src/codex_continual_research_bot/graph_canonicalization.py:183-396 | each of the twelve quarantine reasons is given if and only if it is due, read off the proposal and context alone |
| `CanonicalQuarantine.SupportOnlyIff` | src/codex_continual_research_bot/graph_canonicalization.py:365-371 | the support-only flag is raised exactly when there are arguments and no drawn one challenges |
| `CanonicalQuarantine.CountsAreKeys` | src/codex_continual_research_bot/graph_canonicalization.py:373-380 | the deduplication counts are the numbers of distinct evidence keys and claim nodes |
| `CanonicalNodes.NodesAreInGraph` | src/codex_continual_research_bot/graph_canonicalization.py:122-363 | the node ids of every canonical graph, read off the proposal and context alone |
| `CanonicalNodes.HypothesisNodesStore` | src/codex_continual_research_bot/graph_canonicalization.py:422-463 | what a hypothesis node stores: as its last supersession, else its last challenger, else its snapshot describes it |
| `CanonicalNodes.OtherNodesStore` | src/codex_continual_research_bot/graph_canonicalization.py:122-232 | what provenance, evidence and claim nodes store, by the first candidate of their key |
| `CanonicalNodes.ServiceContextIs` | src/codex_continual_research_bot/interactive.py:298-311 | what the services hand over: the first current best, and each listed hypothesis at version 1 as last listed |
| `CanonicalContent.SupersessionReachesTheGraph` | src/codex_continual_research_bot/graph_canonicalization.py:318-363 | every supersession of an unquarantined service graph is drawn from version 2 of the superseding to version 1 of the preceding hypothesis, both nodes of the graph |
| `CanonicalContent.FirstEvidenceWins` | src/codex_continual_research_bot/graph_canonicalization.py:150-170 | the node of an evidence key is made by the first candidate with that key |
| `CanonicalContent.FirstClaimWins` | src/codex_continual_research_bot/graph_canonicalization.py:204-232 | the node of a claim key is made by the first admitted candidate with that key |
| `Pipeline.ValidatedQuarantineReasons` | src/codex_continual_research_bot/graph_canonicalization.py:318-363 | a validated proposal on the services' context is quarantined for exactly its supersessions of hypotheses the snapshot does not list |
| `Pipeline.ValidatedQuarantineIff` | src/codex_continual_research_bot/scheduled.py:573-596 | hence: quarantined if and only if some supersede revision names such a predecessor |
| `Pipeline.AcceptedCanStillBeQuarantined` | src/codex_continual_research_bot/output_validation.py:240-279 | a concrete proposal that passes validation and competition and is quarantined |
| `Pipeline.CompetitionReachesTheGraph` | src/codex_continual_research_bot/graph_canonicalization.py:204-316 | accepted and not quarantined: every current best gets evidence-backed SUPPORTS and CHALLENGES edges recorded in the provenance |
| `Pipeline.NotSupportOnly` | src/codex_continual_research_bot/graph_canonicalization.py:365-371 | and the support-only flag is never raised |
| `Permutation.OrderDoesNotMatter` | src/codex_continual_research_bot/graph_canonicalization.py:150-316 | permuting evidence, claims, arguments and challengers changes neither node ids, edge bag, reasons nor flag |
| `Permutation.OrderDoesNotMatterToCounts` | src/codex_continual_research_bot/graph_canonicalization.py:373-380 | nor the deduplication counts |
| `Permutation.OrderDoesNotMatterToNodes` | src/codex_continual_research_bot/graph_canonicalization.py:150-240 | when candidates with one key agree on stored properties, the node lists are permutations |
| `NodeIdentity.CanonicalNodesAreDistinct` | src/codex_continual_research_bot/graph_canonicalization.py:494-509 | no two canonical nodes share an id, through all replacements |
| `NodeIdentity.ServiceDigestIgnoresOrder` | src/codex_continual_research_bot/graph_canonicalization.py:382-396 | on the services' contexts the sorted graph that is digested is the same list |
| `GraphHistory.MergeWrites` | src/codex_continual_research_bot/graph_visualization.py:416-437 | the dictionary-filling loops compute the merge specification |
| `GraphHistory.MergeHoldsLatest` | src/codex_continual_research_bot/graph_visualization.py:416-437 | every id any write contains, bound to its content in the latest write containing it, and no other id |
| `GraphHistory.MergeIgnoresOrder` | src/codex_continual_research_bot/graph_visualization.py:431-437 | the read order of writes is irrelevant when sort keys differ |
| `GraphHistory.MergeIsIncremental` | src/codex_continual_research_bot/graph_visualization.py:416-428 | merging a time-ordered prefix and then the rest is merging everything |
| `GraphHistory.MergeKeepsClosed` | src/codex_continual_research_bot/graph_visualization.py:416-428 | closed writes merge to a closed graph |
| `GraphProjection.Project` | src/codex_continual_research_bot/graph_visualization.py:323-400 | the projection loops emit exactly the specified nodes, edges and explorer lists |
| `GraphProjection.ArtifactValidIff` | src/codex_continual_research_bot/ux_contracts.py:302-325 | the artifact check passes exactly when every exportable edge has its ends among topic, nodes and conflicts |
| `GraphProjection.MergedProjectionIsValid` | src/codex_continual_research_bot/graph_visualization.py:403-413 | the projection of any merge of closed writes passes the check |
| `GraphExport.NodesAreShown` | src/codex_continual_research_bot/graph_visualization.py:440-495 | every exported node by its fields: id, type by label, and provenance where some edge records it |
| `GraphExport.EdgesAreShown` | src/codex_continual_research_bot/graph_visualization.py:498-526 | every exported edge by its fields: type by type, from its source to its target; topic and conflict edges; and no other |
| `GraphExport.ExplorerLists` | src/codex_continual_research_bot/graph_visualization.py:341-362 | what each list of the memory explorer holds |
| `GraphPipeline.PipelineExportsCleanly` | src/codex_continual_research_bot/graph_visualization.py:403-413 | for any history of canonical graphs of any proposals, the export artifact is valid |
| `GraphExport.ExportShowsWhatWasDrawn` | src/codex_continual_research_bot/graph_visualization.py:403-526 | from any proposals to the artifact: whatever history is merged, it shows exactly the edges that were drawn, each of its kind and in its direction |
| `TextRules.SameNormalizedIff` | src/codex_continual_research_bot/graph_canonicalization.py:408-409 | two texts normalize to the same exactly when they have the same words |
| `TextRules.SameKeyIff` | src/codex_continual_research_bot/graph_canonicalization.py:398-420 | and give the same key part exactly when the words agree up to letter case |
| `TextRules.StripTrims` | src/codex_continual_research_bot/graph_canonicalization.py:411-412 | trimming removes the whitespace at both ends and nothing else |
| `Ledger.SqliteLedger.EnqueueJob` | src/codex_continual_research_bot/persistence/ledger.py:173-224 | inserts the item, or fails on a taken id, dedupe key or idempotency key |
| `Ledger.SqliteLedger.ReserveIdempotencyKey` | src/codex_continual_research_bot/persistence/ledger.py:294-323 | inserts the key once |
| `Ledger.SqliteLedger.StoreTopicSnapshot` | src/codex_continual_research_bot/persistence/ledger.py:226-249 | inserts a snapshot version once |
| `Ledger.SqliteLedger.ClaimQueueItemForRun` | src/codex_continual_research_bot/persistence/ledger.py:337-477 | the whole new ledger and reply of a claim, including re-claims by the linked run and rollback on conflict |
| `Ledger.SqliteLedger.ValidateClaimForMutation` | src/codex_continual_research_bot/persistence/ledger.py:1889-1928 | true exactly for the claimed item, its claimant and its linked run, where they are named |
| `Ledger.SqliteLedger.RecordQueueRetry` | src/codex_continual_research_bot/persistence/ledger.py:1247-1299 | the new ledger and reply, guarded only if an owner is named |
| `Ledger.SqliteLedger.CompleteQueueItem` | src/codex_continual_research_bot/persistence/ledger.py:1301-1335 | the new ledger and reply of an ack |
| `Ledger.SqliteLedger.RecordQueueDeadLetter` | src/codex_continual_research_bot/persistence/ledger.py:1337-1402 | the new ledger and reply, with the run's status when a run is named |
| `Ledger.SqliteLedger.RecoverDeadLetterQueueItem` | src/codex_continual_research_bot/persistence/ledger.py:1426-1524 | requeues a dead-lettered item and its run, with an audit entry |
| `Ledger.SqliteLedger.RecoverStaleClaimedItem` | src/codex_continual_research_bot/operational.py:258-423 | recovers a stale claim, answers a repetition, or rejects; staleness as in lines 616-679 |
| `Ledger.SqliteLedger.TransitionRunState` | src/codex_continual_research_bot/persistence/ledger.py:895-934 | compare-and-set of a run status |
| `LedgerEffects.QueueKeysAreUnique` | src/codex_continual_research_bot/persistence/ledger.py:173-224 | over all histories no two items share a dedupe key or an idempotency key |
| `LedgerEffects.RetryLeaves` | src/codex_continual_research_bot/persistence/ledger.py:1247-1299 | in every reachable ledger: accepted from the holder of the claim or in nobody's name; what it leaves of the item, and that it changes no run |
| `LedgerEffects.CompleteLeaves` | src/codex_continual_research_bot/persistence/ledger.py:1301-1335 | likewise for an ack, accepted only from the claimant for the item's run |
| `LedgerEffects.DeadLetterLeaves` | src/codex_continual_research_bot/persistence/ledger.py:1337-1402 | likewise for a dead-letter, which takes the run it names, and no other, to DEAD_LETTER |
| `LedgerEffects.RecoversIff` | src/codex_continual_research_bot/operational.py:616-679 | a stale recovery is carried out exactly on a claimed item whose live lease, or else whose claim, has been silent long enough, in microseconds |
| `LedgerEffects.RecoveryMovesTheRun` | src/codex_continual_research_bot/operational.py:332-371 | in every reachable ledger a recovery for retry leaves item and run QUEUED, the other leaves both in DEAD_LETTER; every other row is as before |
| `LedgerEffects.RecoveryHasRun` | src/codex_continual_research_bot/operational.py:332-371 | every recovered claim has such a run |
| `LedgerEffects.DeadLetterRecoveryMovesTheRun` | src/codex_continual_research_bot/persistence/ledger.py:1426-1524 | recovering a dead-lettered item, and nothing else, is accepted and leaves item and run QUEUED and every other row as before |
| `LedgerSafety.OwnershipInEveryReachableLedger` | src/codex_continual_research_bot/persistence/ledger.py:337-477 | over all histories: CLAIMED iff a claimant is set, a run per claimed item, one run per item, keys record their runs, no shared keys |
| `LedgerSafety.OnlyClaimantChangesClaimed` | src/codex_continual_research_bot/persistence/ledger.py:1889-1928 | a claimed item changes only by its claimant, a stale recovery, or an owner-less mutation |
| `LedgerSafety.RecoveredWorkerIsFenced` | src/codex_continual_research_bot/operational.py:332-371 | after a stale recovery every mutation that names that worker is refused until it claims again |
| `Settlement.SettleIsItsPlan` | src/codex_continual_research_bot/queue_worker.py:206-387 | uninterrupted, deciding, seeing whom to name and committing is the worker's settlement |
| `Settlement.ScheduledIsItsPlan` | src/codex_continual_research_bot/scheduled.py:669-861 | likewise for the queue effect of every scheduled ending |
| `Settlement.WorkerCommitsIff` | src/codex_continual_research_bot/queue_worker.py:325-380 | read, second read and write on any three ledgers: without the claim a worker's commit is accepted if and only if it decided on a dead-letter and then saw the item not claimed, and changes nothing otherwise |
| `Settlement.SchedulerCommitsIff` | src/codex_continual_research_bot/scheduled.py:748-820 | the same for the scheduled service: before its claim, or for a terminal failure when it saw the item not claimed for its run |
| `Settlement.WorkerIsOwnerlessIff` | src/codex_continual_research_bot/queue_worker.py:325-380 | a worker issues an owner-less mutation exactly when it decided on a dead-letter from the row it read and then, in a second read, saw the item not claimed |
| `Settlement.SchedulerIsOwnerlessIff` | src/codex_continual_research_bot/scheduled.py:796-914 | the scheduled service does exactly before its claim, and for a terminal failure when the rows it read showed the item not claimed for its run |
| `Fencing.RecoveredWorkerCommitsIff` | src/codex_continual_research_bot/operational.py:332-371 | after a stale recovery and any operations without a claim by that worker, whenever it read the item: its commit is accepted exactly when it had decided on a dead-letter and then saw the item not claimed |
| `Fencing.RecoveredSchedulerCommitsIff` | src/codex_continual_research_bot/scheduled.py:669-735 | likewise for the scheduled service |
| `Fencing.LateFailureBuries` | src/codex_continual_research_bot/queue_worker.py:369-380 | right after any recovery, a terminal failure of the recovered worker buries the item and costs an attempt |
| `Fencing.LateFailureTakesAnotherClaim` | src/codex_continual_research_bot/queue_worker.py:369-380 | a claim that falls between the recovered worker's read and its owner-less dead-letter is granted and then taken |
| `Fencing.TakenClaimIsReachable` | src/codex_continual_research_bot/queue_worker.py:369-380 | a reachable ledger in which this happens |
| `Fencing.PreclaimTakesTheClaim` | src/codex_continual_research_bot/scheduled.py:796-861 | a failure recorded before the claim takes the claim of whoever has claimed since the item was read |
| `Fencing.LateFailureAllowsAnotherCompletion` | src/codex_continual_research_bot/queue_worker.py:369-380 | after any history that completed an item, a late failure, a recovery, a claim and an ack are accepted and complete it again |
| `Fencing.SecondCompletionIsReachable` | src/codex_continual_research_bot/persistence/ledger.py:1337-1402 | a reachable ledger with two accepted completions of one item |
| `Executions.ShiftIsAHistory` | src/codex_continual_research_bot/persistence/ledger.py:337-477 | any interleaving of the executions' transactions with other operations is a ledger history of what they issue |
| `Fencing.ExecutionsAccountForCompletions` | src/codex_continual_research_bot/persistence/ledger.py:1301-1335 | for any executions in flight and operations between their transactions: completions of an item = owner-less mutations of it while completed, plus one if completed now |
| `Fencing.CompletedOnceIff` | src/codex_continual_research_bot/persistence/ledger.py:1301-1335 | completed at most once exactly when never reopened, or once and not completed again |
| `Fencing.CompletedForGoodIff` | src/codex_continual_research_bot/persistence/ledger.py:1301-1335 | completed once and for good, at all times, if and only if no owner-less mutation ever hits the item while it is completed |
| `Fencing.SeesWhomToName` | src/codex_continual_research_bot/queue_worker.py:369-380 | within an execution, its dead-letter names nobody exactly when the item is not claimed at its second read |
| `Fencing.LateFailureReopens` | src/codex_continual_research_bot/queue_worker.py:206-314 | one execution in flight suffices: its terminal failure takes a completed item to dead-letter |
| `LedgerSafety.RepeatedRecoveryIsIdempotent` | src/codex_continual_research_bot/operational.py:681-708 | repeating a recorded recovery on an unclaimed item changes nothing |
| `LedgerSafety.CompletionsAreAccountedFor` | src/codex_continual_research_bot/persistence/ledger.py:1301-1335 | over all histories: accepted completions = owner-less reopenings + 1 if completed now |
| `LedgerSafety.AtMostOneCompletion` | src/codex_continual_research_bot/persistence/ledger.py:1301-1335 | at most one in histories whose owner-less mutations hit QUEUED items only, which the modelled callers do not ensure (see the Fencing rows) |
| `RunLifecycle.HistoryIsLegal` | src/codex_continual_research_bot/orchestrator.py:109-149 | under arbitrary interleaving of reads, swaps and ledger operations every status history consists of table edges, dead-letter jumps and requeues, with growing rank since the last QUEUED |
| `RunLifecycle.TableIs` | src/codex_continual_research_bot/orchestrator.py:109-149 | the transition table said by ranks: one stage follows another, retirement may be skipped, stages that read a snapshot or handle a proposal may fail, a failed run is requeued or dead-lettered |
| `RunLifecycle.PinIsOfThisPass` | src/codex_continual_research_bot/orchestrator.py:254-307 | a run between SELECTING_FRONTIER and COMPLETED works on the version pinned when it was moved to SELECTING_FRONTIER, and has not been QUEUED since |
| `RunLifecycle.CompletedRunsTookAPath` | src/codex_continual_research_bot/orchestrator.py:181-207 | every COMPLETED run passed all stages in order since its last QUEUED, on a stored snapshot pinned by the SELECTING_FRONTIER of that pass |
| `RunLifecycle.StepsBetweenRequeuesAreBounded` | src/codex_continual_research_bot/orchestrator.py:109-149 | at most 14 changes between requeues |
| `Orchestrator.LatestVersion` | src/codex_continual_research_bot/persistence/ledger.py:251-292 | the greatest stored version, none if there is none |
| `Orchestrator.Transition` | src/codex_continual_research_bot/orchestrator.py:181-207 | succeeds exactly for table edges, and only changes status and pin |
| `Orchestrator.StartQueuedRun` | src/codex_continual_research_bot/orchestrator.py:227-322 | the whole outcome of a start: claim, then resume or launch, with the failure states |
| `StartLaws.ClaimAnswers` | src/codex_continual_research_bot/persistence/ledger.py:337-477 | the reply to a claim, in every consistent ledger, in terms of runs of the item and used keys |
| `StartLaws.StartsIff` | src/codex_continual_research_bot/orchestrator.py:227-460 | a start succeeds with an intent exactly when the claim may be made, the version to work on (latest, or pinned for a resume) is stored, expected and attackable, the item selects itself, and the intent has these fields: objective, selection, topic, snapshot, mode and key |
| `StartLaws.FailsIff` | src/codex_continual_research_bot/orchestrator.py:227-378 | each of the failures of a start is the answer exactly when it is due |
| `StartLaws.StartLeaves` | src/codex_continual_research_bot/orchestrator.py:236-322 | what a claimed start leaves: the item held, the key bound, the run executing or FAILED with its pin, every other row as before |
| `StartLaws.RecoveredRunIsLaunched` | src/codex_continual_research_bot/operational.py:362-371 | after a recovery for retry or of a dead-lettered item, the next granted start launches the run on the latest snapshot and never resumes the old pass |
| `Orchestrator.AcceptCompetitionProposal` | src/codex_continual_research_bot/orchestrator.py:610-621 | accepts exactly matching intents with accepted proposals whose run may normalize |
| `Resumption.ResumeRepeatsTheStart` | src/codex_continual_research_bot/orchestrator.py:324-378 | while the run executes, any resume answers with the started intent under the recorded mode, or refuses another expected version |
| `Resumption.ResumeIsTheSameRequestIff` | src/codex_continual_research_bot/orchestrator.py:366-378 | the request is identical exactly when the start used the mode the run row records |
| `Resumption.ResumeCanChangeTheMode` | src/codex_continual_research_bot/orchestrator.py:369-372 | a reachable ledger where it is not |
| `Resumption.StartedIntentStillMatches` | src/codex_continual_research_bot/orchestrator.py:623-645 | whatever intervenes, the started intent still matches its run |
| `QueueWorker.Worker.ExecuteItem` | src/codex_continual_research_bot/queue_worker.py:206-314 | the whole new ledger and answer of an execution |
| `QueueWorker.Worker.Nack` | src/codex_continual_research_bot/queue_worker.py:316-358 | requeue with back-off below the limit, otherwise dead-letter |
| `QueueWorker.Worker.DeadLetter` | src/codex_continual_research_bot/queue_worker.py:360-387 | owner named exactly while the item is claimed |
| `Endings.WorkerEnds` | src/codex_continual_research_bot/queue_worker.py:206-314 | from the queued item to its end: ack, requeue with the failure's doubled back-off, or dead-letter with its run, for every outcome and every failed start |
| `Endings.WorkerRefusesKind` | src/codex_continual_research_bot/queue_worker.py:240-268 | an item of a kind the worker does not execute is dead-lettered, or counts as a host failure if the kind is unknown |
| `Endings.WorkerPassesOver` | src/codex_continual_research_bot/queue_worker.py:206-238 | completed and dead-lettered items are ignored, claimed ones are in progress |
| `Scheduled.Service.ExecuteItem` | src/codex_continual_research_bot/scheduled.py:227-367 | exactly when a lease is obtained, that it is always released with the count restored, and the whole outcome: unscheduled, refusal or lease conflict recorded under its code, or what happens under the lease |
| `Scheduled.Service.RecordRuntimeRetry` | src/codex_continual_research_bot/scheduled.py:737-794 | retry below the limit, otherwise fail the run and dead-letter |
| `Scheduled.Service.RecordPreclaimFailure` | src/codex_continual_research_bot/scheduled.py:796-861 | owner-less retry or dead-letter before the claim |
| `Scheduled.Service.HandleTerminalFailure` | src/codex_continual_research_bot/scheduled.py:669-735 | fail the run and dead-letter, naming the claim only if it is this run's |
| `Endings.ServiceEnds` | src/codex_continual_research_bot/scheduled.py:269-362 | from the queued item to its end under the lease: for every run end and every failed start, the code it is recorded under, the item, the run and the decision |
| `Endings.ServiceIsRefused` | src/codex_continual_research_bot/scheduled.py:346-362 | a claim that is not permitted: a second run for the item buries it, anything else escapes and changes nothing |
| `Endings.LostTerminalEnds` | src/codex_continual_research_bot/scheduled.py:669-735 | once the claim is lost, a terminal failure still fails the run and buries the item, in nobody's name |
| `Endings.LostRetryEnds` | src/codex_continual_research_bot/scheduled.py:737-794 | and a retryable one escapes and leaves the item alone; on the last attempt it fails the run first |
| `Endings.ServicePreclaims` | src/codex_continual_research_bot/scheduled.py:796-861 | what a refusal before the claim makes of the item, in nobody's name |
| `Attempts.AttemptsAreAccountedFor` | src/codex_continual_research_bot/persistence/ledger.py:1268-1281 | over all histories attempts = initial value + recorded retries and dead-letters |
| `Attempts.AttemptsAreBoundedInAnyHistory` | src/codex_continual_research_bot/persistence/ledger.py:1247-1402 | over all histories of any callers: attempts <= limit + dead-letter recoveries + overruns (retries recorded with no attempt left, twice if dead-lettered, and dead-letters of a dead-lettered item), strictly unless dead-lettered |
| `Attempts.OverlappingAttemptsAreBounded` | src/codex_continual_research_bot/queue_worker.py:316-387 | hence for any executions in flight, with other transactions between their reads and writes |
| `Attempts.OnlyStaleRetriesOverrun` | src/codex_continual_research_bot/scheduled.py:748-820 | a retry overruns only if the item was charged between its decision and its commit |
| `Attempts.StaleRetriesExceedLimit` | src/codex_continual_research_bot/scheduled.py:808-820 | a reachable ledger where two retries decided on one row, and then a failure, exceed the limit without any recovery |
| `Attempts.LateFailureExceedsLimit` | src/codex_continual_research_bot/queue_worker.py:369-380 | so does a late failure of an item dead-lettered at its limit |
| `Attempts.AttemptsAreBounded` | src/codex_continual_research_bot/queue_worker.py:316-358 | with one execution of the item at a time, recoveries, claims and completions falling between its transactions: attempts <= limit + dead-letter recoveries, strictly unless dead-lettered and not in flight |
| `Attempts.RequeuedMeans` | src/codex_continual_research_bot/queue_worker.py:37-47 | a requeued execution, whatever happened elsewhere while its handler ran, had claimed an available item, counted one attempt and imposed base * 2^attempts |
| `Attempts.EarlyExecution` | src/codex_continual_research_bot/queue_worker.py:226-314 | executing an item before it is available changes nothing, or dead-letters it untried on its last attempt |
| `Attempts.BackoffAddsUp` | src/codex_continual_research_bot/queue_worker.py:37-47 | k retries from attempt a impose base * 2^a * (2^k - 1), and that much time must pass, whatever else happens to the ledger meanwhile |
| `SessionLeases.LeaseTable.AcquireSessionLease` | src/codex_continual_research_bot/persistence/ledger.py:1120-1199 | the new lease table and counts, or no change at all on a conflict |
| `SessionLeases.LeaseTable.ReleaseSessionLease` | src/codex_continual_research_bot/persistence/ledger.py:1201-1222 | removes the matching lease and counts it |
| `SessionLeases.LeaseTable.ReleaseStaleSessionLeases` | src/codex_continual_research_bot/persistence/ledger.py:1224-1245 | removes exactly the expired leases and counts each |
| `LeaseHistory.CountIsLivePlusReclaimed` | src/codex_continual_research_bot/persistence/ledger.py:1174-1222 | over all histories lease_count = live leases + leases reclaimed on acquire; a removed lease was counted |
| `LeaseHistory.AcquireMeans` | src/codex_continual_research_bot/persistence/ledger.py:1120-1199 | a lease is granted exactly for a registered session without an unexpired lease, under an id no other session uses; its holder, begin, expiry and derived id; otherwise nothing changes |
| `LeaseHistory.ReleaseMeans` | src/codex_continual_research_bot/persistence/ledger.py:1201-1222 | what a release accepts and leaves |
| `LeaseHistory.PurgeMeans` | src/codex_continual_research_bot/persistence/ledger.py:1224-1245 | what a purge removes and counts |
| `LeaseHistory.DisjointAlwaysIff` | src/codex_continual_research_bot/persistence/ledger.py:1137-1235 | over all histories with acquisition clocks in order: unreleased grants of a session are disjoint closed intervals at all times if and only if after every purge of its lease the next grant's clock is past that lease's expiry |
| `LeaseHistory.ReleaseHidesOverlap` | src/codex_continual_research_bot/persistence/ledger.py:1201-1235 | a history whose overlap is gone from the final leases once the second is released, so the equivalence speaks of all times |
| `LeaseHistory.DisjointAlwaysIffApart` | src/codex_continual_research_bot/persistence/ledger.py:1137-1235 | for clocks in any order: disjoint at all times if and only if each grant is apart from everything unreleased |
| `LeaseHistory.OrderIsNeeded` | src/codex_continual_research_bot/persistence/ledger.py:1137-1144 | a history without purges whose acquisition clock runs backwards into a reclaimed lease |
| `LeaseHistory.UnreleasedLeasesAreDisjoint` | src/codex_continual_research_bot/persistence/ledger.py:1137-1144 | hence when no clock runs backwards, purges included |
| `LeaseHistory.PurgeAheadBreaksDisjointness` | src/codex_continual_research_bot/persistence/ledger.py:1224-1235 | for leases of any length, a purge ahead of the next grant lets it overlap, exactly up to the first expiry |
| `LeaseHistory.LeaseExcludesOthers` | src/codex_continual_research_bot/persistence/ledger.py:1141-1175 | until it is released or a clock passes its expiry, a lease stays and no other acquisition succeeds |
| `LeaseHistory.LateReleaseIsHarmless` | src/codex_continual_research_bot/persistence/ledger.py:1201-1222 | releasing a lost lease by its id removes nothing, if ids are distinct |
| `LeaseHistory.DerivedIdsCollide` | src/codex_continual_research_bot/persistence/ledger.py:1134-1136 | derived ids are not distinct within a second, and then a late release removes the successor |
| `Runtime.Coordinator.NextEventSeq` | src/codex_continual_research_bot/runtime.py:792-796 | one past the greatest number in the log |
| `Runtime.Coordinator.HandleStdoutLine` | src/codex_continual_research_bot/runtime.py:530-578 | one line: logged, counted, and stopped with a logged failure where policy or budget says so |
| `Runtime.Coordinator.RunLaunch` | src/codex_continual_research_bot/runtime.py:580-700 | one launch and the judgement of its result |
| `Runtime.Coordinator.Execute` | src/codex_continual_research_bot/runtime.py:498-787 | the log is extended by the specified events under consecutive numbers, never a used one; outcome and launches as specified |
| `RuntimeLaws.EveryExecutionFollowsProtocol` | src/codex_continual_research_bot/runtime.py:503-787 | RUN_STARTED first, one terminal event, last; launches <= repairs + 1; retryable exactly for timeout and crash |
| `RuntimeLaws.EverySuccessIsWithinBudget` | src/codex_continual_research_bot/runtime.py:938-969 | on success reported counts equal the log, turns and tools are within budget over all repairs, all tools permitted |
| `RuntimeLaws.OverrunIsAtMostOne` | src/codex_continual_research_bot/runtime.py:938-969 | even a failed execution logs at most one turn or tool call beyond its budget |
| `RuntimeLaws.IngestsCleanOutput` | src/codex_continual_research_bot/runtime.py:530-578 | reading succeeds exactly on output with no malformed line, no forbidden tool and both budgets kept |
| `RuntimeLaws.SucceedsIff` | src/codex_continual_research_bot/runtime.py:580-701 | an execution succeeds exactly when some launch within the limit is accepted after only repairable ones, on clean cumulative output |
| `RuntimeFailures.FailsIff` | src/codex_continual_research_bot/runtime.py:580-724 | each failure code is raised exactly for its causes at the last launch: refusal, first offending line, timeout, crash, proposal over budget, rejection for good; retryable exactly for timeout and crash |
| `RuntimeFailures.InvalidOutputIff` | src/codex_continual_research_bot/runtime.py:682-706 | an invalid output in particular: missing schema, or rejected on clean output beyond repair or at the repair limit |
| `RuntimeFailures.LogIs` | src/codex_continual_research_bot/runtime.py:503-787 | the whole log of any execution: start, the events of what was read, and its ending; and the number of launches |
| `RuntimeFailures.SuccessReports` | src/codex_continual_research_bot/runtime.py:753-776 | a success reports its repairs and the events read, plus three |
| `WorkerLoop.RunLoop` | src/codex_continual_research_bot/worker_loop.py:826-976 | executes exactly the items the policy allows, stored counters are folds of the log, stop reason and state as the folds imply |
| `WorkerLoop.RecordIteration` | src/codex_continual_research_bot/worker_loop.py:890-934 | counters updated in step with the log |
| `WorkerLoopTurns.YieldsIff` | src/codex_continual_research_bot/worker_loop.py:149-184 | an iteration yields exactly when its executor returned a completed report, a digest exists afterwards, and digest or counts differ; the change it records is that digest |
| `WorkerLoopTurns.ReasonIff` | src/codex_continual_research_bot/worker_loop.py:840-955 | the reason a loop stops with, in terms of its turns alone |
| `WorkerLoopTurns.ExecutesIff` | src/codex_continual_research_bot/worker_loop.py:836-955 | how many items a loop executes, in terms of its turns alone |
| `WorkerLoopTurns.StoppedStateIff` | src/codex_continual_research_bot/worker_loop.py:836-966 | when the row is left converged, stopped or blocked |
| `WorkerLoopTurns.NoYieldStopOnTurns` | src/codex_continual_research_bot/worker_loop.py:952-955 | stopped for lack of yield: exactly the last maxNoYield turns did not change the graph |
| `WorkerLoopTurns.MalformedStopOnTurns` | src/codex_continual_research_bot/worker_loop.py:948-951 | likewise for malformed proposals |
| `WorkerLoopTurns.YieldedCountsChanges` | src/codex_continual_research_bot/worker_loop.py:890-896 | the yielded count is the number of turns that changed the graph |
| `WorkerLoopTurns.LastChangeOnTurns` | src/codex_continual_research_bot/worker_loop.py:890-896 | the last change is the digest after the last such turn |
| `WorkerLoopLaws.RunIsDetermined` | src/codex_continual_research_bot/worker_loop.py:840-955 | the number of iterations is determined by what the loop observes |
| `WorkerLoopLaws.RunStopsInTime` | src/codex_continual_research_bot/worker_loop.py:846-848 | every loop stops within max_iterations |
| `WorkerLoopLaws.StreakIsMaximal` | src/codex_continual_research_bot/worker_loop.py:890-896 | the no-yield streak is s exactly when the last s iterations, and not the one before, did not yield |
| `WorkerLoopLaws.MalformedStreakIsMaximal` | src/codex_continual_research_bot/worker_loop.py:905-909 | likewise for malformed proposals |
| `WorkerLoopLaws.NoYieldStopIsPrompt` | src/codex_continual_research_bot/worker_loop.py:952-955 | a loop stopped for lack of yield stopped at the first chance, under any limit |
| `WorkerLoopLaws.MalformedStopIsPrompt` | src/codex_continual_research_bot/worker_loop.py:948-951 | likewise for malformed proposals |
| `WorkerLoopLaws.StoredLogReproducesStreakIff` | src/codex_continual_research_bot/worker_loop.py:897-934 | the stored failure codes reproduce the streak exactly when no report's operator failure changes whether an iteration is malformed |
| `WorkerLoopLaws.StoredLogCanHideMalformed` | src/codex_continual_research_bot/worker_loop.py:576-616 | an iteration where they do not |
| `WorkerLoopTable.LoopTable.AcquireWorkerLoop` | src/codex_continual_research_bot/persistence/ledger.py:1526-1622 | the new rows: refused by an unexpired loop, otherwise the expired one ended and the new one running |
| `WorkerLoopTable.LoopTable.HeartbeatWorkerLoop` | src/codex_continual_research_bot/persistence/ledger.py:1624-1648 | extends the lease of a running loop only |
| `WorkerLoopTable.LoopTable.StopWorkerLoop` | src/codex_continual_research_bot/persistence/ledger.py:1777-1802 | ends the row whatever its state |
| `WorkerLoopTable.LoopTable.StopWorkerLoopForTopic` | src/codex_continual_research_bot/persistence/ledger.py:1804-1856 | ends the running loop of the topic |
| `WorkerLoopTable.AtMostOneRunning` | src/codex_continual_research_bot/persistence/ledger.py:1542-1622 | over all histories at most one loop per topic runs, by the code's own checks |
| `WorkerLoopTable.LostLoopOnlyFinishesItsItem` | src/codex_continual_research_bot/worker_loop.py:836-882 | a loop that stopped running fails all heartbeats and executes at most its in-flight item |
| `WorkerLoopTable.TakeoverEndsTheOther` | src/codex_continual_research_bot/persistence/ledger.py:1562-1580 | a takeover ends the running loop, which had expired |
| `WorkerLoopTable.AcquiresIff` | src/codex_continual_research_bot/persistence/ledger.py:1542-1622 | a loop is let in exactly when its id is new and every running loop of the topic has expired |
| `WorkerLoopTable.HeartbeatKeepsTheTopic` | src/codex_continual_research_bot/persistence/ledger.py:1624-1648 | an accepted heartbeat keeps the topic for its loop until the expiry it names, whatever else happens to the table |
| `Orchestrator.AcceptanceFailure` | src/codex_continual_research_bot/orchestrator.py:610-646 | no failure exactly for a matching run, an accepted proposal and a run that may normalize |
| `Reports.ReportTables.RecordSuccess` | src/codex_continual_research_bot/persistence/ledger.py:602-643 | graph write and report together or not at all |
| `Reports.ReportTables.RecordFailure` | src/codex_continual_research_bot/persistence/ledger.py:645-652 | one report per run and key |
| `Reports.ReportTables.FetchByKey` | src/codex_continual_research_bot/persistence/ledger.py:654-679 | the one report with the key, if there is one |
| `Interactive.Service.TriggerRun` | src/codex_continual_research_bot/interactive.py:116-224 | the whole outcome of a trigger; answered from a report, it changes neither ledger nor store |
| `Interactive.Service.ExecuteIntent` | src/codex_continual_research_bot/interactive.py:226-287 | the whole outcome of an execution, including failure reports and the settlement of its item |
| `Interactive.Service.CanonicalizeAndPersist` | src/codex_continual_research_bot/interactive.py:289-389 | storing or quarantining, with the ack or dead-letter of the item |
| `Interactive.Service.ReportFailure` | src/codex_continual_research_bot/interactive.py:248-287 | a failure fails the run where possible, is reported once, and requeues or dead-letters the item |
| `InteractiveLaws.ProposalEndings` | src/codex_continual_research_bot/interactive.py:226-389 | what each ending says about run, item, report and graph: stored and completed, quarantined, refused, or escaped with no graph stored |
| `InteractiveLaws.RuntimeFailureIsReported` | src/codex_continual_research_bot/interactive.py:248-270 | a runtime failure is reported without a graph and its item requeued or dead-lettered, or it escapes and leaves the queue alone |
| `InteractiveLaws.StoredGraphArguesBothSides` | src/codex_continual_research_bot/interactive.py:226-389 | a stored graph argues every current best from both sides, on evidence |
| `RunEndings.NotAcceptedIff` | src/codex_continual_research_bot/orchestrator.py:610-646 | why a proposal is not accepted, and exactly when |
| `RunEndings.InteractiveEnding` | src/codex_continual_research_bot/interactive.py:226-389 | how every execution of a claimed item ends: report, graph, run and item, for every proposal and failure |
| `RunEndings.LostEnding` | src/codex_continual_research_bot/interactive.py:331-389 | how it ends once the claim is lost |
| `RunEndings.ScheduledEnding` | src/codex_continual_research_bot/scheduled.py:285-362 | how every started scheduled run of a claimed item ends: report, graph, run, item and decision |
| `TriggerLaws.MismatchIff` | src/codex_continual_research_bot/interactive.py:130-155 | a trigger is a mismatch exactly when its key is reserved with another digest |
| `TriggerLaws.DuplicateIff` | src/codex_continual_research_bot/interactive.py:130-155 | and answered from a report exactly when one has its key and the snapshot is stored; then nothing is run or written |
| `TriggerLaws.NotResumedIff` | src/codex_continual_research_bot/interactive.py:156-177 | when a request seen before is not resumed, and why |
| `TriggerLaws.SeenRequestResumes` | src/codex_continual_research_bot/interactive.py:156-177 | when it is, and how that ends |
| `TriggerLaws.NotStartedIff` | src/codex_continual_research_bot/interactive.py:178-224 | why a new request is not run, and exactly when |
| `TriggerLaws.FreshRequestRuns` | src/codex_continual_research_bot/interactive.py:178-224 | a new request on an attackable latest snapshot is enqueued, claimed and executed on it; the rows this leaves, and how it ends |
| `ScheduledRuns.Service.FinishIntent` | src/codex_continual_research_bot/scheduled.py:285-362 | the whole outcome of a started scheduled run: acceptance, storage or quarantine, failure report, and the queue |
| `ScheduledRuns.EndsAsItsRunEnd` | src/codex_continual_research_bot/scheduled.py:573-735 | for the queue it ends exactly as the run end taken as given in Scheduled, if its report and graph rows are free |
| `ScheduledRuns.TakenReportStrandsTheItem` | src/codex_continual_research_bot/scheduled.py:697-712 | with its report row taken, every end but a retryable failure escapes and leaves the item claimed |
| `ReportHistory.RetriggerRepeatsTheReport` | src/codex_continual_research_bot/interactive.py:130-155 | once any report is stored for a run, triggering its request is answered with that report ever after, whatever the runtime would do, and changes nothing |
| `ReportHistory.StoringIsProper` | src/codex_continual_research_bot/interactive.py:331-384 | the events of storing a graph keep the rules the histories assume, and have the effect of the service's step |
| `ReportHistory.QuarantiningIsProper` | src/codex_continual_research_bot/interactive.py:311-329 | likewise for a quarantine |
| `ReportHistory.SuccessIsProper` | src/codex_continual_research_bot/interactive.py:338-374 | a success report of an accepted intent is the run's own, with the digest of its graph |
| `ReportHistory.FailureIsProper` | src/codex_continual_research_bot/interactive.py:419-443 | a failure report is the run's own as long as its intent matched when issued |
| `ReportHistory.SummarizingIsProper` | src/codex_continual_research_bot/interactive.py:375-378 | after storing, moving to SUMMARIZING is allowed whatever happened since |
| `ReportHistory.PastPersistingReplays` | src/codex_continual_research_bot/operational.py:460-491 | every run past PERSISTING has a stored graph that replay accepts, with the reported digest and counts |
| `ReportHistory.ReplaysIff` | src/codex_continual_research_bot/operational.py:460-491 | what replay accepts, and what it finds missing |
| `ReportHistory.AlterationsAreDetected` | src/codex_continual_research_bot/operational.py:477-491 | replay detects every alteration of a stored graph in any reachable store |
| `ReportHistory.ReportedFailureIsFinal` | src/codex_continual_research_bot/persistence/ledger.py:645-652 | a run whose failure was reported never completes, even if its item is requeued |
| `Timestamps.StoredTextsCompareAsInstants` | src/codex_continual_research_bot/persistence/ledger.py:32-36 | comparing stored texts is comparing instants, with or without a fraction |
| `Timestamps.NormalizedTimestampsCompare` | src/codex_continual_research_bot/persistence/ledger.py:32-36 | also across offsets |
| `Timestamps.UtcFormExists` | src/codex_continual_research_bot/persistence/ledger.py:32-36 | every instant of years 1 to 9999 has exactly one stored text |
| `JsonSchemaLaws.NormalizedValidates` | src/codex_continual_research_bot/tools.py:603-628 | what normalization returns validates |
| `JsonSchemaLaws.NormalizeIff` | src/codex_continual_research_bot/tools.py:603-628 | normalizing is projecting to the listed properties, hereditarily, and then validating the result |
| `JsonSchemaLaws.NormalizeIsIdempotent` | src/codex_continual_research_bot/tools.py:603-628 | normalizing twice is normalizing once |
| `JsonSchemaLaws.NormalizeAcceptsAllIff` | src/codex_continual_research_bot/tools.py:603-628 | normalization accepts every validating value exactly for schemas whose objects hereditarily list what they require (or are open and empty, or admit nothing) |
| `JsonSchemaLaws.NormalizeIsIdentityIff` | src/codex_continual_research_bot/tools.py:603-628 | and leaves every validating value alone exactly for hereditarily closed ones (with the same exceptions) |

## Left out

- SQLite, connections and migrations: each ledger operation is one atomic step; unique indexes and primary keys appear as map keys and conflict conditions. Foreign keys to topics are not modelled, and neither are priorities and the choice of the next item.
- SHA-256 and JSON encoding: ids and digests are structured values, so they are collision-free, and stored graphs round-trip. Identical edges keep their multiplicity; the order of edges with equal ids is not represented.
- Text: whitespace and letter case are ASCII only.
- The policy layer of output validation (citation placeholders), schema-level decoding of the final message, and the checks of field types: the validator's verdict on the final message is a parameter of the runtime model.
- The uniqueness of a report's topic and trigger id: only its run and its key are modelled as unique; in both services the trigger determines the key.
- Lists that are only presented (violation messages, export lists) are modelled by their members, not by their order.
- Subprocesses, files, artifact directories and prompts: a launch is its lines, exit code, timeout flag and verdict.
- Credential, session-state and tool-permission checks: a refusal with a failure code is a parameter.
- The worker-loop executors and the interactive service requeue without consulting the attempt limit: the attempt bound is stated for the queue worker and the scheduled service only. The worker-loop executors' own failure handling is not modelled.
- Interactive.Service.TriggerRun: the workspace check and the classification of the user input, which come first, are not modelled; the ids and the digest derived from a request are given.
- Operator alerts, notifications, scheduler scoring, topic enqueueing decisions, the fixture proposal generator, the command line, the web server, dashboards and DOT, Mermaid and HTML rendering: presentation or arbitrary constants.
- RunLifecycle.HistoryIsLegal: starts and other multi-step callers appear as their single reads, swaps and ledger operations; a whole start is one uninterrupted call only in `Orchestrator`.
- Scheduled.Service.ExecuteItem: the session and lease checks before the lease are one parameter, so which failure code a check yields is not modelled.
- Orchestrator.StartQueuedRun: a malformed stored payload is modelled only by the missing self-reference; plan, tool policy, output contract and budgets are constants and are left out of the request.
- JsonSchemaLaws.NormalizeIsIdempotent: objects are compared as maps, so the order of keys is not modelled; a schema is taken as already checked by lines 533-551 of the tool module.
- Validator.SemanticViolations: what is reported is exact, the order of the report is not stated.
- Attempts.AttemptsAreBounded: stated for executions of one item that do not overlap; `OverlappingAttemptsAreBounded` has the bound for those that do.
- Executions.ShiftIsAHistory: the two rows the scheduled service reads to see whom to name are read as one; the run's status, which an ending may also set to FAILED, changes by operations of its own.
