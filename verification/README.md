# FunderMatch: a verified model

FunderMatch takes borrower documents through a fixed order of agent workers, gates funders by
explicit rules, retrieves decided precedents, and hands an advisory bundle to a human, whose
decision becomes a new precedent. This project models the state machines behind that flow in
Dafny 4.11 and proves how they agree under retries, crashes, races and send-backs.

## Layout

- **Human-review workflow.** `WorkflowSchema` and `WorkflowService` hold the records and the four
  transition closures; `WorkflowRepository` is the in-memory repository (a class) with its serial
  meaning; `AuditLog` proves what every log says; `PostgresRepository` interleaves the statements
  of any number of transactions and refines the serial repository.
- **Agent graph.** `AgentSchema`, `Lifecycle`, `AgentGraph` and `AgentSupervisor` (a class) hold
  checkpoints, receipts, lifecycle rows and the operations; `GraphInvariants` and `GraphTheorems`
  prove order, accounting of attempts, when review is reached and what a rewind can restore;
  `GraphHistory` proves what a whole run decides: body starts, skipped workers, final send-backs.
- **Graph, workflow and workspace together.** `AgentWorkers` says what the workers do outside
  their checkpoint, `WorkflowCoupling` interleaves their bodies with other clients and proves the
  coupling, `SendBack` proves what a send-back restores and what the second pass asks of the workflow,
  `ReviewArtifacts` which artifacts a thread in review has, and `SendBackRuns` when the second pass
  reaches review and what a refused send-back does;
  `FinancialWorker` is the metric loop and the forming of the application, with the facts in
  `Facts` and their texts in `Decimals`, `Workspace` the encrypted artifact store (a class).
- **Matching.** `RulesEngine`, `Ranking`, `Retrieval`, `Assembler`, `Bundles` and `Guardrails`, up
  to the composition of all of them.
- **Write-back and retention.** `PrecedentStore`, `Writeback` and `Retention`: multi-store
  protocols with an outbox, run by any number of writers and cleaners that may stop anywhere.
  `Revocation` and `RetentionRuns` prove exactly which revocations last and which deletions are
  complete.
- **Limits, metrics, jobs.** `RateLimit`, `Leases`, `Metrics`, `Percentiles`, `IntakeJobs`.

`Collections` and `Wrappers` are shared helpers. `dafny verify dfyconfig.toml` checks everything.

## How the code is read

- Code that changes stores step by step is a class or a method with a loop, proved against a
  function of the old state; what the system promises is proved about those functions. Protocols
  with several parties are step machines: a run is a list of actions, and a step that is not
  possible leaves the state as it is.
- SHA-256, uuid5, HMAC and AES-GCM are symbolic, injective terms. Extracted figures are decimals
  with Python's own text for them; bounds and scores are exact reals, times are integers, clocks
  and random values are parameters.
- What a service outside the repository answers is a parameter: worker scripts, extraction
  replies, hit lists, embeddings' scores, failures of a deletion.
- The transition of `WorkflowRepository` is atomic because of its lock; that the Postgres one may be
  treated the same way is `PostgresRepository.EveryScheduleIsSerial`.

## What the proofs found

Each of these is a property one would expect of the code that does not hold without a condition;
the model keeps the code as it is and the rows below prove the condition.

- **A send-back does not bring the case back to a human.** The worker's command identifier is
  derived from application and target only (`src/fundermatch/orchestration/workers.py:559`), so in
  the second pass the repository answers with the first pass's result. The documentation says that
  a send-back restarts a selected worker and review follows (`README.md:518`). In the code, after
  every first pass in which only the workers advanced the case, the thread can reach review again
  exactly when no restarted worker has used up its attempts (`SendBackRuns.SendBackReachesReviewExactly`),
  and either way the case stays at the restart state, where no human can decide it
  (`SendBackRuns.SentBackCaseStays`). Exactly a pass with unused identifiers would bring the case along
  (`SendBack.SecondPassReachesHumanExactly`).
- **A refused send-back has already removed the artifacts.** The runtime invalidates before the rewind
  looks at the status (`src/fundermatch/orchestration/runtime.py:150-151`). A thread whose last worker
  timed out after it had advanced the case, and has another attempt, can be resumed into review without
  the artifacts of eligibility and of the workers after it (`SendBackRuns.RefusedSendBackLosesArtifacts`); which artifacts
  a thread in review has is decided by what refused send-backs removed
  (`ReviewArtifacts.ReviewHasArtifactsExactly`).
- **Attempts survive a rewind.** With the configured single attempt for the last worker no send-back
  can return to review (`GraphTheorems.RewindCanReachReviewExactly`, `GraphHistory.SingleAttemptMakesSendBackFinal`,
  `SendBackRuns.SingleAttemptNeverReviewsAgain`).
- **The graph alone does not keep eligibility from being skipped**, which the documentation rules out
  (`README.md:519-520`): from needs-attention, graph.py accepts a rewind forward and counts the skipped
  workers as completed (`GraphHistory.ForwardRewindCountsSkipped`). The guard then stops the thread, as it
  finds no cited evidence (`ReviewArtifacts.GuardStopsForwardRewind`); with the fixed workers a thread in
  review has the eligibility artifact in every run without a refused send-back
  (`ReviewArtifacts.ReviewHasEligibilityArtifact`).
- **A finished thread can be marked retryable and resumed past its attempt limit**, since the escaped
  validator error leaves no trace in the checkpoint: the limit of the last worker holds over every
  run only when it is one (`GraphHistory.LastLimitHoldsExactly`, `GraphHistory.OverrunRuns`).
- **A revoked precedent becomes active again** when a write-back stores it after the revocation, even
  one that begins afterwards (`Revocation.LateWriterUndoesRevocation`); a revocation lasts exactly
  when no writer can store any more and the case admits no write-back (`Revocation.RevocationSurvivesExactly`).
- **The guard compares texts.** Years of operating extracted as "12.0" form a valid application that
  the guard then refuses (`Guardrails.PointNoughtForms`, `Guardrails.PointNoughtIsRefused`,
  `Guardrails.GuardAcceptsAssembledExactly`).
- **A decision can be accepted that can never be written.** The workflow does not strip the reason
  (`src/fundermatch/workflow/schema.py:74`), the precedent does: one of only white space is recorded
  (`PrecedentStore.BlankReasonHasNoPlan`) and the case stays decided and unwritten over every run
  (`Writeback.UnplannedIsNeverWritten`). What a precedent can be built from is
  `PrecedentStore.BuiltIsValidExactly`.
- **A receipt tells the duration of the whole step**, the deadline applies to its body, so the guard
  can refuse a step the graph accepted (`Guardrails.IssuedReceiptsPassExactly`).
- **Production write-backs are refused.** The stored bundle masks the borrower's name but keeps the
  evidence that cites it, so it no longer parses (`Bundles.ProductionBundleParsesExactly`,
  `PrecedentStore.ProductionWriteIsRefused`).
- **An application identifier used again after its deletion keeps its remote documents**, and a thread
  restarted after the listing is deleted all the same (`RetentionRuns.SecondLifeKeepsRemoteDocuments`,
  `RetentionRuns.RestartedThreadIsStillDeleted`); the exact conditions are
  `RetentionRuns.DeletionLeavesRemoteExactly` and `RetentionRuns.DeletedRowIsExpiredExactly`.
- **A failed key rotation locks the workspace out of the files it visited**
  (`Workspace.FailedRotationLosesVisitedFiles`).
- **The weight tolerance admits sums above one**, with which a perfect hit is refused
  (`Retrieval.WeightsKeepScoresInRangeExactly`, `Retrieval.HeavyConfigIsRefused`).
- **A figure is saved before it is checked**, so every resume fails at an unusable one, or at facts that
  form no valid profile, until the artifacts are invalidated (`FinancialWorker.UnusableSavedMetricIsFinal`,
  `FinancialWorker.UnformableFactsAreFinal`).
- **An empty suggestion passes the presence check and is dropped** (`AuditLog.EmptyPayloadLeavesNoSuggestion`).

## Model

| member | source | states |
|---|---|---|
| `WorkflowRepository.InMemoryWorkflowRepository.Create` | src/fundermatch/workflow/repository.py:35-43 | a create installs record, first event and command together, and conflicts when the application exists |
| `WorkflowRepository.InMemoryWorkflowRepository.Get` | src/fundermatch/workflow/repository.py:45-49 | the record, or not-found |
| `WorkflowRepository.InMemoryWorkflowRepository.Audit` | src/fundermatch/workflow/repository.py:51-54 | the event list, or not-found |
| `WorkflowRepository.InMemoryWorkflowRepository.Transition` | src/fundermatch/workflow/repository.py:56-73 | the whole new store and the answer are those of the serial transition: recorded commands are replayed, refusals change nothing, acceptances write all three dictionaries |
| `WorkflowRepository.Serve` | src/fundermatch/workflow/service.py:50-274 | every public operation of the service on the in-memory repository has the effect of Execute, guards included |
| `AuditLog.AcceptedTransitionIsAttributed` | src/fundermatch/workflow/service.py:132-172 | suggestion, decision and receipt are each changed by one kind of operation only, the decision is the command's and the actor's, and the event names command, actor, reason and both states |
| `AuditLog.TransitionKeepsLog` | src/fundermatch/workflow/service.py:73-274 | every accepted transition extends the legal history of a record to the legal history of the updated record |
| `AuditLog.RunConsistent` | src/fundermatch/workflow/repository.py:56-73 | over every run of requests every application's log is the legal history of its record and matches the recorded commands |
| `AuditLog.AuditLogRebuildsRecord` | src/fundermatch/workflow/service.py:99-118 | folding an application's audit log gives back state, version, decision and receipt; version is the log length minus one; decision and receipt are present exactly in their states |
| `AuditLog.AuditLogIsLegalHistory` | src/fundermatch/workflow/service.py:132-172 | sequences are 1..n, each from-state is the previous to-state, HUMAN_DECIDED is entered from AWAITING_HUMAN by a human reviewer only, PRECEDENT_WRITTEN follows a decision that is no send-back, a reopening follows a send-back |
| `AuditLog.CommandsMatchEventsOneToOne` | src/fundermatch/workflow/repository.py:63-73 | no command identifier has two events, and a command is recorded if and only if the log has its event |
| `AuditLog.ExecuteIsAppendOnly` | src/fundermatch/workflow/repository.py:66-73 | a request only appends: old events stay a prefix, versions do not fall, recorded results do not change |
| `AuditLog.ReplayIsIdempotent` | src/fundermatch/workflow/repository.py:63-65 | repeating an accepted command gives the same answer and changes nothing |
| `AuditLog.SuggestionStoredExactlyWhenOffered` | src/fundermatch/workflow/service.py:99-106 | over every run a record holds a suggestion if and only if some accepted advance carried a non-empty payload |
| `AuditLog.EmptyPayloadLeavesNoSuggestion` | src/fundermatch/workflow/service.py:89-104 | the empty payload passes the presence check and is then dropped, so AI_SUGGESTED without a suggestion is reachable: exactly then |
| `PostgresRepository.EveryScheduleIsSerial` | src/fundermatch/workflow/postgres.py:87-130 | whatever the interleaving of statements, the committed tables are those of a serial run of the in-memory repository over the committed requests, each of which took effect |
| `PostgresRepository.CommitIsSerialStep` | src/fundermatch/workflow/postgres.py:103-130 | committing a prepared transaction is one step of the serial repository with the same answer |
| `PostgresRepository.NoCommandCommitsTwice` | src/fundermatch/workflow/postgres.py:94-96 | no (application, command) pair commits twice, however clients race past the command check |
| `PostgresRepository.AnswersAreSerial` | src/fundermatch/workflow/postgres.py:87-130 | every answer is the serial answer at that moment, except that a racing duplicate gets an error without effect; a unique violation means the command was recorded meanwhile |
| `PostgresRepository.IdenticalDuplicateConflicts` | src/fundermatch/workflow/postgres.py:94-111 | a second copy of a committed command that raced past the check ends in a version conflict |
| `PostgresRepository.UniqueKeysGuardCommands` | migrations/001_hitl_workflow.sql:28-36 | an audit row under a command identifier implies the command is recorded, so both unique keys guard the same thing |
| `PostgresRepository.CreatesDifferExactlyOnReplay` | src/fundermatch/workflow/postgres.py:29-60 | the two creates answer differently if and only if the command was recorded before: replay here, conflict in memory |
| `AgentGraph.WorkerContext.ConsumeToolCall` | src/fundermatch/orchestration/graph.py:96-110 | a forbidden tool is refused unrecorded; a permitted call is recorded and then refused when it exceeds the budget |
| `GraphInvariants.SpendSucceedsExactly` | src/fundermatch/orchestration/graph.py:96-110 | a list of calls goes through if and only if every tool is permitted and the calls fit the budget, and then exactly those are recorded |
| `GraphInvariants.StateValidates` | src/fundermatch/orchestration/schema.py:237-249 | a checkpoint that splits the worker order always passes the state validator |
| `GraphInvariants.EscapeOnlyWhenDone` | src/fundermatch/orchestration/graph.py:546-549 | the validator error escapes a step only when nothing is pending |
| `GraphInvariants.PerformKeepsInv` | src/fundermatch/orchestration/graph.py:180-379 | every start, resume, rewind and mark keeps the memory invariant: split order, receipts within policy and signed, attempts accounted for, lifecycle row in step |
| `GraphTheorems.EveryRunSplitsTheOrder` | src/fundermatch/orchestration/graph.py:607-650 | over every run completed then pending is the worker order, current is the head of pending or the last worker, and WAITING_FOR_REVIEW means all workers completed with a guardrails receipt |
| `GraphTheorems.LifecycleFollowsCheckpoint` | src/fundermatch/orchestration/lifecycle.py:100-128 | over every run the lifecycle row has the checkpoint's status unless the thread is running, and a deletion date exactly when terminal |
| `GraphTheorems.AttemptsNeverDecrease` | src/fundermatch/orchestration/graph.py:350-362 | no operation, rewind included, lowers an attempt count |
| `GraphTheorems.BodyRunsAreAccounted` | src/fundermatch/orchestration/graph.py:435-458 | over a thread's whole life each body is started exactly as often as its recorded attempts within the limit plus its escaped steps, which only the last worker has |
| `GraphTheorems.InvokeEscapesExactly` | src/fundermatch/orchestration/graph.py:546-549 | an invocation ends in the escaped validator error if and only if nothing is pending and the last worker, with attempts left, succeeds once more |
| `GraphHistory.LastLimitHoldsExactly` | src/fundermatch/orchestration/graph.py:308-334 | the attempt limit bounds how often the last body is started over every run if and only if it is one |
| `GraphHistory.RunsStayWithinLimit` | src/fundermatch/orchestration/graph.py:452-458 | over every run that never resumes a thread with nothing pending, no body is started more often than its limit |
| `GraphHistory.OverrunRuns` | src/fundermatch/orchestration/graph.py:308-334 | an explicit run of one start and n marks and resumes that starts the last body n + 1 times, for any limit above one |
| `GraphHistory.EscapesAreAnswered` | src/fundermatch/orchestration/graph.py:546-549 | the escapes in these accounts are exactly the operations whose caller got the validator's error |
| `GraphTheorems.ReviewReachedExactly` | src/fundermatch/orchestration/graph.py:432-564 | an invocation reaches WAITING_FOR_REVIEW if and only if every pending worker has an attempt left and succeeds |
| `GraphTheorems.RewindReachesReview` | src/fundermatch/orchestration/graph.py:336-379 | a rewind leads back to review if and only if every restarted worker has an attempt left and succeeds |
| `GraphTheorems.RewindCanReachReviewExactly` | src/fundermatch/orchestration/graph.py:350-379 | some behaviour of the workers leads a rewind back to review if and only if no restarted worker is exhausted |
| `GraphHistory.SingleAttemptMakesSendBackFinal` | configs/guardrails/production.yaml:31 | with one attempt for the last worker, as configured, a thread that was ever in review is never led back there: after any operations no rewind reaches review, however the workers behave |
| `GraphTheorems.RewindKeepsReceiptsExactly` | src/fundermatch/orchestration/graph.py:355-359 | after a rewind the receipts name exactly the completed workers if and only if the rewind skipped nobody, and then they are the prefix |
| `GraphTheorems.ReceiptsNameThePass` | src/fundermatch/orchestration/graph.py:607-646 | over every run whose rewinds skip nobody, receipts name exactly the completed workers in order |
| `GraphHistory.ReceiptMissingExactlyWhenSkipped` | src/fundermatch/orchestration/graph.py:336-359 | over every run a completed worker has a receipt if and only if no rewind skipped it forward |
| `GraphHistory.ReviewHasEligibilityExactly` | src/fundermatch/orchestration/graph.py:344-359 | a thread in review has an eligibility receipt if and only if no rewind of its run left eligibility skipped |
| `GraphHistory.ForwardRewindCountsSkipped` | src/fundermatch/orchestration/graph.py:336-359 | an explicit run of graph.py: after a first worker that needs attention a rewind to the guardrails is accepted and counts the workers in between as completed, eligibility without a receipt among them |
| `ReviewArtifacts.GuardStopsForwardRewind` | src/fundermatch/orchestration/guardrails.py:91-111 | in that very state the guard refuses, whatever application, retrieval, bundle and resolution it loads, and its refusal keeps the thread from review |
| `ReviewArtifacts.ReviewHasArtifactsExactly` | src/fundermatch/orchestration/runtime.py:141-151 | over every run of starts, resumes, marks, worker bodies and send-backs of the fixed workers, at any point of a body, a thread in review has cited evidence, and it has a worker's artifact if and only if that was not removed by a refused send-back, unsaved since and not invalidated by an accepted one |
| `ReviewArtifacts.ReviewHasEligibilityArtifact` | README.md:519-520 | so in every run without a refused send-back a thread in review has the eligibility artifact, and every other one: eligibility is never skipped |
| `GraphTheorems.TerminalAbsorbs` | src/fundermatch/orchestration/graph.py:199-205 | start, resume and rewind leave a terminal thread as it is |
| `GraphTheorems.CancelIsFinal` | src/fundermatch/orchestration/runtime.py:127-139 | a cancel leaves the thread terminal and dated for deletion, cancelled exactly if it was not terminal, and no start, resume, rewind or second cancel changes it afterwards |
| `AgentSupervisor.ApplicationMemoryGraph.Start` | src/fundermatch/orchestration/graph.py:180-197 | on the class's stores a start does what StartOp says for its application and nothing to others |
| `AgentSupervisor.ApplicationMemoryGraph.Resume` | src/fundermatch/orchestration/graph.py:199-218 | the same for a resume, including the refusal past the attempt limit |
| `AgentSupervisor.ApplicationMemoryGraph.Rewind` | src/fundermatch/orchestration/graph.py:336-379 | the same for a rewind, including every refusal in its order |
| `AgentSupervisor.ApplicationMemoryGraph.Update` | src/fundermatch/orchestration/graph.py:228-334 | the same for the terminal, completion, attention and retryable marks |
| `AgentSupervisor.ApplicationMemoryGraph.Cancel` | src/fundermatch/orchestration/runtime.py:127-139 | the same for the runtime's cancel, which leaves a terminal thread alone |
| `AgentSupervisor.ApplicationMemoryGraph.RunGraph` | src/fundermatch/orchestration/graph.py:170-178 | the loop over worker steps ends in the memory InvokeFrom gives, at most one step per pending worker |
| `Lifecycle.InMemoryLifecycleStore.SetStatus` | src/fundermatch/orchestration/lifecycle.py:100-128 | a status change dates terminal rows for deletion and clears the dates otherwise; unknown rows are refused |
| `Lifecycle.InMemoryLifecycleStore.FlagStale` | src/fundermatch/orchestration/lifecycle.py:130-137 | flags exactly the overdue non-terminal rows and changes nothing else |
| `AgentWorkers.EnsureWorkflow` | src/fundermatch/orchestration/workers.py:532-544 | looks the case up and creates it under the worker's identifier only when missing |
| `AgentWorkers.AdvanceWorkflow` | src/fundermatch/orchestration/workers.py:547-571 | the imperative advance has the effect and answer of Advanced: early return at or past the target, one submission otherwise |
| `AgentWorkers.AdvanceMovesExactlyWhenFresh` | src/fundermatch/orchestration/workers.py:559-571 | from the state before the target an advance moves the case if and only if its derived identifier is unused; otherwise the recorded answer is repeated and the case stays |
| `WorkflowCoupling.EveryRunIsCoupled` | src/fundermatch/orchestration/workers.py:532-571 | over every reopen-free run of worker steps, failures at any point, resumes, marks and polite outside requests, the coupling of checkpoint, workflow and artifacts holds |
| `WorkflowCoupling.WorkflowIsNeverBehind` | src/fundermatch/orchestration/workers.py:547-571 | the workflow has reached the target of every completed worker, and the worker's artifact is stored |
| `WorkflowCoupling.NoIllegalJump` | src/fundermatch/workflow/service.py:83-88 | a submission is accepted, and the target then reached, or it conflicts because somebody moved the case since the look; it is never an illegal transition |
| `WorkflowCoupling.SubmissionNeverJumps` | src/fundermatch/orchestration/workers.py:554-571 | a submission is accepted if and only if the version still matches or an earlier submission of the thread was recorded |
| `WorkflowCoupling.ReviewMeansAwaitingHuman` | src/fundermatch/orchestration/workers.py:501-515 | a thread waiting for review has a workflow in AWAITING_HUMAN or later |
| `WorkflowCoupling.TransitionsAreAuditedOnce` | src/fundermatch/workflow/service.py:29-34 | without reopening, event i enters the state of rank i, so each transition is audited exactly once |
| `WorkflowCoupling.BodiesFindTheirInputs` | src/fundermatch/orchestration/workers.py:388-463 | a worker body that has begun finds every artifact it loads |
| `WorkflowCoupling.ForeignUseOfDerivedIdentifier` | src/fundermatch/orchestration/workers.py:559 | counterexample without politeness: a client that used a derived identifier makes the worker's advance succeed without moving the case |
| `SendBack.RestartStateIsRequired` | src/fundermatch/workflow/service.py:36-43 | the restart table takes the case to exactly the state that the workers before the restarted one require |
| `SendBack.ReopenAcceptedExactly` | src/fundermatch/workflow/service.py:225-274 | a fresh reopening is accepted if and only if role, version, state and a send-back decision are given and the stage is explicit |
| `SendBack.SendBackRestoresFirstPass` | src/fundermatch/orchestration/runtime.py:141-151 | reopening, invalidating and rewinding restore the first pass before the stage: required state, kept workers, their receipts, their artifacts and metric substeps, later fields empty; suggestion and attempts are kept |
| `SendBack.SecondPassReachesHumanExactly` | src/fundermatch/orchestration/workers.py:547-571 | an undisturbed second pass brings the case back to AWAITING_HUMAN if and only if none of the derived identifiers it needs was used before |
| `SendBack.UsedIdentifiersLeaveCaseBehind` | src/fundermatch/workflow/repository.py:63-65 | when they were all used the second pass succeeds without changing the store |
| `SendBack.SendBackStrandsTheCase` | src/fundermatch/api/app.py:752-774 | over every first pass advanced by the workers only, an accepted send-back ends with the second pass succeeding and the workflow still at the restart state |
| `SendBackRuns.SendBackReachesReviewExactly` | src/fundermatch/orchestration/runtime.py:141-151 | the second pass on the graph: after every such first pass, a reopening and a rewind, some continuation of worker bodies, resumes, marks and outside requests reaches review if and only if no restarted worker has used up its attempts |
| `SendBackRuns.SentBackCaseStays` | src/fundermatch/workflow/repository.py:63-65 | in every continuation in which nobody else advances or reopens the case, its record stays as the reopening left it |
| `SendBackRuns.SingleAttemptNeverReviewsAgain` | configs/guardrails/production.yaml:31 | with one attempt for the last worker, as configured, no continuation of a send-back reaches review |
| `SendBackRuns.RefusedSendBackLosesArtifacts` | src/fundermatch/orchestration/runtime.py:150-151 | an explicit run: the last worker advances the case and times out, the reviewer sends the case back, the rewind is refused after the invalidation, and the resumed thread is in review without the artifacts from eligibility on, its case at the restart state |
| `FinancialWorker.MetricExtraction.Run` | src/fundermatch/orchestration/workers.py:257-339 | the metric loop has the saved artifacts, calls, evidence and failure of Extract |
| `FinancialWorker.MetricExtraction.Work` | src/fundermatch/orchestration/workers.py:257-383 | the whole worker has the artifacts, calls and application, or failure, of the loop followed by the forming of the application |
| `FinancialWorker.SavedMetricsAreKept` | src/fundermatch/orchestration/workers.py:264-269 | a saved metric keeps its figure through a run, and nothing outside the list is saved |
| `FinancialWorker.CallsAreForMissingMetrics` | src/fundermatch/orchestration/workers.py:266-292 | calls are made only for metrics that were missing, at most once each |
| `FinancialWorker.CallsAreAccounted` | src/fundermatch/orchestration/workers.py:264-315 | every call but at most the failing last one saves a missing metric; missing metrics never increase, and a success leaves none |
| `FinancialWorker.ThirteenCallsSuffice` | src/fundermatch/orchestration/workers.py:257-372 | with a budget of 13 the worker yields an application if and only if every metric is saved or found in usable form and the thirteen facts lie in the ranges of a profile; it is then the valid application the facts determine, and the budget never stands in the way |
| `FinancialWorker.UnusableSavedMetricIsFinal` | src/fundermatch/orchestration/workers.py:315-339 | a metric saved in unusable form fails every later run without another call for it |
| `FinancialWorker.UnformableFactsAreFinal` | src/fundermatch/orchestration/workers.py:340-372 | thirteen usable saved facts that form no valid profile fail every later run as well, without a call |
| `Facts.FormedExactly` | src/fundermatch/rules/schema.py:47-72 | an application is formed if and only if the facts lie in the ranges of a profile; the check of the evidence against the profile never fails |
| `Decimals.PrintsAsIntegerExactly` | src/fundermatch/orchestration/guardrails.py:134-135 | of the decimals equal to an integer only the one written without sign, point and exponent prints as that integer |
| `FinancialWorker.TotalCallsAreBounded` | src/fundermatch/orchestration/workers.py:257-315 | over any series of runs calls number at most the missing metrics plus the failed runs |
| `FinancialWorker.SavedOnceForAll` | src/fundermatch/orchestration/workers.py:266-269 | once saved, a metric keeps its figure over every later run |
| `Workspace.PathGivesName` | src/fundermatch/orchestration/workspace.py:168-182 | the name rotation rebuilds from a path is the name the path was built from |
| `Workspace.ReadAfterWrite` | src/fundermatch/orchestration/workspace.py:209-245 | a written file reads back as written, and no other file is affected |
| `Workspace.ApplicationWorkspace.Save` | src/fundermatch/orchestration/workspace.py:116-126 | a save makes its artifact read back as the value and leaves every other file's reading unchanged |
| `Workspace.ApplicationWorkspace.Load` | src/fundermatch/orchestration/workspace.py:128-132 | a load returns the opened content, or nothing when it does not open under this key and name |
| `Workspace.ApplicationWorkspace.InvalidateFrom` | src/fundermatch/orchestration/workspace.py:138-146 | removes exactly the artifacts of the worker and its successors and, up to the financial stage, all metric artifacts; human review is refused |
| `Workspace.ApplicationWorkspace.RewrapAll` | src/fundermatch/orchestration/workspace.py:157-190 | the files afterwards are the rewrapped ones in either case: all of them and the key switched, or those before the first file that does not unwrap and the key unchanged |
| `Workspace.RotationInProgress` | src/fundermatch/orchestration/workspace.py:247-273 | at any point of a rotation visited files read the same under the new key with ciphertext unchanged, unvisited ones are untouched |
| `Workspace.RotationKeepsEveryFileReadable` | src/fundermatch/orchestration/workspace.py:157-190 | after a complete rotation every listed file reads the same under the new key, and nothing under the old one |
| `Workspace.RotationStopsExactly` | src/fundermatch/orchestration/workspace.py:157-190 | over any list without repeats a rotation succeeds if and only if every file unwraps, and otherwise rewraps exactly those before the first that does not |
| `Workspace.FailedRotationLosesVisitedFiles` | src/fundermatch/orchestration/workspace.py:188-190 | after a failed rotation to another key the workspace can read none of the visited files under the key it still holds; each reads as before under the new key, which it has dropped |
| `RulesEngine.EligibleExactly` | src/fundermatch/rules/engine.py:20-85 | a funder is eligible if and only if every criterion there is is met |
| `RulesEngine.LooserPolicyKeepsEligibility` | src/fundermatch/rules/engine.py:24-80 | loosening a policy never excludes an application it accepted |
| `Ranking.SortIgnoresOrder` | src/fundermatch/matching/retriever.py:147-151 | the ranked list depends only on which matches there are, not on their order |
| `Retrieval.Retrieve` | src/fundermatch/matching/retriever.py:111-151 | the two loops, the threshold, the sort and the cut compute Retrieved, errors included |
| `Retrieval.FusedIs` | src/fundermatch/matching/retriever.py:111-125 | every fused entry carries the true scores of exactly the lists its point is in |
| `Retrieval.FusionIsBruteForce` | src/fundermatch/matching/retriever.py:95-151 | when the candidate limit covers the passing points, retrieval is scoring every passing point, thresholding, ranking and cutting, in any order of hits or enumeration |
| `Retrieval.MissingPointIsBounded` | src/fundermatch/matching/retriever.py:95-132 | a point missing from both lists scores at most the weighted sum of the two cut-offs |
| `Retrieval.AbsenceCountsAsZero` | src/fundermatch/matching/retriever.py:129-132 | a missing list counts as similarity zero, which overstates the score if and only if the weighted true similarity is negative |
| `Retrieval.WeightsKeepScoresInRangeExactly` | src/fundermatch/matching/retriever.py:33-39 | fused scores are always within [-1, 1] if and only if the weights do not sum above one, which the configured tolerance admits |
| `Retrieval.PerfectHitIsRefused` | src/fundermatch/matching/schema.py:11-17 | with such weights a perfect hit in both lists fails as an invalid match |
| `Retrieval.HeavyConfigIsRefused` | src/fundermatch/matching/retriever.py:33-39 | a configuration the validator accepts, with which a perfect hit makes the retrieval raise |
| `Retrieval.AnswersAreProper` | src/fundermatch/matching/retriever.py:127-151 | whatever the lists hold, an answer has at most top_k matches, each of an eligible funder, over the threshold and within bounds |
| `Assembler.Assemble` | src/fundermatch/suggest/assembler.py:31-102 | the group-by, the loop over the policies and the claim loops compute Assembled, with the same error for each refusal |
| `Assembler.GroupByFunder` | src/fundermatch/suggest/assembler.py:46-52 | fails if and only if some match has no eligible funder; otherwise each funder's group is its matches in rank order |
| `Assembler.BuildClaims` | src/fundermatch/suggest/assembler.py:104-154 | the claim list is evidence, then checks per funder, then matches, each with its own grounding |
| `Assembler.PoliciesArePartitioned` | src/fundermatch/suggest/assembler.py:54-95 | candidates are the eligible policies and exclusions the others, in policy order; together they are all policies once each |
| `Assembler.MatchesAreConserved` | src/fundermatch/suggest/assembler.py:46-75 | every match is shown exactly once, under its own funder and in rank order |
| `Assembler.EngineAndAssemblerCompose` | src/fundermatch/suggest/schema.py:100 | on the engine's own results assembly fails only for the cap of 500, with one claim per evidence and match and eight per policy |
| `Bundles.AssembledParses` | src/fundermatch/suggest/schema.py:89-113 | whatever the assembler builds for a valid application can be read back |
| `Bundles.ProductionBundleParsesExactly` | src/fundermatch/orchestration/workers.py:464-482 | the masked bundle production stores for a worker-formed application can be read back if and only if the borrower is called like the mask |
| `Guardrails.IssuedReceiptsPassExactly` | src/fundermatch/orchestration/guardrails.py:66-90 | the receipts the graph issues pass the re-check if and only if the verifier is there, every worker has an execution policy, and no step, measured as a whole, took longer than the deadline of its body |
| `Guardrails.GuardAcceptsAssembledExactly` | src/fundermatch/orchestration/guardrails.py:91-220 | for an application the financial worker formed, the guard accepts the assembled bundle if and only if receipts pass, citations have a page and an area, years and headcount were extracted as plain integers, and precedents are confirmed; eligible-only and claim grounding never fail |
| `Guardrails.PointNoughtForms` | src/fundermatch/orchestration/workers.py:326-368 | the figure 12.0 for the years of operating forms a valid application of twelve years |
| `Guardrails.PointNoughtIsRefused` | src/fundermatch/orchestration/guardrails.py:126-149 | and the guard refuses every application with that figure |
| `Guardrails.PipelineComposes` | src/fundermatch/matching/retriever.py:63-156 | engine, retriever and assembler compose: whenever retrieval answers, assembly succeeds if and only if within the cap, always for up to 53 policies |
| `PrecedentStore.PlannedCase` | src/fundermatch/precedent/writeback.py:192-254 | a planned precedent passes its validators, is filed under its application, active, carries the decision's outcome and stripped funder, and never the borrower's name |
| `PrecedentStore.BuiltIsValidExactly` | src/fundermatch/precedent/schema.py:124-172 | the precedent built for a valid application passes its validators if and only if the application is named like a case, reason and contexts are neither blank nor too long once redacted and stripped, and funder, conditions and settings are in order; leaving out the borrower's name never invalidates the evidence |
| `PrecedentStore.BlankReasonHasNoPlan` | src/fundermatch/workflow/schema.py:67-74 | a decision of whose reason nothing remains has no precedent |
| `PrecedentStore.SelectionIsValidExactly` | src/fundermatch/precedent/writeback.py:256-278 | in a bundle that parses a funder can be chosen if and only if it is a candidate, or excluded with every failed criterion overridden |
| `PrecedentStore.ProductionWriteIsRefused` | src/fundermatch/precedent/writeback.py:87 | so in production every write-back of a case that was not sent back fails while the stored bundle is read, unless the borrower is called like the mask |
| `PrecedentStore.QdrantPrecedentStore.WriteOne` | src/fundermatch/precedent/store.py:70-87 | the point afterwards for every fate of the upsert and any lifecycle change before the reading back; confirmed if and only if the upsert works, the stored payload validates to the same case, and no change made it differ |
| `PrecedentStore.QdrantPrecedentStore.SetLifecycle` | src/fundermatch/precedent/store.py:89-127 | changes a known, readable point's status from the expected one, is harmless when repeated, and refuses otherwise |
| `Writeback.SettledIsFrozen` | src/fundermatch/workflow/service.py:187-243 | a decided record that is no send-back keeps decision and suggestion under every request, and can only become written |
| `Writeback.WritersAgree` | src/fundermatch/precedent/writeback.py:93-97 | over every run concurrent writers of an application hold the same precedent |
| `Writeback.OnePointPerApplication` | src/fundermatch/precedent/store.py:129-131 | over every run, crashes included, no application has two points |
| `Writeback.SendBackIsNeverStored` | src/fundermatch/precedent/writeback.py:83-84 | a case without a settled decision is never stored; its point is absent or the seeded one |
| `Writeback.WrittenMatchesReceiptExactly` | src/fundermatch/precedent/writeback.py:106-118 | a written case has its receipt and point, and the point hashes to the receipt if and only if its lifecycle is active, so always until a manual change |
| `Writeback.UnplannedIsNeverWritten` | src/fundermatch/precedent/writeback.py:90-93 | over every run a settled decision without a valid precedent stays decided and is never written |
| `Revocation.RevocationSurvivesExactly` | src/fundermatch/precedent/store.py:89-127 | over every run a revocation outlasts every continuation without a manual activation if and only if no writer of the application is past its checks and able to store, and the case is written, its settled decision has no plan, or no decision at all could have one |
| `Revocation.PlannableExactly` | src/fundermatch/precedent/schema.py:129 | under valid settings and a redaction that keeps plain texts, some decision has a plan if and only if the application is named like a case |
| `Revocation.LateWriterUndoesRevocation` | src/fundermatch/precedent/writeback.py:93-100 | an explicit run in which a revocation with no writer under way is undone by a write-back begun afterwards |
| `Revocation.OpenCaseCanBeDecided` | src/fundermatch/workflow/service.py:73-274 | from every consistent store an open case can be led to a decision with a plan by requests other than marks |
| `Writeback.PrecedentWritebackService.Write` | src/fundermatch/precedent/writeback.py:58-118 | the imperative write, failing upserts and read-backs included, has the effect on workflow, collection and outbox, and the answer, of WriteOnce |
| `Writeback.WriteSucceedsExactly` | src/fundermatch/precedent/writeback.py:58-118 | a write leads to a written case if and only if role, prepared record (with a precedent that passes its validators) and outbox row admit it, the upsert works, the precedent reads back as it was stored, no lifecycle change precedes the reading back, and the command identifier is fresh; an admitted write that is disturbed leaves the case alone and its outbox row failed |
| `Writeback.RetryIsAdmitted` | src/fundermatch/precedent/writeback.py:120-148 | after any requests and any failed attempt, the retry plans the same precedent and its outbox row admits it |
| `Retention.RetentionStores.RetentionCleanup` | src/fundermatch/api/app.py:1134-1213 | the callback's effect on every store, for each combination of working and failing deletions |
| `Retention.RetentionStores.CleanupExpired` | src/fundermatch/orchestration/graph.py:384-391 | the loop cleans up, deletes checkpoint and row per application, and stops at the first failure |
| `Retention.RowGoesLast` | src/fundermatch/orchestration/graph.py:384-391 | over every calm run of any number of cleaners a row is deleted only for a thread that was terminal and due, after remote documents, workspace and checkpoint are gone and the tombstone is there |
| `Retention.TombstoneComesWithCompletion` | src/fundermatch/api/app.py:1186-1213 | a tombstone appears in exactly the step that completes the outbox row |
| `Retention.LaterRunFinishes` | src/fundermatch/api/app.py:1141-1213 | from any point an earlier run stopped at, a later run with working deletions removes everything and leaves the tombstone |
| `Retention.RemoteIsDeletedExactly` | src/fundermatch/api/app.py:1167-1173 | after one cleanup the remote documents are gone if and only if there were none, or the request was not completed before and the deletion works |
| `RetentionRuns.DeletionLeavesRemoteExactly` | src/fundermatch/api/app.py:1147-1173 | over every run, calm or not, a deletion leaves remote documents if and only if its cleaner found the request completed although there were documents, or the application was worked on after the cleaner dealt with them, and no other cleaner deleted them since |
| `RetentionRuns.AloneLeavesNothingExactly` | src/fundermatch/api/app.py:1147-1173 | without another cleaner at the application only these two conditions remain |
| `RetentionRuns.DeletedRowIsExpiredExactly` | src/fundermatch/orchestration/graph.py:384-391 | over every run the row a cleaner deletes is still an expired one if and only if the thread was not worked on since the listing, or its last work left an expired row again |
| `RetentionRuns.SecondLifeKeepsRemoteDocuments` | src/fundermatch/api/app.py:1167-1169 | a run from nothing that leaves documents behind: an identifier used again after its deletion keeps its remote documents at the next one |
| `RetentionRuns.RestartedThreadIsStillDeleted` | src/fundermatch/orchestration/graph.py:385-390 | a run from nothing that deletes the row of a thread in use again and leaves its new documents |
| `RateLimit.PostgresRateLimiter.Allow` | src/fundermatch/security/rate_limit.py:14-33 | counts the arrival in its aligned window and admits it if and only if the window had room |
| `RateLimit.WindowAdmitsExactly` | src/fundermatch/security/rate_limit.py:14-33 | every window admits exactly the smaller of its arrivals and the quota, in any arrival order |
| `RateLimit.SlidingBound` | src/fundermatch/security/rate_limit.py:22-26 | an interval of any length admits at most one more quota than the windows it spans |
| `RateLimit.TwiceTheQuota` | src/fundermatch/security/rate_limit.py:22-26 | an interval as long as the window admits at most twice the quota |
| `RateLimit.TwiceTheQuotaIsReached` | src/fundermatch/security/rate_limit.py:22-26 | twice the quota is reached around a window boundary |
| `Leases.NeverTooManyLeases` | src/fundermatch/security/rate_limit.py:35-67 | no interleaving of acquire, release, abort and expiry lets a category hold more lease rows than its limit |
| `Leases.RefusedExactlyWhenFull` | src/fundermatch/security/rate_limit.py:43-54 | an acquire with the lock is refused if and only if the limit is taken by leases unexpired at its stamp |
| `Leases.StaleStampRefuses` | src/fundermatch/security/rate_limit.py:42-48 | the stamp is taken before the lock, so a category can refuse although every lease has run out |
| `Metrics.RetrievalMetrics` | src/fundermatch/evals/metrics.py:48-81 | refuses no observations and leakage, and otherwise reports the means of the three measures, if they are in range |
| `Metrics.RecallInUnit` | src/fundermatch/evals/metrics.py:57-59 | recall is in [0, 1], and 1 if and only if every expected precedent is in the first three |
| `Metrics.ReciprocalRankInUnit` | src/fundermatch/evals/metrics.py:60-68 | reciprocal rank is in [0, 1], 0 exactly without a hit and 1 exactly for a first hit |
| `Metrics.NdcgInUnit` | src/fundermatch/evals/metrics.py:69-75 | without repeated results nDCG is in [0, 1], and 1 if and only if the first min(3, expected) results are all expected |
| `Metrics.NdcgAtMostOneExactly` | src/fundermatch/evals/metrics.py:69-75 | with repeats nDCG exceeds 1 if and only if the top three hit more often than is expected |
| `Metrics.ReportIsInRange` | src/fundermatch/evals/metrics.py:76-81 | on rankings without repeats the report is never refused for its range |
| `Percentiles.P95IsLeastCovering` | src/fundermatch/evals/metrics.py:92-100 | the 95th percentile is a measured value that covers at least 95% of the group, and no smaller value does |
| `Percentiles.MedianAtMostP95` | src/fundermatch/evals/metrics.py:99-100 | the median never exceeds the 95th percentile |
| `Percentiles.PerformanceMetrics` | src/fundermatch/evals/metrics.py:84-103 | one entry per environment and stage that occurs, in ascending order of the two, computed from exactly its latencies |
| `Percentiles.ReportCoversInput` | src/fundermatch/evals/metrics.py:87-98 | the group sizes add up to the number of observations |
| `IntakeJobs.InMemoryIntakeJobStore.Append` | src/fundermatch/intake_jobs.py:123-145 | an append numbers its event after the last one, moves a queued job to running and keeps the store consistent |
| `IntakeJobs.InMemoryIntakeJobStore.GetEventsAfter` | src/fundermatch/intake_jobs.py:151-154 | the events with a higher sequence |
| `IntakeJobs.InMemoryIntakeJobStore.FailInterrupted` | src/fundermatch/intake_jobs.py:179-195 | fails every queued or running job, returns exactly their number and leaves none |
| `IntakeJobs.EveryEventOnceInOrder` | src/fundermatch/api/static/app.js:239-250 | over every interleaving with store operations a poller has received exactly a prefix of the job's events, each once and in order, and last_sequence counts the events |
| `IntakeJobs.RoundCatchesUp` | src/fundermatch/intake_jobs.py:151-154 | a polling round leaves nothing unread |
| `IntakeJobs.StoppedPollerMissedNothing` | src/fundermatch/api/static/app.js:239-250 | a poller that stopped has every event there was when it read the final status |

## Left out

- Process kills inside a graph step: LangGraph then leaves the thread RUNNING, and resume refuses it; no liveness is claimed for it.
- Operations that overlap on one graph thread: steps of one thread are taken one at a time; a mark while a worker body is in flight is not modelled.
- WorkflowCoupling.EveryRunIsCoupled: excludes reopening and send-backs, and outside requests that use a derived identifier of the application for something else; the exclusions are shown to be needed (SendBackRuns, ForeignUseOfDerivedIdentifier).
- A send-back's invalidation and its rewind are one step; what lies between them on the file system is not modelled.
- SendBack.SecondPassReachesHumanExactly: the second pass is undisturbed; other clients advancing the case by hand in between are not considered.
- Retention.RowGoesLast: assumes that nobody works on an application being deleted or already deleted; the runs in RetentionRuns show why, and the exact conditions there assume nothing.
- Writeback.WrittenMatchesReceiptExactly: assumes that only write-backs mark cases as written, as the public endpoints have it.
- Revocation.RevocationSurvivesExactly: makes the same assumption, within the run and its continuations.
- Writeback.PrecedentWritebackService.Write: models one call at a time; crashes and other writers are steps of the interleaved machine. A service without an outbox pool skips the outbox and is not modelled.
- Retention outbox identity: one policy hash for the whole run, so the command identifier is a function of the application.
- Rendered texts: audit reasons beyond their presence, evidence summaries, similarity factors, claim texts, requirement strings.
- Redaction and masking are uninterpreted functions. Of the Pydantic checks those of an application, its profile, a bundle's parts and a precedent are modelled, an application's texts as they are once stripped; the lengths of other texts (a command's reason among them) and the 256 KiB checkpoint limit are not.
- Where in an extracted text the first number stands: a figure carries its text and that number.
- Backoff, and deadlines apart from the failure they cause and the receipt re-check.
- job_id, input references, workflow_state and workflow_version copies, config_hash and model_revision in the checkpoint, spans and activity notifications.
- Floating point: the percentile index and the scores are exact; nDCG's logarithm is any discount with the three properties it has.
- In-place files: the workspace is a map from files to stored contents, so temporary files, directory traversal checks and staging of uploads are not modelled.
- Row and unique-key locks among transactions of different lease categories, and hash collisions of the advisory lock.
- The Postgres variants of the lifecycle and intake job stores.
- HTTP routing, authentication, the console, exporters, command-line and smoke scripts, the send-back router's language model, schema and topology checks: plumbing without a deep property.
