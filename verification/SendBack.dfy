/**
 * Sending a reviewed case back: the workflow is reopened, artifacts are invalidated and
 * the graph is rewound. Together they restore what the first pass looked like before
 * the restarted stage; whether the second pass then brings the workflow back to a
 * human depends on the derived command identifiers the first pass has used up.
 */
module SendBack {
  import opened Wrappers
  import opened MatchingSchema
  import opened WorkflowSchema
  import opened WorkflowService
  import opened WorkflowRepository
  import opened AgentSchema
  import opened Lifecycle
  import opened AgentGraph
  import opened GraphInvariants
  import opened GraphTheorems
  import opened AgentWorkers
  import opened Workspace
  import opened WorkflowCoupling

  function StageWorker(stage: RestartStage): WorkerName
    requires !stage.Supervisor?
  {
    match stage
    case RestartDocuments => DocumentProcessing
    case RestartFinancials => FinancialAnalysis
    case RestartEligibility => Eligibility
    case RestartRetrieval => PrecedentRetrieval
    case RestartSuggestion => Suggestion
    case RestartGuardrails => Guardrails
  }

  // ---- what a completed prefix requires ----

  /** The furthest workflow state a list of completed workers has advanced to. */
  function RequiredState(completed: seq<WorkerName>): WorkflowState {
    if completed == [] then Intake
    else
      var last := completed[|completed| - 1];
      if Target(last).Some? then Target(last).value else RequiredState(completed[..|completed| - 1])
  }

  lemma {:induction false} RequiredAfter(k: nat)
    requires k <= 7
    ensures RequiredState(FIXED_ORDER[..k])
         == if k <= 1 then Intake else if k == 2 then Extracted else if k <= 4 then RuleGated
            else if k <= 6 then AiSuggested else AwaitingHuman
  {
    if k > 0 {
      RequiredAfter(k - 1);
      assert FIXED_ORDER[..k][..k - 1] == FIXED_ORDER[..k - 1];
    }
  }

  /** The restart table takes the case to exactly the state the kept workers require. */
  lemma RestartStateIsRequired(stage: RestartStage)
    requires !stage.Supervisor?
    ensures RestartState(stage) == RequiredState(FIXED_ORDER[..Place(StageWorker(stage))])
  {
    RequiredAfter(Place(StageWorker(stage)));
  }

  // ---- the restored picture ----

  datatype Case = Case(store: Store, memory: Memory, files: map<File, Stored>)

  function ReopenRequest(
    app: AppId, reviewer: Actor, decision: CommandId, version: nat, stage: RestartStage, reason: string,
    now: Timestamp): Request
  {
    CommandRequest(app, reviewer, Command(ForReopen(app, decision), version, reason, Reopen(stage)), now)
  }

  /**
   * The case once it is reopened, its artifacts are invalidated and its checkpoint is
   * rewound, before the graph runs on.
   */
  function SentBack(cfg: GraphConfig, c: Case, app: AppId, request: Request, w: WorkerName, now: Timestamp): Case
    requires c.memory.thread.Some? && w in cfg.order
  {
    Case(Execute(c.store, request).0, Rewound(cfg, c.memory, w, now), Survivors(c.files, app, w))
  }

  /** A case under review that has just been decided to be sent back. */
  predicate Reviewed(cfg: GraphConfig, c: Case, app: AppId) {
    && cfg.order == FIXED_ORDER
    && c.memory.thread.Some? && StateOk(cfg, c.memory.thread.value) && ReceiptsExact(c.memory.thread.value)
    && c.memory.thread.value.status == WaitingForReview
    && c.store.Known(app)
    && c.store.workflows[app].state == HumanDecided
    && c.store.workflows[app].decision.Some? && c.store.workflows[app].decision.value.action == SendBack
  }

  /** The thread holds the picture of a first pass that has completed exactly the workers before w. */
  predicate FirstPassThread(before: ThreadState, after: ThreadState, w: WorkerName) {
    var kept := FIXED_ORDER[..Place(w)];
    && after.status == Running && after.current == w
    && after.completed == kept && after.pending == FIXED_ORDER[Place(w)..]
    && ReceiptWorkers(after.receipts) == kept && Place(w) <= |before.receipts|
    && after.receipts == before.receipts[..Place(w)]
    && after.documents == (if DocumentProcessing in kept then before.documents else [])
    && after.evidence == (if FinancialAnalysis in kept then before.evidence else [])
    && after.eligibility == (if Eligibility in kept then before.eligibility else [])
    && after.guardrails == [] && after.humanReview == None && after.lastError == None
    && after.attempts == before.attempts
  }

  lemma KeptWorkers(w: WorkerName, v: WorkerName)
    ensures Place(w) <= |FIXED_ORDER|
    ensures v in FIXED_ORDER[..Place(w)] <==> Place(v) < Place(w)
  {
    FixedPlaces(w);
    FixedPlaces(v);
    if Place(v) < Place(w) {
      assert FIXED_ORDER[..Place(w)][Place(v)] == v;
    }
    if v in FIXED_ORDER[..Place(w)] {
      var i :| 0 <= i < Place(w) && FIXED_ORDER[i] == v;
      assert i == Place(v);
    }
  }

  lemma IndexIsPlace(w: WorkerName)
    ensures IndexOf(FIXED_ORDER, w) == Place(w)
  {
    FixedIndices();
  }

  lemma RewindRestoresThread(cfg: GraphConfig, s: ThreadState, w: WorkerName)
    requires ValidConfig(cfg) && cfg.order == FIXED_ORDER && StateOk(cfg, s) && ReceiptsExact(s)
    requires s.status == WaitingForReview
    requires w != HumanReview
    ensures Place(w) < |cfg.order| && |s.receipts| == |FIXED_ORDER|
    ensures FirstPassThread(s, RewindState(cfg, s, Place(w)), w)
  {
    FixedPlaces(w);
    IndexIsPlace(DocumentProcessing);
    IndexIsPlace(FinancialAnalysis);
    IndexIsPlace(Eligibility);
    IndexIsPlace(Guardrails);
    KeptWorkers(w, DocumentProcessing);
    KeptWorkers(w, FinancialAnalysis);
    KeptWorkers(w, Eligibility);
    assert s.completed == cfg.order;
    assert |ReceiptWorkers(s.receipts)| == |FIXED_ORDER|;
    RewindKeepsReceiptsExactly(cfg, s, Place(w));
  }

  /** The artifacts left are the kept workers'; the request, the documents and every other application are untouched. */
  lemma SurvivorsAreKept(files: map<File, Stored>, app: AppId, w: WorkerName, file: File)
    requires w != HumanReview
    ensures Place(w) <= |FIXED_ORDER|
    ensures file in Survivors(files, app, w) <==>
              && file in files
              && (file.ArtifactFile? && file.app == app && file.name.WorkerArtifact? ==>
                   file.name.worker in FIXED_ORDER[..Place(w)])
              && (file.ArtifactFile? && file.app == app && file.name.MetricArtifact? ==>
                   FinancialAnalysis in FIXED_ORDER[..Place(w)])
    ensures file in Survivors(files, app, w) ==> Survivors(files, app, w)[file] == files[file]
  {
    KeptWorkers(w, FinancialAnalysis);
    if file.ArtifactFile? && file.name.WorkerArtifact? {
      KeptWorkers(w, file.name.worker);
    }
  }

  /** What an accepted reopening does to the record. */
  lemma ReopenRestoresState(s: Store, app: AppId, request: Request, stage: RestartStage)
    requires s.Known(app) && request.CommandRequest? && request.app == app && request.command.operation == Reopen(stage)
    requires (app, request.command.id) !in s.commands && Execute(s, request).1.Ok?
    ensures !stage.Supervisor? && app in Execute(s, request).0.workflows
    ensures var before, after := s.workflows[app], Execute(s, request).0.workflows[app];
            && after.state == RestartState(stage) && after.version == before.version + 1
            && after.decision == None && after.receipt == before.receipt && after.suggestion == before.suggestion
    ensures forall t :: (app, ForTarget(app, t)) in s.commands ==>
        (app, ForTarget(app, t)) in Execute(s, request).0.commands
  {
  }

  /** A fresh reopening with the right version and role is accepted for every restart stage but the supervisor's. */
  lemma ReopenAcceptedExactly(
    s: Store, app: AppId, reviewer: Actor, decision: CommandId, version: nat, stage: RestartStage, reason: string,
    now: Timestamp)
    requires s.Known(app) && (app, ForReopen(app, decision)) !in s.commands
    ensures Execute(s, ReopenRequest(app, reviewer, decision, version, stage, reason, now)).1.Ok? <==>
              && HumanReviewerRole in reviewer.roles && !stage.Supervisor?
              && s.workflows[app].version == version && s.workflows[app].state == HumanDecided
              && s.workflows[app].decision.Some? && s.workflows[app].decision.value.action == SendBack
  {
  }

  /**
   * Reopening, invalidating and rewinding restore the first pass as it was before the
   * restarted stage: the workflow is in the state the kept workers require, the
   * checkpoint and its receipts are the kept workers', and so are the stored artifacts.
   * What is not restored: attempts, the version and the stored suggestion.
   */
  lemma SendBackRestoresFirstPass(
    cfg: GraphConfig, c: Case, app: AppId, request: Request, stage: RestartStage, now: Timestamp, file: File)
    requires ValidConfig(cfg) && Reviewed(cfg, c, app)
    requires request.CommandRequest? && request.app == app && request.command.operation == Reopen(stage)
    requires (app, request.command.id) !in c.store.commands && Execute(c.store, request).1.Ok?
    ensures !stage.Supervisor?
    ensures var w := StageWorker(stage);
            && w in cfg.order && Place(w) < |FIXED_ORDER|
            && var after := SentBack(cfg, c, app, request, w, now);
               var kept := FIXED_ORDER[..Place(w)];
               && app in after.store.workflows
               && after.store.workflows[app].state == RequiredState(kept)
               && after.store.workflows[app].decision == None
               && after.store.workflows[app].suggestion == c.store.workflows[app].suggestion
               && after.memory.thread.Some?
               && FirstPassThread(c.memory.thread.value, after.memory.thread.value, w)
               && (file == ArtifactFile(app, RequestArtifact) ==> (file in after.files <==> file in c.files))
               && (forall v :: file == ArtifactFile(app, WorkerArtifact(v)) ==>
                    (file in after.files <==> file in c.files && v in kept))
               && (forall m :: file == ArtifactFile(app, MetricArtifact(m)) ==>
                    (file in after.files <==> file in c.files && FinancialAnalysis in kept))
  {
    ReopenRestoresState(c.store, app, request, stage);
    var w := StageWorker(stage);
    FixedPlaces(w);
    RestartStateIsRequired(stage);
    IndexIsPlace(w);
    RewindRestoresThread(cfg, c.memory.thread.value, w);
    SurvivorsAreKept(c.files, app, w, file);
  }

  // ---- the second pass ----

  /** The undisturbed workflow calls of one worker. */
  function WorkerCalls(
    s: Store, app: AppId, w: WorkerName, bundle: SuggestionPayload, actor: Actor, now: Timestamp): (Store, bool)
  {
    if Target(w).Some? then
      var (s', answer) := Advanced(s, app, w, Target(w).value, SuggestionFor(Target(w).value, bundle), actor, now);
      (s', answer.Ok?)
    else if UsesWorkflow(w) then
      var (s', answer) := Ensured(s, app, w, actor, now);
      (s', answer.Ok?)
    else (s, true)
  }

  /** The calls of the restarted workers, one worker after another with nobody interfering; a refusal stops the pass. */
  function SecondPass(
    s: Store, app: AppId, workers: seq<WorkerName>, bundle: SuggestionPayload, actor: Actor,
    now: Timestamp): (Store, bool)
    decreases |workers|
  {
    if workers == [] then (s, true)
    else
      var (s', ok) := WorkerCalls(s, app, workers[0], bundle, actor, now);
      if ok then SecondPass(s', app, workers[1..], bundle, actor, now) else (s', false)
  }

  predicate Used(s: Store, app: AppId, target: WorkflowState) {
    (app, ForTarget(app, target)) in s.commands
  }

  /** The derived identifiers of the targets after a state. */
  predicate NoneUsedAfter(s: Store, app: AppId, state: WorkflowState) {
    forall t :: Rank(state) < Rank(t) <= Rank(AwaitingHuman) ==> !Used(s, app, t)
  }

  predicate AllUsedAfter(s: Store, app: AppId, state: WorkflowState) {
    forall t :: Rank(state) < Rank(t) <= Rank(AwaitingHuman) ==> Used(s, app, t)
  }

  lemma RequiredStep(k: nat)
    requires k < 7
    ensures FIXED_ORDER[k..][0] == FIXED_ORDER[k] && FIXED_ORDER[k..][1..] == FIXED_ORDER[k + 1..]
    ensures Target(FIXED_ORDER[k]).Some? ==>
              && PipelineTarget(RequiredState(FIXED_ORDER[..k])) == Target(FIXED_ORDER[k])
              && RequiredState(FIXED_ORDER[..k + 1]) == Target(FIXED_ORDER[k]).value
    ensures Target(FIXED_ORDER[k]).None? ==> RequiredState(FIXED_ORDER[..k + 1]) == RequiredState(FIXED_ORDER[..k])
  {
    RequiredAfter(k);
    RequiredAfter(k + 1);
  }

  /** A worker whose target is not the next state never moves the case, and neither does one without a target. */
  lemma WrongCallsStay(s: Store, app: AppId, w: WorkerName, bundle: SuggestionPayload, actor: Actor, now: Timestamp)
    requires s.Known(app) && PipelineRole in actor.roles
    requires Target(w).Some? ==> PipelineTarget(s.workflows[app].state) != Target(w)
    ensures WorkerCalls(s, app, w, bundle, actor, now).0 == s
    ensures Target(w).None? ==> WorkerCalls(s, app, w, bundle, actor, now).1
  {
    if Target(w).Some? {
      var target, version := Target(w).value, s.workflows[app].version;
      if (app, ForTarget(app, target)) in s.commands {
        RecordedSubmission(s, app, target, version, SuggestionFor(target, bundle), actor, now);
      } else {
        FreshSubmission(s, app, target, version, SuggestionFor(target, bundle), actor, now);
      }
    }
  }

  /** A used identifier is answered with its recorded result, and the case stays. */
  lemma UsedCallsStay(s: Store, app: AppId, w: WorkerName, bundle: SuggestionPayload, actor: Actor, now: Timestamp)
    requires s.Known(app) && PipelineRole in actor.roles && Target(w).Some? && Used(s, app, Target(w).value)
    ensures WorkerCalls(s, app, w, bundle, actor, now) == (s, true)
  {
    RecordedSubmission(s, app, Target(w).value, s.workflows[app].version, SuggestionFor(Target(w).value, bundle),
      actor, now);
  }

  /** A fresh identifier moves the case to the next state. */
  lemma FreshCallsMove(s: Store, app: AppId, w: WorkerName, bundle: SuggestionPayload, actor: Actor, now: Timestamp)
    requires s.Known(app) && PipelineRole in actor.roles && Target(w).Some?
    requires PipelineTarget(s.workflows[app].state) == Target(w) && !Used(s, app, Target(w).value)
    ensures var (s', ok) := WorkerCalls(s, app, w, bundle, actor, now);
            && ok && s'.Known(app) && s'.workflows[app].state == Target(w).value
            && forall t :: t != Target(w).value ==> Used(s', app, t) == Used(s, app, t)
  {
    FreshSubmission(s, app, Target(w).value, s.workflows[app].version, SuggestionFor(Target(w).value, bundle), actor,
      now);
  }

  /** Once the case is behind the completed workers, no later worker moves it again. */
  lemma {:induction false} BehindStaysBehind(
    s: Store, app: AppId, k: nat, bundle: SuggestionPayload, actor: Actor, now: Timestamp)
    requires k <= 7 && s.Known(app) && PipelineRole in actor.roles
    requires Rank(s.workflows[app].state) < Rank(RequiredState(FIXED_ORDER[..k]))
    ensures SecondPass(s, app, FIXED_ORDER[k..], bundle, actor, now).0 == s
    decreases 7 - k
  {
    if k < 7 {
      RequiredStep(k);
      WrongCallsStay(s, app, FIXED_ORDER[k], bundle, actor, now);
      BehindStaysBehind(s, app, k + 1, bundle, actor, now);
    }
  }

  lemma NoneUsedStep(s: Store, s': Store, app: AppId, state: WorkflowState, next: WorkflowState)
    requires PipelineTarget(state) == Some(next) && !Used(s, app, next)
    requires forall t :: t != next ==> Used(s', app, t) == Used(s, app, t)
    ensures NoneUsedAfter(s, app, state) <==> NoneUsedAfter(s', app, next)
  {
    assert forall t :: Rank(state) < Rank(t) <==> t == next || Rank(next) < Rank(t);
  }

  predicate ReachesHuman(s: Store, app: AppId, k: nat, bundle: SuggestionPayload, actor: Actor, now: Timestamp)
    requires k <= 7
  {
    var s' := SecondPass(s, app, FIXED_ORDER[k..], bundle, actor, now).0;
    app in s'.workflows && s'.workflows[app].state == AwaitingHuman
  }

  /** One worker of the second pass: what remains to be passed is the pass from the next one. */
  lemma PassUnrolls(s: Store, app: AppId, k: nat, bundle: SuggestionPayload, actor: Actor, now: Timestamp)
    requires k < 7
    ensures var (s', ok) := WorkerCalls(s, app, FIXED_ORDER[k], bundle, actor, now);
            ok ==>
              SecondPass(s, app, FIXED_ORDER[k..], bundle, actor, now)
              == SecondPass(s', app, FIXED_ORDER[k + 1..], bundle, actor, now)
  {
    RequiredStep(k);
  }

  /**
   * From the restored state, an undisturbed second pass brings the case to the human
   * again exactly when none of the derived identifiers it needs has been used before.
   */
  lemma {:induction false} SecondPassReachesHumanExactly(
    s: Store, app: AppId, k: nat, bundle: SuggestionPayload, actor: Actor, now: Timestamp)
    requires k <= 7 && s.Known(app) && PipelineRole in actor.roles
    requires s.workflows[app].state == RequiredState(FIXED_ORDER[..k])
    ensures ReachesHuman(s, app, k, bundle, actor, now) <==> NoneUsedAfter(s, app, s.workflows[app].state)
    decreases 7 - k
  {
    RequiredAfter(k);
    if k < 7 {
      var w := FIXED_ORDER[k];
      RequiredStep(k);
      PassUnrolls(s, app, k, bundle, actor, now);
      if Target(w).None? {
        WrongCallsStay(s, app, w, bundle, actor, now);
        SecondPassReachesHumanExactly(s, app, k + 1, bundle, actor, now);
      } else if Used(s, app, Target(w).value) {
        UsedWorkerStrands(s, app, k, bundle, actor, now);
      } else {
        FreshCallsMove(s, app, w, bundle, actor, now);
        var s' := WorkerCalls(s, app, w, bundle, actor, now).0;
        SecondPassReachesHumanExactly(s', app, k + 1, bundle, actor, now);
        NoneUsedStep(s, s', app, s.workflows[app].state, Target(w).value);
      }
    }
  }

  /** The first worker whose identifier is used leaves the case behind for the rest of the pass. */
  lemma UsedWorkerStrands(s: Store, app: AppId, k: nat, bundle: SuggestionPayload, actor: Actor, now: Timestamp)
    requires k < 7 && s.Known(app) && PipelineRole in actor.roles
    requires s.workflows[app].state == RequiredState(FIXED_ORDER[..k])
    requires Target(FIXED_ORDER[k]).Some? && Used(s, app, Target(FIXED_ORDER[k]).value)
    ensures !ReachesHuman(s, app, k, bundle, actor, now) && !NoneUsedAfter(s, app, s.workflows[app].state)
  {
    RequiredStep(k);
    RequiredAfter(k);
    PassUnrolls(s, app, k, bundle, actor, now);
    UsedCallsStay(s, app, FIXED_ORDER[k], bundle, actor, now);
    BehindStaysBehind(s, app, k + 1, bundle, actor, now);
  }

  /**
   * After a first pass run by the workers themselves all derived identifiers are used:
   * the second pass then succeeds without moving the case at all, so the graph waits
   * for a review that the workflow, still at the restart state, refuses to record.
   */
  lemma {:induction false} UsedIdentifiersLeaveCaseBehind(
    s: Store, app: AppId, k: nat, bundle: SuggestionPayload, actor: Actor, now: Timestamp)
    requires k <= 7 && s.Known(app) && PipelineRole in actor.roles
    requires Rank(s.workflows[app].state) <= Rank(RequiredState(FIXED_ORDER[..k]))
    requires AllUsedAfter(s, app, s.workflows[app].state)
    ensures SecondPass(s, app, FIXED_ORDER[k..], bundle, actor, now) == (s, true)
    decreases 7 - k
  {
    if k < 7 {
      var w := FIXED_ORDER[k];
      RequiredStep(k);
      PassUnrolls(s, app, k, bundle, actor, now);
      if Target(w).None? {
        WrongCallsStay(s, app, w, bundle, actor, now);
      } else {
        assert Used(s, app, Target(w).value);
        UsedCallsStay(s, app, w, bundle, actor, now);
      }
      UsedIdentifiersLeaveCaseBehind(s, app, k + 1, bundle, actor, now);
    }
  }

  // ---- from the first pass to the second ----

  /** Advances of this application are made by its workers only. */
  predicate WorkersOnly(app: AppId, request: Request) {
    && Polite(app, request)
    && (request.CommandRequest? && request.app == app && request.command.operation.Advance? ==>
          request.command.id == ForTarget(app, request.command.operation.target))
  }

  predicate WorkersAdvance(app: AppId, steps: seq<Step>) {
    forall i :: 0 <= i < |steps| ==>
      (steps[i].Outside? ==> WorkersOnly(app, steps[i].request)) && !steps[i].SendBackThread?
  }

  /** Every target the case has passed was reached under its derived identifier. */
  ghost predicate UsedUpToState(s: Store, app: AppId) {
    app in s.workflows ==>
      forall t :: 1 <= Rank(t) <= Rank(AwaitingHuman) && Rank(t) <= Rank(s.workflows[app].state) ==> Used(s, app, t)
  }

  lemma RequestKeepsUsed(s: Store, app: AppId, request: Request)
    requires s.workflows.Keys == s.events.Keys
    requires WorkersOnly(app, request) && UsedUpToState(s, app)
    ensures UsedUpToState(Execute(s, request).0, app)
  {
    var s' := Execute(s, request).0;
    if request.app == app && request.CommandRequest? && s' != s {
      var CommandRequest(_, actor, command, now) := request;
      TransitionIsStraight(s.workflows[app], |s.events[app]| + 1, command, actor, now);
      forall t | 1 <= Rank(t) <= Rank(AwaitingHuman) && Rank(t) <= Rank(s'.workflows[app].state)
        ensures Used(s', app, t)
      {
        if Rank(t) <= Rank(s.workflows[app].state) {
          assert Used(s, app, t);
        } else {
          SameRankSameState(t, s'.workflows[app].state);
        }
      }
    } else if request.app != app {
      assert s'.workflows.Keys == s.workflows.Keys + {request.app} || s' == s;
    }
  }

  /** The request, if any, a step makes on the store. */
  function RequestOf(x: Setting, world: World, step: Step): Option<Request> {
    if step.Outside? then Some(step.request)
    else if world.thread.None? then None
    else
      var w := world.thread.value.current;
      if step.CreateMissing? && world.activity.Missing? then Some(EnsureRequest(x.app, w, x.actor, step.createdAt))
      else if step.Submit? && world.activity.Looked? && Target(w).Some? then
        Some(SubmissionOf(x, Target(w).value, world.activity.seen, step.suggestion, step.submittedAt))
      else None
  }

  lemma StoreChangesByRequest(x: Setting, world: World, step: Step)
    requires x.cfg.order != []
    ensures Take(x, world, step).store
         == if RequestOf(x, world, step).Some? then Execute(world.store, RequestOf(x, world, step).value).0
            else world.store
    ensures !step.Outside? && RequestOf(x, world, step).Some? ==> WorkersOnly(x.app, RequestOf(x, world, step).value)
  {
  }

  lemma {:induction false} RunUsesIdentifiers(x: Setting, steps: seq<Step>)
    requires ValidSetting(x) && WorkersAdvance(x.app, steps)
    ensures UsedUpToState(RunSteps(x, steps).store, x.app)
  {
    if steps != [] {
      var earlier, last := steps[..|steps| - 1], steps[|steps| - 1];
      RunUsesIdentifiers(x, earlier);
      EveryRunIsCoupled(x, earlier);
      var world := RunSteps(x, earlier);
      StoreChangesByRequest(x, world, last);
      if RequestOf(x, world, last).Some? {
        RequestKeepsUsed(world.store, x.app, RequestOf(x, world, last).value);
      }
    }
  }

  lemma ReopenKeepsUsed(s: Store, app: AppId, request: Request, stage: RestartStage)
    requires s.Known(app) && Rank(s.workflows[app].state) >= Rank(AwaitingHuman) && UsedUpToState(s, app)
    requires request.CommandRequest? && request.app == app && request.command.operation == Reopen(stage)
    requires (app, request.command.id) !in s.commands && Execute(s, request).1.Ok?
    ensures AllUsedAfter(Execute(s, request).0, app, Execute(s, request).0.workflows[app].state)
  {
    ReopenRestoresState(s, app, request, stage);
    var s' := Execute(s, request).0;
    forall t | Rank(s'.workflows[app].state) < Rank(t) <= Rank(AwaitingHuman)
      ensures Used(s', app, t)
    {
      assert Used(s, app, t);
    }
  }

  /**
   * Over every first pass in which only the workers advance the case: once a send-back
   * is decided and accepted, the undisturbed second pass of the restarted workers
   * succeeds and leaves the workflow at the restart state.
   */
  lemma SendBackStrandsTheCase(
    x: Setting, steps: seq<Step>, request: Request, stage: RestartStage, bundle: SuggestionPayload, now: Timestamp)
    requires ValidSetting(x) && WorkersAdvance(x.app, steps)
    requires request.CommandRequest? && request.app == x.app && request.command.operation == Reopen(stage)
    requires (x.app, request.command.id) !in RunSteps(x, steps).store.commands
    requires Execute(RunSteps(x, steps).store, request).1.Ok?
    ensures !stage.Supervisor?
    ensures var reopened := Execute(RunSteps(x, steps).store, request).0;
            && x.app in reopened.workflows && reopened.workflows[x.app].state == RestartState(stage)
            && SecondPass(reopened, x.app, FIXED_ORDER[Place(StageWorker(stage))..], bundle, x.actor, now)
                 == (reopened, true)
  {
    RunUsesIdentifiers(x, steps);
    UsedCaseIsStranded(RunSteps(x, steps).store, x.app, request, stage, bundle, x.actor, now);
  }

  lemma UsedCaseIsStranded(
    s: Store, app: AppId, request: Request, stage: RestartStage, bundle: SuggestionPayload, actor: Actor,
    now: Timestamp)
    requires UsedUpToState(s, app) && PipelineRole in actor.roles
    requires request.CommandRequest? && request.app == app && request.command.operation == Reopen(stage)
    requires (app, request.command.id) !in s.commands && Execute(s, request).1.Ok?
    ensures !stage.Supervisor?
    ensures var reopened := Execute(s, request).0;
            && app in reopened.workflows && reopened.workflows[app].state == RestartState(stage)
            && SecondPass(reopened, app, FIXED_ORDER[Place(StageWorker(stage))..], bundle, actor, now)
                 == (reopened, true)
  {
    AcceptedReopenWasDecided(s, app, request, stage);
    ReopenRestoresState(s, app, request, stage);
    ReopenKeepsUsed(s, app, request, stage);
    RestartStateIsRequired(stage);
    FixedPlaces(StageWorker(stage));
    UsedIdentifiersLeaveCaseBehind(Execute(s, request).0, app, Place(StageWorker(stage)), bundle, actor, now);
  }

  lemma AcceptedReopenWasDecided(s: Store, app: AppId, request: Request, stage: RestartStage)
    requires request.CommandRequest? && request.app == app && request.command.operation == Reopen(stage)
    requires (app, request.command.id) !in s.commands && Execute(s, request).1.Ok?
    ensures s.Known(app) && s.workflows[app].state == HumanDecided && !stage.Supervisor?
    ensures Execute(s, request).0.Known(app) && Rank(RestartState(stage)) < Rank(AwaitingHuman)
  {
  }
}
