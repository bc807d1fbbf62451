/**
 * What the fixed workers do outside their checkpoint: the artifacts they read and
 * write, and the workflow state each of them advances the case to.
 */
module AgentWorkers {
  import opened Wrappers
  import opened MatchingSchema
  import opened WorkflowSchema
  import opened WorkflowService
  import opened WorkflowRepository
  import opened AuditLog

  /** The workflow state a worker advances to once its artifact is saved. */
  function Target(w: WorkerName): Option<WorkflowState> {
    match w
    case FinancialAnalysis => Some(Extracted)
    case Eligibility => Some(RuleGated)
    case Suggestion => Some(AiSuggested)
    case HumanReview => Some(AwaitingHuman)
    case _ => None
  }

  /** Document processing only makes sure that the case exists. */
  predicate UsesWorkflow(w: WorkerName) {
    w == DocumentProcessing || Target(w).Some?
  }

  predicate SavesArtifact(w: WorkerName) {
    w !in {Guardrails, HumanReview}
  }

  /** Artifacts of earlier workers a worker loads. */
  function Inputs(w: WorkerName): set<WorkerName> {
    match w
    case DocumentProcessing => {}
    case FinancialAnalysis => {DocumentProcessing}
    case Eligibility => {FinancialAnalysis}
    case PrecedentRetrieval => {FinancialAnalysis, Eligibility}
    case Suggestion => {FinancialAnalysis, PrecedentRetrieval}
    case Guardrails => {FinancialAnalysis, PrecedentRetrieval, Suggestion}
    case HumanReview => {}
  }

  const ENSURE_REASON := "Agent-supervised borrower PDFs accepted into intake"
  const ADVANCE_REASON := "Agent worker completed its stage"

  /** Only the advance to AiSuggested carries a suggestion. */
  function SuggestionFor(target: WorkflowState, payload: SuggestionPayload): Option<SuggestionPayload> {
    if target == AiSuggested then Some(payload) else None
  }

  type WorkflowAnswer = Result<WorkflowRecord, WorkflowError>

  function RecordOf(response: Response): WorkflowAnswer {
    match response
    case Ok(result) => Ok(result.workflow)
    case Err(e) => Err(e)
  }

  function EnsureRequest(app: AppId, w: WorkerName, actor: Actor, now: Timestamp): Request {
    CreateRequest(app, actor, ForWorker(app, w), ENSURE_REASON, now)
  }

  /** The command identifier depends on the application and the target only. */
  function AdvanceRequest(
    app: AppId, target: WorkflowState, version: nat, suggestion: Option<SuggestionPayload>, actor: Actor,
    now: Timestamp): Request
  {
    CommandRequest(app, actor,
      Command(ForTarget(app, target), version, ADVANCE_REASON, Advance(target, suggestion)), now)
  }

  function Ensured(s: Store, app: AppId, w: WorkerName, actor: Actor, now: Timestamp): (Store, WorkflowAnswer) {
    if app in s.workflows then (s, Ok(s.workflows[app]))
    else
      var (s', response) := Execute(s, EnsureRequest(app, w, actor, now));
      (s', RecordOf(response))
  }

  /** One uninterrupted advance: look, return early when the target is reached, submit otherwise. */
  function Advanced(
    s: Store, app: AppId, w: WorkerName, target: WorkflowState, suggestion: Option<SuggestionPayload>,
    actor: Actor, now: Timestamp): (Store, WorkflowAnswer)
  {
    var (s', current) := Ensured(s, app, w, actor, now);
    if current.Err? then (s', current)
    else if Rank(current.value.state) >= Rank(target) then (s', current)
    else
      var (s'', response) := Execute(s', AdvanceRequest(app, target, current.value.version, suggestion, actor, now));
      (s'', RecordOf(response))
  }

  method EnsureWorkflow(repository: InMemoryWorkflowRepository, app: AppId, w: WorkerName, actor: Actor, now: Timestamp)
    returns (answer: WorkflowAnswer)
    requires repository.Valid()
    modifies repository
    ensures repository.Valid()
    ensures (repository.Contents(), answer) == Ensured(old(repository.Contents()), app, w, actor, now)
  {
    var existing := repository.Get(app);
    if existing.Ok? {
      return existing;
    }
    var response := Serve(repository, EnsureRequest(app, w, actor, now));
    answer := RecordOf(response);
  }

  method AdvanceWorkflow(
    repository: InMemoryWorkflowRepository, app: AppId, w: WorkerName, target: WorkflowState,
    suggestion: Option<SuggestionPayload>, actor: Actor, now: Timestamp)
    returns (answer: WorkflowAnswer)
    requires repository.Valid()
    modifies repository
    ensures repository.Valid()
    ensures (repository.Contents(), answer)
        == Advanced(old(repository.Contents()), app, w, target, suggestion, actor, now)
  {
    answer := EnsureWorkflow(repository, app, w, actor, now);
    if answer.Err? || Rank(answer.value.state) >= Rank(target) {
      return;
    }
    var response := Serve(repository, AdvanceRequest(app, target, answer.value.version, suggestion, actor, now));
    answer := RecordOf(response);
  }

  /** A suggestion accompanies exactly the advance that needs one. */
  predicate Accompanied(target: WorkflowState, suggestion: Option<SuggestionPayload>) {
    suggestion.Some? <==> target == AiSuggested
  }

  /** What a submission is answered when its derived identifier is fresh. */
  lemma FreshSubmission(
    s: Store, app: AppId, target: WorkflowState, version: nat, suggestion: Option<SuggestionPayload>, actor: Actor,
    now: Timestamp)
    requires s.Known(app) && (app, ForTarget(app, target)) !in s.commands
    requires PipelineRole in actor.roles && Accompanied(target, suggestion)
    ensures var (s', response) := Execute(s, AdvanceRequest(app, target, version, suggestion, actor, now));
            var current := s.workflows[app];
            if current.version != version then s' == s && response == Err(Conflict)
            else if PipelineTarget(current.state) != Some(target) then s' == s && response == Err(InvalidTransition)
            else
              && response.Ok? && response.value.workflow.state == target
              && s'.workflows == s.workflows[app := response.value.workflow]
  {
  }

  /** A recorded derived identifier is answered with its first result. */
  lemma RecordedSubmission(
    s: Store, app: AppId, target: WorkflowState, version: nat, suggestion: Option<SuggestionPayload>, actor: Actor,
    now: Timestamp)
    requires (app, ForTarget(app, target)) in s.commands && PipelineRole in actor.roles
    ensures Execute(s, AdvanceRequest(app, target, version, suggestion, actor, now))
         == (s, Ok(s.commands[(app, ForTarget(app, target))]))
  {
  }

  /**
   * From the state just before the target, an advance moves the case exactly when no
   * command with its derived identifier is recorded; otherwise the recorded answer is
   * repeated and the case stays where it is.
   */
  lemma AdvanceMovesExactlyWhenFresh(
    s: Store, app: AppId, w: WorkerName, target: WorkflowState, suggestion: Option<SuggestionPayload>, actor: Actor,
    now: Timestamp)
    requires s.Known(app) && PipelineRole in actor.roles
    requires PipelineTarget(s.workflows[app].state) == Some(target) && Accompanied(target, suggestion)
    ensures var (s', answer) := Advanced(s, app, w, target, suggestion, actor, now);
            && answer.Ok? && app in s'.workflows
            && (s'.workflows[app].state == target <==> (app, ForTarget(app, target)) !in s.commands)
            && ((app, ForTarget(app, target)) in s.commands ==>
                  s' == s && answer.value == s.commands[(app, ForTarget(app, target))].workflow)
  {
    var version := s.workflows[app].version;
    if (app, ForTarget(app, target)) in s.commands {
      RecordedSubmission(s, app, target, version, suggestion, actor, now);
    } else {
      FreshSubmission(s, app, target, version, suggestion, actor, now);
    }
  }
}
