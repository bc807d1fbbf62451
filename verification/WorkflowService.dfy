/**
 * Authorization guards and the four transition closures of the workflow service.
 * Each closure maps a frozen record and the next sequence number to the updated
 * record and its audit event, or refuses.
 */
module WorkflowService {
  import opened Wrappers
  import opened MatchingSchema
  import opened WorkflowSchema

  type Outcome = Result<(WorkflowRecord, AuditEvent), WorkflowError>

  function PipelineTarget(s: WorkflowState): Option<WorkflowState> {
    match s
    case Intake => Some(Extracted)
    case Extracted => Some(RuleGated)
    case RuleGated => Some(AiSuggested)
    case AiSuggested => Some(AwaitingHuman)
    case _ => None
  }

  function RestartState(stage: RestartStage): WorkflowState
    requires !stage.Supervisor?
  {
    match stage
    case RestartDocuments => Intake
    case RestartFinancials => Intake
    case RestartEligibility => Extracted
    case RestartRetrieval => RuleGated
    case RestartSuggestion => RuleGated
    case RestartGuardrails => AiSuggested
  }

  function Event(
    commandId: CommandId, updated: WorkflowRecord, sequence: nat, actor: Actor,
    fromState: Option<WorkflowState>, action: AuditAction, reason: string, changes: Changes): AuditEvent
  {
    AuditEvent(commandId, updated.applicationId, sequence, actor.actorId, actor.displayName,
               actor.roles, fromState, updated.state, action, reason, changes)
  }

  /** "command.suggestion or current.suggestion": None and the empty object are both falsy. */
  function ChooseSuggestion(
    offered: Option<SuggestionPayload>, current: Option<SuggestionPayload>): Option<SuggestionPayload>
  {
    if offered.Some? && !offered.value.EmptyPayload? then offered else current
  }

  function AdvancePipeline(
    current: WorkflowRecord, sequence: nat, command: Command, actor: Actor, now: Timestamp): Outcome
    requires command.operation.Advance?
  {
    var op := command.operation;
    if current.version != command.expectedVersion then Err(Conflict)
    else if PipelineTarget(current.state) != Some(op.target) then Err(InvalidTransition)
    else if op.target == AiSuggested && op.suggestion.None? then Err(InvalidTransition)
    else if op.suggestion.Some? && op.target != AiSuggested then Err(InvalidTransition)
    else
      var updated := current.(state := op.target, version := current.version + 1,
                              suggestion := ChooseSuggestion(op.suggestion, current.suggestion), updatedAt := now);
      Ok((updated, Event(command.id, updated, sequence, actor, Some(current.state), AdvanceAction, command.reason,
                         Changes(updated.state, Some(updated.version), None, None, None))))
  }

  function DecideHuman(current: WorkflowRecord, sequence: nat, command: Command, actor: Actor, now: Timestamp): Outcome
    requires command.operation.Decide?
  {
    var op := command.operation;
    if current.version != command.expectedVersion then Err(Conflict)
    else if current.state != AwaitingHuman then Err(InvalidTransition)
    else
      var decision := HumanDecisionRecord(op.action, op.funderId, command.reason, op.conditions, op.overrides,
                                          actor.actorId, actor.displayName, now);
      var updated := current.(state := HumanDecided, version := current.version + 1,
                              decision := Some(decision), updatedAt := now);
      Ok((updated, Event(command.id, updated, sequence, actor, Some(current.state), DecisionAction(op.action),
        command.reason,
                         Changes(updated.state, Some(updated.version), Some(decision), None, None))))
  }

  function MarkPrecedentWritten(
    current: WorkflowRecord, sequence: nat, command: Command, actor: Actor, now: Timestamp): Outcome
    requires command.operation.MarkWritten?
  {
    if current.version != command.expectedVersion then Err(Conflict)
    else if current.state != HumanDecided then Err(InvalidTransition)
    else if current.decision.None? || current.decision.value.action == SendBack then Err(InvalidTransition)
    else
      var receipt := command.operation.receipt;
      var updated := current.(state := PrecedentWritten, version := current.version + 1,
                              receipt := Some(receipt), updatedAt := now);
      Ok((updated, Event(command.id, updated, sequence, actor, Some(current.state), WrittenAction, command.reason,
                         Changes(updated.state, Some(updated.version), None, Some(receipt), None))))
  }

  function ReopenAfterSendBack(
    current: WorkflowRecord, sequence: nat, command: Command, actor: Actor, now: Timestamp): Outcome
    requires command.operation.Reopen? && !command.operation.stage.Supervisor?
  {
    if current.version != command.expectedVersion then Err(Conflict)
    else if current.state != HumanDecided || current.decision.None? || current.decision.value.action != SendBack then
      Err(InvalidTransition)
    else
      var stage := command.operation.stage;
      var updated := current.(state := RestartState(stage), version := current.version + 1,
                              decision := None, updatedAt := now);
      Ok((updated, Event(command.id, updated, sequence, actor, Some(current.state), ReopenAction, command.reason,
                         Changes(updated.state, Some(updated.version), None, None, Some(stage)))))
  }

  /** The validator of a human decision command. */
  predicate ValidDecision(op: Operation)
    requires op.Decide?
  {
    && (op.action == ApproveConditionally <==> op.conditions != [])
    && (op.action == SendBack <==> op.funderId.None?)
  }

  function RequiredRole(op: Operation): ActorRole {
    if op.Decide? || op.Reopen? then HumanReviewerRole else PipelineRole
  }

  /** What is checked before the repository is asked: validation, role, explicit restart stage. */
  function Guard(command: Command, actor: Actor): Option<WorkflowError> {
    if command.operation.Decide? && !ValidDecision(command.operation) then Some(InvalidCommand)
    else if RequiredRole(command.operation) !in actor.roles then Some(Unauthorized)
    else if command.operation.Reopen? && command.operation.stage.Supervisor? then Some(InvalidTransition)
    else None
  }

  /** The closure a guarded command hands to the repository. */
  function Transition(current: WorkflowRecord, sequence: nat, command: Command, actor: Actor, now: Timestamp): Outcome
    requires Guard(command, actor).None?
  {
    match command.operation
    case Advance(_, _) => AdvancePipeline(current, sequence, command, actor, now)
    case Decide(_, _, _, _) => DecideHuman(current, sequence, command, actor, now)
    case MarkWritten(_) => MarkPrecedentWritten(current, sequence, command, actor, now)
    case Reopen(_) => ReopenAfterSendBack(current, sequence, command, actor, now)
  }

  function InitialRecord(app: AppId, now: Timestamp): WorkflowRecord {
    WorkflowRecord(app, Intake, 0, None, None, None, now, now)
  }

  function CreateEvent(app: AppId, id: CommandId, actor: Actor, reason: string, now: Timestamp): AuditEvent {
    Event(id, InitialRecord(app, now), 1, actor, None, CreateAction, reason, Changes(Intake, None, None, None, None))
  }
}
