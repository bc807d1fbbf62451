/**
 * Typed boundaries of the human-review workflow: states, roles, commands, records,
 * audit events and errors.
 */
module WorkflowSchema {
  import opened Wrappers
  import opened MatchingSchema

  datatype WorkflowState =
    | Intake | Extracted | RuleGated | AiSuggested | AwaitingHuman | HumanDecided | PrecedentWritten

  /** Position in the declaration order, which the agent workers compare on. */
  function Rank(s: WorkflowState): nat {
    match s
    case Intake => 0
    case Extracted => 1
    case RuleGated => 2
    case AiSuggested => 3
    case AwaitingHuman => 4
    case HumanDecided => 5
    case PrecedentWritten => 6
  }

  datatype ActorRole = PipelineRole | HumanReviewerRole

  datatype HumanAction = Approve | Reject | ApproveConditionally | SendBack

  datatype RestartStage =
    | Supervisor | RestartDocuments | RestartFinancials | RestartEligibility
    | RestartRetrieval | RestartSuggestion | RestartGuardrails

  datatype Actor = Actor(actorId: string, displayName: string, roles: set<ActorRole>)

  /** The fixed workers, in the order the agent graph runs them. */
  datatype WorkerName =
    | DocumentProcessing | FinancialAnalysis | Eligibility | PrecedentRetrieval
    | Suggestion | Guardrails | HumanReview

  /**
   * Command identifiers. uuid5 is injective on the names it is given, so a derived
   * identifier is the name itself; Client stands for a caller-chosen uuid.
   */
  datatype CommandId =
    | Client(uuid: nat)
    | ForWorker(workerApp: AppId, worker: WorkerName)
    | ForTarget(targetApp: AppId, target: WorkflowState)
    | ForReopen(reopenApp: AppId, decision: CommandId)
    | ForPrecedent(precedentApp: AppId, version: nat)

  /** A JSON suggestion payload: the empty object, some other object, or a valid bundle. */
  datatype SuggestionPayload = EmptyPayload | OpaquePayload(content: nat) | BundlePayload(bundle: SuggestionBundle)

  datatype HumanDecisionRecord = HumanDecisionRecord(
    action: HumanAction,
    funderId: Option<FunderId>,
    reason: string,
    conditions: seq<string>,
    overrides: seq<Override>,
    actorId: string,
    actorDisplayName: string,
    decidedAt: Timestamp)

  /** SHA-256 is injective, so a payload hash is represented by the hashed case. */
  datatype PayloadHash = PayloadHash(hashed: DecidedLoanCase)

  /** uuid5 over "fundermatch:{case_id}" is injective as well. */
  datatype PointId = PointId(pointCase: CaseId)

  datatype PrecedentReceipt = PrecedentReceipt(caseId: CaseId, pointId: PointId, payloadHash: PayloadHash)

  datatype WorkflowRecord = WorkflowRecord(
    applicationId: AppId,
    state: WorkflowState,
    version: nat,
    suggestion: Option<SuggestionPayload>,
    decision: Option<HumanDecisionRecord>,
    receipt: Option<PrecedentReceipt>,
    createdAt: Timestamp,
    updatedAt: Timestamp)

  datatype AuditAction = CreateAction | AdvanceAction | DecisionAction(action: HumanAction) | WrittenAction
    | ReopenAction

  /** The JSON "changes" object of an audit event. */
  datatype Changes = Changes(
    state: WorkflowState,
    version: Option<nat>,
    decision: Option<HumanDecisionRecord>,
    receipt: Option<PrecedentReceipt>,
    restartStage: Option<RestartStage>)

  datatype AuditEvent = AuditEvent(
    commandId: CommandId,
    applicationId: AppId,
    sequence: nat,
    actorId: string,
    actorDisplayName: string,
    actorRoles: set<ActorRole>,
    fromState: Option<WorkflowState>,
    toState: WorkflowState,
    action: AuditAction,
    reason: string,
    changes: Changes)

  datatype TransitionResult = TransitionResult(workflow: WorkflowRecord, auditEvent: AuditEvent)

  datatype Operation =
    | Advance(target: WorkflowState, suggestion: Option<SuggestionPayload>)
    | Decide(action: HumanAction, funderId: Option<FunderId>, conditions: seq<string>, overrides: seq<Override>)
    | MarkWritten(receipt: PrecedentReceipt)
    | Reopen(stage: RestartStage)

  datatype Command = Command(id: CommandId, expectedVersion: nat, reason: string, operation: Operation)

  datatype WorkflowError =
    | NotFound
    | Conflict
    | InvalidTransition
    | Unauthorized
    | InvalidCommand        // the command object itself does not validate
    | UniqueViolation       // raw database error, raised only by the Postgres repository
}
