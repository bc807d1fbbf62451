/**
 * Checkpoint state of the agent graph: what one durable thread per application holds,
 * the execution policies it runs under, and the receipts it issues.
 */
module AgentSchema {
  import opened Collections
  import opened Wrappers
  import opened MatchingSchema
  import opened WorkflowSchema

  datatype GraphStatus =
    | Running | FailedRetryable | NeedsAttention | WaitingForReview | Completed | Cancelled | FailedTerminal
  {
    predicate Terminal() { Completed? || Cancelled? || FailedTerminal? }
  }

  const FIXED_ORDER: seq<WorkerName> :=
    [DocumentProcessing, FinancialAnalysis, Eligibility, PrecedentRetrieval, Suggestion, Guardrails, HumanReview]

  /** Position of a worker in the fixed order. */
  function Place(w: WorkerName): nat {
    match w
    case DocumentProcessing => 0
    case FinancialAnalysis => 1
    case Eligibility => 2
    case PrecedentRetrieval => 3
    case Suggestion => 4
    case Guardrails => 5
    case HumanReview => 6
  }

  lemma FixedPlaces(w: WorkerName)
    ensures Place(w) < |FIXED_ORDER| && FIXED_ORDER[Place(w)] == w
  {
  }

  type Tool = string

  /** deadline is the time a worker's body may take, in milliseconds. */
  datatype ExecutionPolicy = ExecutionPolicy(permittedTools: set<Tool>, maxCalls: nat, maxAttempts: nat, deadline: real)

  /** What a worker step used: the tools it called, and its duration in milliseconds. */
  datatype Usage = Usage(tools: seq<Tool>, latency: real)

  /** HMAC over the receipt without its signature, as a symbolic term. */
  datatype Signature = Hmac(secret: string, payload: ReceiptPayload)

  datatype ReceiptPayload = ReceiptPayload(
    worker: WorkerName, commandId: CommandId, output: nat, attempt: nat, toolCalls: seq<Tool>, latency: real,
    policyHash: Option<string>)

  datatype WorkerReceipt = WorkerReceipt(payload: ReceiptPayload, signature: Option<Signature>)

  datatype WorkerError = WorkerError(worker: WorkerName, code: string, retryable: bool)

  /** A cited fact by its text. */
  datatype EvidenceReference = EvidenceReference(metric: Metric, value: string, citation: Citation)

  datatype EligibilityReference = EligibilityReference(funderId: FunderId, eligible: bool)

  datatype WriteReceipt = WriteReceipt(recordId: CaseId, payloadHash: PayloadHash)

  datatype WorkerCommand = WorkerCommand(worker: WorkerName, commandId: CommandId)

  datatype ThreadState = ThreadState(
    applicationId: AppId,
    status: GraphStatus,
    current: WorkerName,
    completed: seq<WorkerName>,
    pending: seq<WorkerName>,
    attempts: map<WorkerName, nat>,
    documents: seq<string>,
    evidence: seq<EvidenceReference>,
    eligibility: seq<EligibilityReference>,
    guardrails: seq<string>,
    humanReview: Option<nat>,
    commands: seq<WorkerCommand>,
    receipts: seq<WorkerReceipt>,
    writeReceipts: seq<WriteReceipt>,
    lastError: Option<WorkerError>)
  {
    function AttemptsOf(w: WorkerName): nat {
      if w in attempts then attempts[w] else 0
    }
  }

  /** Compact worker output; a None field leaves the checkpoint field as it was. */
  datatype WorkerResult = WorkerResult(
    worker: WorkerName,
    output: nat,
    documents: Option<seq<string>>,
    evidence: Option<seq<EvidenceReference>>,
    eligibility: Option<seq<EligibilityReference>>,
    guardrails: Option<seq<string>>,
    humanReview: Option<nat>,
    writeReceipts: seq<WriteReceipt>)

  datatype WorkerFailure = WorkerFailure(code: string, retryable: bool, needsAttention: bool)

  /** Workers of a list of receipts, in order. */
  function ReceiptWorkers(receipts: seq<WorkerReceipt>): (workers: seq<WorkerName>)
    ensures |workers| == |receipts|
    ensures forall i :: 0 <= i < |receipts| ==> workers[i] == receipts[i].payload.worker
  {
    seq(|receipts|, i requires 0 <= i < |receipts| => receipts[i].payload.worker)
  }

  function CommandsFor(app: AppId, order: seq<WorkerName>): (commands: seq<WorkerCommand>)
    ensures |commands| == |order|
    ensures forall i :: 0 <= i < |order| ==> commands[i] == WorkerCommand(order[i], ForWorker(app, order[i]))
  {
    seq(|order|, i requires 0 <= i < |order| => WorkerCommand(order[i], ForWorker(app, order[i])))
  }

  /** The state validator every checkpoint read and every success update goes through. */
  predicate Validates(s: ThreadState) {
    && Distinct(s.completed)
    && Distinct(s.pending)
    && (forall w :: w in s.completed ==> w !in s.pending)
    && Distinct(seq(|s.commands|, i requires 0 <= i < |s.commands| => s.commands[i].worker))
    && (exists c :: c in s.commands && c.worker == s.current)
  }

  function InitialState(app: AppId, order: seq<WorkerName>): ThreadState
    requires order != []
  {
    ThreadState(app, Running, order[0], [], order, map[], [], [], [], [], None, CommandsFor(app, order), [], [], None)
  }
}
