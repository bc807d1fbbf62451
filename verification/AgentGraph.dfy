/**
 * The checkpointed supervisor: one bounded worker per durable step, with failures,
 * resume, rewind and terminal marks. Functions give the meaning of each operation on
 * one application's memory; AgentSupervisor performs them on the stores.
 */
module AgentGraph {
  import opened Collections
  import opened Wrappers
  import opened MatchingSchema
  import opened WorkflowSchema
  import opened AgentSchema
  import opened Lifecycle

  datatype GraphConfig = GraphConfig(
    order: seq<WorkerName>,
    policies: map<WorkerName, ExecutionPolicy>,
    maxToolCalls: nat,
    policyHash: Option<string>,
    signingSecret: Option<string>,
    retention: nat)

  /** The constructor refuses an empty or repeating worker list. */
  predicate ValidConfig(cfg: GraphConfig) {
    cfg.order != [] && Distinct(cfg.order)
  }

  function Last(order: seq<WorkerName>): WorkerName
    requires order != []
  {
    order[|order| - 1]
  }

  // ---- worker context ----

  const TOOL_NOT_PERMITTED := WorkerFailure("tool_not_permitted", false, false)
  const BUDGET_EXCEEDED := WorkerFailure("tool_budget_exceeded", false, false)

  function PermittedTools(cfg: GraphConfig, w: WorkerName): Option<set<Tool>> {
    if w in cfg.policies then Some(cfg.policies[w].permittedTools) else None
  }

  function CallLimit(cfg: GraphConfig, w: WorkerName): nat {
    if w in cfg.policies then cfg.policies[w].maxCalls else cfg.maxToolCalls
  }

  predicate MayUse(permitted: Option<set<Tool>>, tool: Tool) {
    permitted.None? || tool in permitted.value
  }

  /** Tools recorded after asking for each tool in turn, and the refusal that stopped it, if any. */
  function Spend(
    permitted: Option<set<Tool>>, limit: nat, used: seq<Tool>, wanted: seq<Tool>): (seq<Tool>, Option<WorkerFailure>)
    decreases |wanted|
  {
    if wanted == [] then (used, None)
    else if !MayUse(permitted, wanted[0]) then (used, Some(TOOL_NOT_PERMITTED))
    else if |used| + 1 > limit then (used + [wanted[0]], Some(BUDGET_EXCEEDED))
    else Spend(permitted, limit, used + [wanted[0]], wanted[1..])
  }

  class WorkerContext {
    const permitted: Option<set<Tool>>
    const limit: nat
    var toolCalls: nat
    var tools: seq<Tool>

    ghost predicate Valid()
      reads this
    {
      toolCalls == |tools|
    }

    constructor (permitted: Option<set<Tool>>, limit: nat)
      ensures Valid() && tools == [] && this.permitted == permitted && this.limit == limit
    {
      this.permitted := permitted;
      this.limit := limit;
      toolCalls, tools := 0, [];
    }

    /** The call is counted and recorded before the budget is checked, but not when the tool is forbidden. */
    method ConsumeToolCall(tool: Tool) returns (refusal: Option<WorkerFailure>)
      requires Valid()
      modifies this
      ensures Valid()
      ensures (tools, refusal) == Spend(permitted, limit, old(tools), [tool])
    {
      if permitted.Some? && tool !in permitted.value {
        return Some(TOOL_NOT_PERMITTED);
      }
      toolCalls := toolCalls + 1;
      tools := tools + [tool];
      if toolCalls > limit {
        return Some(BUDGET_EXCEEDED);
      }
      return None;
    }

    /** A worker body asking for its tools one after another until one is refused. */
    method ConsumeAll(wanted: seq<Tool>) returns (refusal: Option<WorkerFailure>)
      requires Valid()
      modifies this
      ensures Valid()
      ensures (tools, refusal) == Spend(permitted, limit, old(tools), wanted)
    {
      var i := 0;
      refusal := None;
      while i < |wanted|
        invariant 0 <= i <= |wanted| && Valid() && refusal == None
        invariant Spend(permitted, limit, tools, wanted[i..]) == Spend(permitted, limit, old(tools), wanted)
      {
        refusal := ConsumeToolCall(wanted[i]);
        if refusal.Some? {
          return;
        }
        i := i + 1;
      }
    }
  }

  // ---- one worker step ----

  datatype Ending = Returns(result: WorkerResult) | Raises(failure: WorkerFailure) | TimesOut | Breaks

  /**
   * One worker step: the tools its body asks for, how the body ends when none is refused,
   * the failure it turns a refusal into (every fixed worker re-raises), and the duration
   * of the step, which includes more than the body the deadline applies to.
   */
  datatype Attempt = Attempt(tools: seq<Tool>, ending: Ending, onRefusal: WorkerFailure, latency: real)

  /** The checkpoint after a worker step, or the state validator's error escaping the step. */
  datatype StepResult = Next(state: ThreadState, ran: bool) | Escaped

  function AttemptEnding(cfg: GraphConfig, w: WorkerName, a: Attempt): Ending {
    var refusal := Spend(PermittedTools(cfg, w), CallLimit(cfg, w), [], a.tools).1;
    if refusal.Some? then Raises(a.onRefusal)
    else if a.ending.Returns? && a.ending.result.worker != w then
      Raises(WorkerFailure("worker_identity_mismatch", false, false))
    else a.ending
  }

  function UsageOf(cfg: GraphConfig, w: WorkerName, a: Attempt): Usage {
    Usage(Spend(PermittedTools(cfg, w), CallLimit(cfg, w), [], a.tools).0, a.latency)
  }

  function FailureStatus(f: WorkerFailure): GraphStatus {
    if f.needsAttention then NeedsAttention else if f.retryable then FailedRetryable else FailedTerminal
  }

  function FailureUpdate(
    s: ThreadState, attempts: map<WorkerName, nat>, status: GraphStatus, code: string, retryable: bool): ThreadState
  {
    s.(attempts := attempts, status := status, lastError := Some(WorkerError(s.current, code, retryable)))
  }

  /** The workers of the order that are not completed, in order. */
  function Remaining(order: seq<WorkerName>, completed: seq<WorkerName>): seq<WorkerName> {
    if order == [] then []
    else if order[0] in completed then Remaining(order[1..], completed)
    else [order[0]] + Remaining(order[1..], completed)
  }

  function IssueReceipt(
    cfg: GraphConfig, s: ThreadState, result: WorkerResult, attempt: nat, usage: Usage): WorkerReceipt
  {
    var payload := ReceiptPayload(result.worker, ForWorker(s.applicationId, result.worker), result.output, attempt,
                                  usage.tools, usage.latency, cfg.policyHash);
    WorkerReceipt(payload, if cfg.signingSecret.Some? then Some(Hmac(cfg.signingSecret.value, payload)) else None)
  }

  function Or<T>(offered: Option<T>, current: T): T {
    if offered.Some? then offered.value else current
  }

  function SuccessUpdate(
    cfg: GraphConfig, s: ThreadState, result: WorkerResult, attempts: map<WorkerName, nat>, usage: Usage): ThreadState
    requires result.worker in attempts
  {
    var completed := s.completed + [result.worker];
    var pending := Remaining(cfg.order, completed);
    s.(status := if pending != [] then Running else WaitingForReview,
       current := if pending != [] then pending[0] else result.worker,
       completed := completed,
       pending := pending,
       attempts := attempts,
       receipts := s.receipts + [IssueReceipt(cfg, s, result, attempts[result.worker], usage)],
       writeReceipts := s.writeReceipts + result.writeReceipts,
       lastError := None,
       documents := Or(result.documents, s.documents),
       evidence := Or(result.evidence, s.evidence),
       eligibility := Or(result.eligibility, s.eligibility),
       guardrails := Or(result.guardrails, s.guardrails),
       humanReview := if result.humanReview.Some? then result.humanReview else s.humanReview)
  }

  /** The policy's attempt limit for a worker, if it has one. */
  function AttemptLimit(cfg: GraphConfig, w: WorkerName): Option<nat> {
    if w in cfg.policies then Some(cfg.policies[w].maxAttempts) else None
  }

  predicate Exhausted(cfg: GraphConfig, s: ThreadState, w: WorkerName) {
    AttemptLimit(cfg, w).Some? && s.AttemptsOf(w) >= AttemptLimit(cfg, w).value
  }

  function RunWorker(cfg: GraphConfig, s: ThreadState, a: Attempt): StepResult {
    var w := s.current;
    var attempts := s.attempts[w := s.AttemptsOf(w) + 1];
    if Exhausted(cfg, s, w) then
      Next(FailureUpdate(s, attempts, FailedTerminal, "worker_attempt_limit_exceeded", false), false)
    else
      match AttemptEnding(cfg, w, a)
      case Raises(f) => Next(FailureUpdate(s, attempts, FailureStatus(f), f.code, f.retryable), true)
      case TimesOut => Next(FailureUpdate(s, attempts, FailedRetryable, "worker_deadline_exceeded", true), true)
      case Breaks => Next(FailureUpdate(s, attempts, FailedRetryable, "worker_failed", true), true)
      case Returns(result) =>
        var updated := SuccessUpdate(cfg, s, result, attempts, UsageOf(cfg, w, a));
        if Validates(updated) then Next(updated, true) else Escaped
  }

  // ---- memory of one application ----

  /**
   * Checkpoint and lifecycle row of one application. runs and escapes are history:
   * how often each worker's body was started, and how often its step ended in an
   * escaped validator error.
   */
  datatype Memory = Memory(
    thread: Option<ThreadState>, row: Option<LifecycleRow>, runs: map<WorkerName, nat>, escapes: map<WorkerName, nat>)

  const NO_MEMORY := Memory(None, None, map[], map[])

  function CountOf(counts: map<WorkerName, nat>, w: WorkerName): nat {
    if w in counts then counts[w] else 0
  }

  function Bump(counts: map<WorkerName, nat>, w: WorkerName): map<WorkerName, nat> {
    counts[w := CountOf(counts, w) + 1]
  }

  /** Completed and pending split the worker order, and everything else agrees with the split. */
  predicate StateOk(cfg: GraphConfig, s: ThreadState) {
    && cfg.order != []
    && s.completed + s.pending == cfg.order
    && s.current == (if s.pending != [] then s.pending[0] else Last(cfg.order))
    && s.commands == CommandsFor(s.applicationId, cfg.order)
    && (s.status.WaitingForReview? ==> s.pending == [])
  }

  /** How the invocation of one script goes on from a running checkpoint, at most one step per pending worker. */
  function InvokeFrom(cfg: GraphConfig, m: Memory, script: WorkerName -> Attempt): (r: (Memory, bool))
    requires ValidConfig(cfg) && m.thread.Some? && StateOk(cfg, m.thread.value)
    ensures r.0.thread.Some? && StateOk(cfg, r.0.thread.value) && r.0.row == m.row
    decreases |m.thread.value.pending|
  {
    var s := m.thread.value;
    match RunWorker(cfg, s, script(s.current))
    case Escaped => (m.(runs := Bump(m.runs, s.current), escapes := Bump(m.escapes, s.current)), true)
    case Next(next, ran) =>
      RunWorkerKeepsState(cfg, s, script(s.current));
      var m' := m.(thread := Some(next), runs := if ran then Bump(m.runs, s.current) else m.runs);
      if next.status.Running? then InvokeFrom(cfg, m', script) else (m', false)
  }

  lemma {:induction false} RemainingAfter(order: seq<WorkerName>, completed: seq<WorkerName>, k: nat)
    requires k <= |order|
    requires forall i :: 0 <= i < |order| ==> (order[i] in completed <==> i < k)
    ensures Remaining(order, completed) == order[k..]
  {
    if order != [] {
      var rest, k' := order[1..], if k == 0 then 0 else k - 1;
      assert forall i :: 0 <= i < |rest| ==> rest[i] == order[i + 1];
      RemainingAfter(rest, completed, k');
      assert k > 0 ==> rest[k'..] == order[k..];
    }
  }

  /** A successful step moves the current worker from pending to completed. */
  lemma SuccessMovesOne(cfg: GraphConfig, s: ThreadState)
    requires ValidConfig(cfg) && StateOk(cfg, s) && s.pending != []
    ensures Remaining(cfg.order, s.completed + [s.current]) == s.pending[1..]
  {
    var k := |s.completed|;
    assert s.completed + [s.current] == cfg.order[..k + 1];
    DistinctPrefix(cfg.order, k + 1);
    RemainingAfter(cfg.order, cfg.order[..k + 1], k + 1);
  }

  /** A repeated worker is refused by the state validator. */
  lemma RepeatDoesNotValidate(
    cfg: GraphConfig, s: ThreadState, result: WorkerResult, attempts: map<WorkerName, nat>, usage: Usage)
    requires StateOk(cfg, s) && s.pending == [] && result.worker == s.current && result.worker in attempts
    ensures !Validates(SuccessUpdate(cfg, s, result, attempts, usage))
  {
    var completed := s.completed + [result.worker];
    assert s.completed == cfg.order;
    assert !Differ(completed, |s.completed| - 1, |s.completed|);
  }

  lemma RunWorkerKeepsState(cfg: GraphConfig, s: ThreadState, a: Attempt)
    requires ValidConfig(cfg) && StateOk(cfg, s) && RunWorker(cfg, s, a).Next?
    ensures StateOk(cfg, RunWorker(cfg, s, a).state)
    ensures RunWorker(cfg, s, a).state.status.Running? ==>
              s.pending != [] && RunWorker(cfg, s, a).state.pending == s.pending[1..]
  {
    var w := s.current;
    if !Exhausted(cfg, s, w) && AttemptEnding(cfg, w, a).Returns? {
      ValidSuccessKeepsState(cfg, s, AttemptEnding(cfg, w, a).result, s.attempts[w := s.AttemptsOf(w) + 1],
                             UsageOf(cfg, w, a));
    }
  }

  lemma ValidSuccessKeepsState(
    cfg: GraphConfig, s: ThreadState, result: WorkerResult, attempts: map<WorkerName, nat>, usage: Usage)
    requires ValidConfig(cfg) && StateOk(cfg, s) && result.worker == s.current && result.worker in attempts
    requires Validates(SuccessUpdate(cfg, s, result, attempts, usage))
    ensures StateOk(cfg, SuccessUpdate(cfg, s, result, attempts, usage))
    ensures s.pending != [] && SuccessUpdate(cfg, s, result, attempts, usage).pending == s.pending[1..]
  {
    if s.pending == [] {
      RepeatDoesNotValidate(cfg, s, result, attempts, usage);
    } else {
      SuccessMovesOne(cfg, s);
      SuccessKeepsState(cfg, s, result, attempts, usage);
    }
  }

  lemma SuccessKeepsState(
    cfg: GraphConfig, s: ThreadState, result: WorkerResult, attempts: map<WorkerName, nat>, usage: Usage)
    requires StateOk(cfg, s) && s.pending != [] && result.worker == s.current && result.worker in attempts
    requires Remaining(cfg.order, s.completed + [s.current]) == s.pending[1..]
    ensures StateOk(cfg, SuccessUpdate(cfg, s, result, attempts, usage))
  {
    var s' := SuccessUpdate(cfg, s, result, attempts, usage);
    assert s'.completed + s'.pending == s.completed + s.pending;
    if s'.pending == [] {
      assert cfg.order[|cfg.order| - 1] == s.current;
    }
  }

  // ---- operations ----

  datatype GraphError = UnknownThread | Refused | ValidatorEscaped
  type Answer = Result<ThreadState, GraphError>

  /** lifecycle.set_status after an operation; an unknown row is a KeyError. */
  function Settle(cfg: GraphConfig, m: Memory, now: Timestamp): (Memory, Answer)
    requires m.thread.Some?
  {
    var s := m.thread.value;
    if m.row.None? then (m, Err(UnknownThread))
    else (m.(row := Some(WithStatus(m.row.value, s.status, s.current, s.lastError, now, cfg.retention))), Ok(s))
  }

  function Invoke(cfg: GraphConfig, m: Memory, script: WorkerName -> Attempt, now: Timestamp): (Memory, Answer)
    requires ValidConfig(cfg) && m.thread.Some? && StateOk(cfg, m.thread.value)
  {
    var (m', escaped) := InvokeFrom(cfg, m, script);
    if escaped then (m', Err(ValidatorEscaped)) else Settle(cfg, m', now)
  }

  datatype Op =
    | Start(app: AppId, script: WorkerName -> Attempt)
    | Resume(script: WorkerName -> Attempt)
    | Rewind(worker: WorkerName, script: WorkerName -> Attempt)
    | MarkTerminal(status: GraphStatus)
    | CompleteAfterWriteback(receipt: WriteReceipt)
    | MarkNeedsAttention(code: string)
    | MarkRetryable(code: string)

  function StartThread(cfg: GraphConfig, m: Memory, app: AppId, now: Timestamp): Memory
    requires cfg.order != []
  {
    var s := InitialState(app, cfg.order);
    m.(thread := Some(s), row := if m.row.Some? then m.row else Some(NewRow(s.current, now)))
  }

  function IndexFrom(order: seq<WorkerName>, w: WorkerName, from: nat): (i: nat)
    requires from <= |order|
    ensures i <= |order|
    decreases |order| - from
  {
    if from == |order| || order[from] == w then from else IndexFrom(order, w, from + 1)
  }

  /** Position of a worker in the order, or the length of the order when it is not there. */
  function IndexOf(order: seq<WorkerName>, w: WorkerName): nat {
    IndexFrom(order, w, 0)
  }

  /** The search stops at the worker, and no later than at any of its positions. */
  lemma {:induction false} IndexFromFinds(order: seq<WorkerName>, from: nat, i: nat)
    requires from <= i < |order|
    ensures IndexFrom(order, order[i], from) <= i
    ensures order[IndexFrom(order, order[i], from)] == order[i]
    decreases i - from
  {
    if order[from] != order[i] {
      IndexFromFinds(order, from + 1, i);
    }
  }

  lemma IndexOfMember(order: seq<WorkerName>, w: WorkerName)
    requires w in order
    ensures IndexOf(order, w) < |order| && order[IndexOf(order, w)] == w
  {
    var i :| 0 <= i < |order| && order[i] == w;
    IndexFromFinds(order, 0, i);
  }

  function KeepReceipts(receipts: seq<WorkerReceipt>, completed: seq<WorkerName>): seq<WorkerReceipt> {
    if receipts == [] then []
    else
      (if receipts[0].payload.worker in completed then [receipts[0]] else []) + KeepReceipts(receipts[1..], completed)
  }

  /** The workers whose position rewind looks up; a graph without one of them cannot rewind. */
  const REWIND_LANDMARKS := [DocumentProcessing, FinancialAnalysis, Eligibility, Guardrails]

  function RewindState(cfg: GraphConfig, s: ThreadState, index: nat): ThreadState
    requires index < |cfg.order|
  {
    var completed := cfg.order[..index];
    s.(status := Running,
       current := cfg.order[index],
       completed := completed,
       pending := cfg.order[index..],
       receipts := KeepReceipts(s.receipts, completed),
       humanReview := None,
       lastError := None,
       documents := if index <= IndexOf(cfg.order, DocumentProcessing) then [] else s.documents,
       evidence := if index <= IndexOf(cfg.order, FinancialAnalysis) then [] else s.evidence,
       eligibility := if index <= IndexOf(cfg.order, Eligibility) then [] else s.eligibility,
       guardrails := if index <= IndexOf(cfg.order, Guardrails) then [] else s.guardrails)
  }

  /** Checkpoint and row as a rewind leaves them before it invokes the graph. */
  function Rewound(cfg: GraphConfig, m: Memory, w: WorkerName, now: Timestamp): Memory
    requires m.thread.Some? && w in cfg.order
  {
    IndexOfMember(cfg.order, w);
    m.(thread := Some(RewindState(cfg, m.thread.value, IndexOf(cfg.order, w))),
       row := if m.row.None? then None else Some(WithStatus(m.row.value, Running, w, None, now, cfg.retention)))
  }

  /** Why a rewind is refused, in the order the checks are made. */
  function RewindRefusal(cfg: GraphConfig, m: Memory, w: WorkerName): Option<GraphError> {
    if w == HumanReview || w !in cfg.order then Some(Refused)
    else if m.thread.None? then Some(UnknownThread)
    else if m.thread.value.status !in {WaitingForReview, NeedsAttention} then Some(Refused)
    else if exists l :: l in REWIND_LANDMARKS && l !in cfg.order then Some(Refused)
    else None
  }

  function ResumeState(s: ThreadState): ThreadState {
    s.(status := Running, lastError := None)
  }

  function Marked(s: ThreadState, op: Op): ThreadState
    requires op.MarkTerminal? || op.CompleteAfterWriteback? || op.MarkNeedsAttention? || op.MarkRetryable?
  {
    match op
    case MarkTerminal(status) => s.(status := status, lastError := None)
    case CompleteAfterWriteback(receipt) =>
      s.(status := Completed, writeReceipts := s.writeReceipts + [receipt], lastError := None)
    case MarkNeedsAttention(code) =>
      s.(status := NeedsAttention, lastError := Some(WorkerError(s.current, code, false)))
    case MarkRetryable(code) => s.(status := FailedRetryable, lastError := Some(WorkerError(s.current, code, true)))
  }

  function Mark(cfg: GraphConfig, m: Memory, op: Op, now: Timestamp): (Memory, Answer)
    requires op.MarkTerminal? || op.CompleteAfterWriteback? || op.MarkNeedsAttention? || op.MarkRetryable?
  {
    if op.MarkTerminal? && !op.status.Terminal() then (m, Err(Refused))
    else if m.thread.None? then (m, Err(UnknownThread))
    else if op.CompleteAfterWriteback? && m.thread.value.status.Completed? then (m, Ok(m.thread.value))
    else Settle(cfg, m.(thread := Some(Marked(m.thread.value, op))), now)
  }

  /** The runtime's cancel: a terminal thread is returned as it is. */
  function CancelOp(cfg: GraphConfig, m: Memory, now: Timestamp): (Memory, Answer) {
    if m.thread.Some? && m.thread.value.status.Terminal() then (m, Ok(m.thread.value))
    else Mark(cfg, m, MarkTerminal(Cancelled), now)
  }

  predicate CanResume(s: ThreadState) {
    s.status in {FailedRetryable, NeedsAttention}
  }

  lemma RewindKeepsState(cfg: GraphConfig, s: ThreadState, index: nat)
    requires StateOk(cfg, s) && index < |cfg.order|
    ensures StateOk(cfg, RewindState(cfg, s, index))
  {
    assert cfg.order[..index] + cfg.order[index..] == cfg.order;
    assert cfg.order[index..][0] == cfg.order[index];
  }

  lemma InitialStateOk(cfg: GraphConfig, app: AppId)
    requires cfg.order != []
    ensures StateOk(cfg, InitialState(app, cfg.order))
  {
    assert [] + cfg.order == cfg.order;
  }

  function StartOp(
    cfg: GraphConfig, m: Memory, app: AppId, script: WorkerName -> Attempt, now: Timestamp): (Memory, Answer)
    requires ValidConfig(cfg)
  {
    if m.thread.Some? then (m, Ok(m.thread.value))
    else
      InitialStateOk(cfg, app);
      Invoke(cfg, StartThread(cfg, m, app, now), script, now)
  }

  function ResumeOp(cfg: GraphConfig, m: Memory, script: WorkerName -> Attempt, now: Timestamp): (Memory, Answer)
    requires ValidConfig(cfg) && (m.thread.Some? ==> StateOk(cfg, m.thread.value))
  {
    if m.thread.None? then (m, Err(UnknownThread))
    else if !CanResume(m.thread.value) then (m, Err(Refused))
    else if m.thread.value.status.FailedRetryable? && Exhausted(cfg, m.thread.value, m.thread.value.current) then
      Mark(cfg, m, MarkTerminal(FailedTerminal), now)
    else Invoke(cfg, m.(thread := Some(ResumeState(m.thread.value))), script, now)
  }

  function RewindOp(
    cfg: GraphConfig, m: Memory, w: WorkerName, script: WorkerName -> Attempt, now: Timestamp): (Memory, Answer)
    requires ValidConfig(cfg) && (m.thread.Some? ==> StateOk(cfg, m.thread.value))
  {
    var refusal := RewindRefusal(cfg, m, w);
    if refusal.Some? then (m, Err(refusal.value))
    else if m.row.None? then (Rewound(cfg, m, w, now), Err(UnknownThread))
    else
      IndexOfMember(cfg.order, w);
      RewindKeepsState(cfg, m.thread.value, IndexOf(cfg.order, w));
      Invoke(cfg, Rewound(cfg, m, w, now), script, now)
  }

  /** A rewind that is not refused is an invocation from the rewound checkpoint. */
  lemma RewindIsInvoke(cfg: GraphConfig, m: Memory, w: WorkerName, script: WorkerName -> Attempt, now: Timestamp)
    requires ValidConfig(cfg) && m.thread.Some? && StateOk(cfg, m.thread.value) && m.row.Some?
    requires RewindRefusal(cfg, m, w).None?
    ensures StateOk(cfg, Rewound(cfg, m, w, now).thread.value)
    ensures RewindOp(cfg, m, w, script, now) == Invoke(cfg, Rewound(cfg, m, w, now), script, now)
  {
    IndexOfMember(cfg.order, w);
    RewindKeepsState(cfg, m.thread.value, IndexOf(cfg.order, w));
  }

  lemma RewindIsRefused(cfg: GraphConfig, m: Memory, w: WorkerName, script: WorkerName -> Attempt, now: Timestamp)
    requires ValidConfig(cfg) && (m.thread.Some? ==> StateOk(cfg, m.thread.value)) && RewindRefusal(cfg, m, w).Some?
    ensures RewindOp(cfg, m, w, script, now) == (m, Err(RewindRefusal(cfg, m, w).value))
  {
  }

  /** The meaning of each graph operation on one application's memory. */
  function Perform(cfg: GraphConfig, m: Memory, op: Op, now: Timestamp): (Memory, Answer)
    requires ValidConfig(cfg) && (m.thread.Some? ==> StateOk(cfg, m.thread.value))
  {
    match op
    case Start(app, script) => StartOp(cfg, m, app, script, now)
    case Resume(script) => ResumeOp(cfg, m, script, now)
    case Rewind(w, script) => RewindOp(cfg, m, w, script, now)
    case _ => Mark(cfg, m, op, now)
  }
}
