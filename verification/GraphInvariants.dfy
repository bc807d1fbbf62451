/**
 * What holds of every application's memory after any sequence of start, resume,
 * rewind and mark operations, with workers that fail in any way.
 */
module GraphInvariants {
  import opened Collections
  import opened Wrappers
  import opened MatchingSchema
  import opened WorkflowSchema
  import opened AgentSchema
  import opened Lifecycle
  import opened AgentGraph

  // ---- tool budget ----

  /**
   * Nothing was refused exactly when every tool is permitted and the calls fit; then
   * exactly those tools are recorded.
   */
  lemma {:induction false} SpendSucceedsExactly(
    permitted: Option<set<Tool>>, limit: nat, used: seq<Tool>, wanted: seq<Tool>)
    requires |used| <= limit
    ensures Spend(permitted, limit, used, wanted).1.None?
       <==> |used| + |wanted| <= limit && forall t :: t in wanted ==> MayUse(permitted, t)
    ensures Spend(permitted, limit, used, wanted).1.None? ==> Spend(permitted, limit, used, wanted).0 == used + wanted
    decreases |wanted|
  {
    if wanted == [] {
      assert used + wanted == used;
    } else if MayUse(permitted, wanted[0]) && |used| + 1 <= limit {
      SpendSucceedsExactly(permitted, limit, used + [wanted[0]], wanted[1..]);
      assert used + [wanted[0]] + wanted[1..] == used + wanted;
      assert forall t :: t in wanted <==> t == wanted[0] || t in wanted[1..];
    }
  }

  // ---- receipts ----

  predicate WithinPolicy(cfg: GraphConfig, p: ReceiptPayload) {
    p.worker in cfg.policies ==>
      var policy := cfg.policies[p.worker];
      && p.attempt <= policy.maxAttempts
      && |p.toolCalls| <= policy.maxCalls
      && forall t :: t in p.toolCalls ==> t in policy.permittedTools
  }

  predicate Signed(cfg: GraphConfig, r: WorkerReceipt) {
    r.signature == if cfg.signingSecret.Some? then Some(Hmac(cfg.signingSecret.value, r.payload)) else None
  }

  predicate ReceiptOk(cfg: GraphConfig, s: ThreadState, r: WorkerReceipt) {
    && r.payload.commandId == ForWorker(s.applicationId, r.payload.worker)
    && 1 <= r.payload.attempt <= s.AttemptsOf(r.payload.worker)
    && r.payload.policyHash == cfg.policyHash
    && Signed(cfg, r)
    && WithinPolicy(cfg, r.payload)
  }

  predicate ReceiptsOk(cfg: GraphConfig, s: ThreadState) {
    && (forall r :: r in s.receipts ==> ReceiptOk(cfg, s, r))
    && (forall r :: r in s.receipts ==> r.payload.worker in s.completed)
  }

  // ---- accounting ----

  /** Recorded attempts that started a body: an attempt over the limit is recorded but starts none. */
  function Started(cfg: GraphConfig, s: ThreadState, w: WorkerName): nat {
    var limit := AttemptLimit(cfg, w);
    if limit.Some? && limit.value < s.AttemptsOf(w) then limit.value else s.AttemptsOf(w)
  }

  predicate AccountsBalance(cfg: GraphConfig, m: Memory)
    requires m.thread.Some?
  {
    forall w: WorkerName :: CountOf(m.runs, w) == CountOf(m.escapes, w) + Started(cfg, m.thread.value, w)
  }

  /** Only the last worker's step can escape, and only once everything is completed. */
  predicate EscapesOnlyLast(cfg: GraphConfig, m: Memory)
    requires cfg.order != []
  {
    forall w: WorkerName :: w != Last(cfg.order) ==> CountOf(m.escapes, w) == 0
  }

  /** Guardrails ran in the current pass whenever they are among the completed workers. */
  predicate GuardrailsReceipted(s: ThreadState) {
    Guardrails in s.completed ==> exists r :: r in s.receipts && r.payload.worker == Guardrails
  }

  ghost predicate ThreadInv(cfg: GraphConfig, m: Memory)
    requires m.thread.Some?
  {
    var s := m.thread.value;
    && StateOk(cfg, s)
    && ReceiptsOk(cfg, s)
    && AccountsBalance(cfg, m)
    && EscapesOnlyLast(cfg, m)
    && GuardrailsReceipted(s)
  }

  ghost predicate RowInv(cfg: GraphConfig, m: Memory) {
    && (m.thread.Some? ==> m.row.Some?)
    && (m.row.Some? ==> RetentionConsistent(m.row.value, cfg.retention))
    && (m.thread.Some? ==> m.thread.value.status.Running? || m.row.value.status == m.thread.value.status)
  }

  ghost predicate MemoryInv(cfg: GraphConfig, m: Memory) {
    && (m.thread.Some? ==> ThreadInv(cfg, m))
    && (m.thread.None? ==> m.runs == map[] && m.escapes == map[])
    && RowInv(cfg, m)
  }

  lemma NewReceiptOk(cfg: GraphConfig, s: ThreadState, result: WorkerResult, a: Attempt, s': ThreadState)
    requires result.worker == s.current && !Exhausted(cfg, s, s.current)
    requires Spend(PermittedTools(cfg, s.current), CallLimit(cfg, s.current), [], a.tools).1.None?
    requires s'.applicationId == s.applicationId && s'.AttemptsOf(s.current) == s.AttemptsOf(s.current) + 1
    ensures ReceiptOk(cfg, s', IssueReceipt(cfg, s, result, s.AttemptsOf(s.current) + 1,
                                            UsageOf(cfg, s.current, a)))
  {
    SpendSucceedsExactly(PermittedTools(cfg, s.current), CallLimit(cfg, s.current), [], a.tools);
    assert [] + a.tools == a.tools;
    if s.current in cfg.policies {
      assert forall t :: t in a.tools ==> MayUse(PermittedTools(cfg, s.current), t);
    }
  }

  /** Receipts stay right while attempts grow and no worker leaves the completed list. */
  lemma ReceiptsStay(cfg: GraphConfig, s: ThreadState, s': ThreadState)
    requires ReceiptsOk(cfg, s) && s'.applicationId == s.applicationId
    requires forall w: WorkerName :: s.AttemptsOf(w) <= s'.AttemptsOf(w)
    requires forall w :: w in s.completed ==> w in s'.completed
    ensures forall r :: r in s.receipts ==> ReceiptOk(cfg, s', r) && r.payload.worker in s'.completed
  {
    forall r | r in s.receipts
      ensures ReceiptOk(cfg, s', r) && r.payload.worker in s'.completed
    {
      assert ReceiptOk(cfg, s, r);
    }
  }

  lemma ReceiptAdded(cfg: GraphConfig, s: ThreadState, s': ThreadState, receipt: WorkerReceipt)
    requires forall r :: r in s.receipts ==> ReceiptOk(cfg, s', r) && r.payload.worker in s'.completed
    requires GuardrailsReceipted(s) && ReceiptOk(cfg, s', receipt)
    requires s'.receipts == s.receipts + [receipt] && s'.completed == s.completed + [receipt.payload.worker]
    ensures ReceiptsOk(cfg, s') && GuardrailsReceipted(s')
  {
    assert receipt in s'.receipts;
    if Guardrails in s.completed {
      var r :| r in s.receipts && r.payload.worker == Guardrails;
      assert r in s'.receipts;
    }
  }

  lemma StepKeepsReceipts(cfg: GraphConfig, s: ThreadState, a: Attempt)
    requires ReceiptsOk(cfg, s) && GuardrailsReceipted(s)
    requires RunWorker(cfg, s, a).Next?
    ensures ReceiptsOk(cfg, RunWorker(cfg, s, a).state) && GuardrailsReceipted(RunWorker(cfg, s, a).state)
  {
    var w, s' := s.current, RunWorker(cfg, s, a).state;
    StepAccounts(cfg, s, a);
    if !Exhausted(cfg, s, w) && AttemptEnding(cfg, w, a).Returns? {
      var result := AttemptEnding(cfg, w, a).result;
      NewReceiptOk(cfg, s, result, a, s');
      ReceiptsStay(cfg, s, s');
      ReceiptAdded(cfg, s, s', IssueReceipt(cfg, s, result, s.AttemptsOf(w) + 1, UsageOf(cfg, w, a)));
    } else {
      FailureKeepsReceipts(cfg, s, s');
    }
  }

  lemma FailureKeepsReceipts(cfg: GraphConfig, s: ThreadState, s': ThreadState)
    requires ReceiptsOk(cfg, s) && GuardrailsReceipted(s) && s'.applicationId == s.applicationId
    requires forall w: WorkerName :: s.AttemptsOf(w) <= s'.AttemptsOf(w)
    requires s'.receipts == s.receipts && s'.completed == s.completed
    ensures ReceiptsOk(cfg, s') && GuardrailsReceipted(s')
  {
    ReceiptsStay(cfg, s, s');
  }

  /** What one step does to attempts and the history counts. */
  lemma StepAccounts(cfg: GraphConfig, s: ThreadState, a: Attempt)
    ensures match RunWorker(cfg, s, a)
            case Escaped => !Exhausted(cfg, s, s.current)
            case Next(s', ran) =>
              && (ran <==> !Exhausted(cfg, s, s.current))
              && s'.applicationId == s.applicationId
              && forall w: WorkerName :: s'.AttemptsOf(w) == s.AttemptsOf(w) + (if w == s.current then 1 else 0)
  {
  }

  lemma StepBalances(cfg: GraphConfig, m: Memory, a: Attempt)
    requires m.thread.Some? && AccountsBalance(cfg, m)
    ensures var s := m.thread.value;
            match RunWorker(cfg, s, a)
            case Escaped => AccountsBalance(cfg,
              m.(runs := Bump(m.runs, s.current), escapes := Bump(m.escapes, s.current)))
            case Next(s', ran) =>
              AccountsBalance(cfg, m.(thread := Some(s'), runs := if ran then Bump(m.runs, s.current) else m.runs))
  {
    var s := m.thread.value;
    StepAccounts(cfg, s, a);
    assert CountOf(m.runs, s.current) == CountOf(m.escapes, s.current) + Started(cfg, s, s.current);
  }

  /** A step that ends in a checkpoint keeps the invariant. */
  lemma StepKeepsThreadInv(cfg: GraphConfig, m: Memory, a: Attempt)
    requires ValidConfig(cfg) && m.thread.Some? && ThreadInv(cfg, m) && RunWorker(cfg, m.thread.value, a).Next?
    ensures ThreadInv(cfg, AfterStep(m, RunWorker(cfg, m.thread.value, a)))
    ensures RunWorker(cfg, m.thread.value, a).state.status.Running? ==>
              |RunWorker(cfg, m.thread.value, a).state.pending| < |m.thread.value.pending|
  {
    StepBalances(cfg, m, a);
    RunWorkerKeepsState(cfg, m.thread.value, a);
    StepKeepsReceipts(cfg, m.thread.value, a);
  }

  function AfterStep(m: Memory, r: StepResult): Memory
    requires m.thread.Some? && r.Next?
  {
    m.(thread := Some(r.state), runs := if r.ran then Bump(m.runs, m.thread.value.current) else m.runs)
  }

  lemma InvokeKeepsInv(cfg: GraphConfig, m: Memory, script: WorkerName -> Attempt)
    requires ValidConfig(cfg) && m.thread.Some? && ThreadInv(cfg, m)
    ensures ThreadInv(cfg, InvokeFrom(cfg, m, script).0)
    ensures InvokeFrom(cfg, m, script).1 ==>
        InvokeFrom(cfg, m, script).0.thread == m.thread && m.thread.value.pending == []
    ensures !InvokeFrom(cfg, m, script).1 ==> !InvokeFrom(cfg, m, script).0.thread.value.status.Running?
    decreases |m.thread.value.pending|
  {
    var s := m.thread.value;
    var a := script(s.current);
    if RunWorker(cfg, s, a).Next? {
      StepKeepsThreadInv(cfg, m, a);
      if RunWorker(cfg, s, a).state.status.Running? {
        InvokeKeepsInv(cfg, AfterStep(m, RunWorker(cfg, s, a)), script);
      }
    } else {
      EscapeKeepsInv(cfg, m, script);
    }
  }

  lemma EscapeKeepsInv(cfg: GraphConfig, m: Memory, script: WorkerName -> Attempt)
    requires ValidConfig(cfg) && m.thread.Some? && ThreadInv(cfg, m)
    requires RunWorker(cfg, m.thread.value, script(m.thread.value.current)).Escaped?
    ensures InvokeFrom(cfg, m, script).1 && InvokeFrom(cfg, m, script).0.thread == m.thread
    ensures m.thread.value.pending == []
    ensures ThreadInv(cfg, InvokeFrom(cfg, m, script).0)
  {
    var s := m.thread.value;
    StepBalances(cfg, m, script(s.current));
    EscapeOnlyWhenDone(cfg, s, script(s.current));
  }

  lemma EscapeOnlyWhenDone(cfg: GraphConfig, s: ThreadState, a: Attempt)
    requires ValidConfig(cfg) && StateOk(cfg, s) && RunWorker(cfg, s, a).Escaped?
    ensures s.pending == [] && s.current == Last(cfg.order)
  {
    if s.pending != [] {
      SuccessMovesOne(cfg, s);
      var w := s.current;
      var result := AttemptEnding(cfg, w, a).result;
      var attempts := s.attempts[w := s.AttemptsOf(w) + 1];
      var usage := UsageOf(cfg, w, a);
      SuccessKeepsState(cfg, s, result, attempts, usage);
      StateValidates(cfg, SuccessUpdate(cfg, s, result, attempts, usage));
    }
  }

  /** A checkpoint that splits the order always passes the state validator. */
  lemma StateValidates(cfg: GraphConfig, s: ThreadState)
    requires ValidConfig(cfg) && StateOk(cfg, s)
    ensures Validates(s)
  {
    var k := |s.completed|;
    assert s.completed == cfg.order[..k] && s.pending == cfg.order[k..];
    DistinctPrefix(cfg.order, k);
    forall w | w in s.pending
      ensures w !in s.completed
    {
      var i :| 0 <= i < |s.pending| && s.pending[i] == w;
      assert cfg.order[k + i] == w;
    }
    assert seq(|s.commands|, i requires 0 <= i < |s.commands| => s.commands[i].worker) == cfg.order;
    var at := if s.pending != [] then k else |cfg.order| - 1;
    assert cfg.order[at] == s.current;
    assert s.commands[at] in s.commands;
  }

  // ---- operations ----

  lemma SettleKeepsRow(cfg: GraphConfig, m: Memory, now: Timestamp)
    requires m.thread.Some? && m.row.Some?
    ensures RowInv(cfg, Settle(cfg, m, now).0) && Settle(cfg, m, now).0.row.value.status == m.thread.value.status
  {
  }

  lemma InvokeOpKeepsInv(cfg: GraphConfig, m: Memory, script: WorkerName -> Attempt, now: Timestamp)
    requires ValidConfig(cfg) && m.thread.Some? && ThreadInv(cfg, m)
    requires m.row.Some? && RetentionConsistent(m.row.value, cfg.retention) && m.thread.value.status.Running?
    ensures MemoryInv(cfg, Invoke(cfg, m, script, now).0)
    ensures Invoke(cfg, m, script, now).1 == Err(ValidatorEscaped) <==> InvokeFrom(cfg, m, script).1
  {
    InvokeKeepsInv(cfg, m, script);
    if !InvokeFrom(cfg, m, script).1 {
      SettleKeepsRow(cfg, InvokeFrom(cfg, m, script).0, now);
    }
  }

  lemma {:induction false} KeepReceiptsKeeps(receipts: seq<WorkerReceipt>, completed: seq<WorkerName>)
    ensures forall r :: r in KeepReceipts(receipts, completed) <==> r in receipts && r.payload.worker in completed
  {
    if receipts != [] {
      KeepReceiptsKeeps(receipts[1..], completed);
      assert forall r :: r in receipts <==> r == receipts[0] || r in receipts[1..];
    }
  }

  lemma RewindKeepsReceiptsOk(cfg: GraphConfig, s: ThreadState, index: nat)
    requires index < |cfg.order| && ReceiptsOk(cfg, s)
    ensures ReceiptsOk(cfg, RewindState(cfg, s, index))
  {
    var s' := RewindState(cfg, s, index);
    KeepReceiptsKeeps(s.receipts, cfg.order[..index]);
    forall r | r in s'.receipts
      ensures ReceiptOk(cfg, s', r)
    {
      assert ReceiptOk(cfg, s, r);
    }
  }

  lemma SameAttemptsBalance(cfg: GraphConfig, m: Memory, s: ThreadState)
    requires m.thread.Some? && AccountsBalance(cfg, m) && s.attempts == m.thread.value.attempts
    ensures AccountsBalance(cfg, m.(thread := Some(s)))
  {
    assert forall w: WorkerName :: Started(cfg, s, w) == Started(cfg, m.thread.value, w);
  }

  lemma RewindKeepsThread(cfg: GraphConfig, m: Memory, w: WorkerName, now: Timestamp)
    requires ValidConfig(cfg) && m.thread.Some? && ThreadInv(cfg, m) && w in cfg.order
    requires Guardrails in cfg.order && IndexOf(cfg.order, w) <= IndexOf(cfg.order, Guardrails)
    ensures ThreadInv(cfg, Rewound(cfg, m, w, now))
  {
    IndexOfMember(cfg.order, w);
    var index := IndexOf(cfg.order, w);
    RewindKeepsState(cfg, m.thread.value, index);
    RewindKeepsReceiptsOk(cfg, m.thread.value, index);
    GuardrailsNotBefore(cfg.order, index);
    SameAttemptsBalance(cfg, m, RewindState(cfg, m.thread.value, index));
  }

  lemma GuardrailsNotBefore(order: seq<WorkerName>, index: nat)
    requires index <= IndexOf(order, Guardrails)
    ensures Guardrails !in order[..index]
  {
    forall j | 0 <= j < index
      ensures order[..index][j] != Guardrails
    {
      if order[j] == Guardrails {
        IndexFromFinds(order, 0, j);
      }
    }
  }

  lemma MarkKeepsInv(cfg: GraphConfig, m: Memory, op: Op, now: Timestamp)
    requires ValidConfig(cfg) && MemoryInv(cfg, m)
    requires op.MarkTerminal? || op.CompleteAfterWriteback? || op.MarkNeedsAttention? || op.MarkRetryable?
    ensures MemoryInv(cfg, Mark(cfg, m, op, now).0)
  {
    if m.thread.Some? {
      var s := m.thread.value;
      var s' := Marked(s, op);
      assert forall w: WorkerName :: Started(cfg, s', w) == Started(cfg, s, w);
      SettleKeepsRow(cfg, m.(thread := Some(s')), now);
    }
  }

  /** Order in which the fixed landmarks of a rewind come: no worker but the last follows the guardrails. */
  predicate GuardedOrder(order: seq<WorkerName>) {
    && Guardrails in order
    && forall w :: w in order && w != HumanReview ==> IndexOf(order, w) <= IndexOf(order, Guardrails)
  }

  lemma FixedIndices()
    ensures IndexOf(FIXED_ORDER, DocumentProcessing) == 0 && IndexOf(FIXED_ORDER, FinancialAnalysis) == 1
    ensures IndexOf(FIXED_ORDER, Eligibility) == 2 && IndexOf(FIXED_ORDER, PrecedentRetrieval) == 3
    ensures IndexOf(FIXED_ORDER, Suggestion) == 4 && IndexOf(FIXED_ORDER, Guardrails) == 5
    ensures IndexOf(FIXED_ORDER, HumanReview) == 6
  {
    FirstIndex(FIXED_ORDER, 0);
    FirstIndex(FIXED_ORDER, 1);
    FirstIndex(FIXED_ORDER, 2);
    FirstIndex(FIXED_ORDER, 3);
    FirstIndex(FIXED_ORDER, 4);
    FirstIndex(FIXED_ORDER, 5);
    FirstIndex(FIXED_ORDER, 6);
  }

  /** The code-owned worker order meets every demand made on an order here. */
  lemma FixedOrderIsGuarded()
    ensures FIXED_ORDER != [] && Distinct(FIXED_ORDER) && GuardedOrder(FIXED_ORDER)
    ensures forall l :: l in REWIND_LANDMARKS ==> l in FIXED_ORDER
  {
    FixedIndices();
    assert FIXED_ORDER[0] == DocumentProcessing && FIXED_ORDER[1] == FinancialAnalysis && FIXED_ORDER[2] == Eligibility;
    assert FIXED_ORDER[5] == Guardrails;
  }

  lemma FirstIndex(order: seq<WorkerName>, i: nat)
    requires i < |order| && forall j :: 0 <= j < i ==> order[j] != order[i]
    ensures IndexOf(order, order[i]) == i
  {
    IndexFromFinds(order, 0, i);
  }

  lemma NothingRunYet(cfg: GraphConfig, m: Memory)
    requires cfg.order != [] && m.thread.Some? && m.runs == map[] && m.escapes == map[]
    requires m.thread.value.attempts == map[] && m.thread.value.receipts == [] && m.thread.value.completed == []
    ensures AccountsBalance(cfg, m) && EscapesOnlyLast(cfg, m)
    ensures ReceiptsOk(cfg, m.thread.value) && GuardrailsReceipted(m.thread.value)
  {
  }

  lemma InitialThreadInv(cfg: GraphConfig, m: Memory, app: AppId)
    requires ValidConfig(cfg) && m.thread == Some(InitialState(app, cfg.order)) && m.runs == map[] && m.escapes == map[]
    ensures ThreadInv(cfg, m)
  {
    InitialStateOk(cfg, app);
    NothingRunYet(cfg, m);
  }

  lemma StartRow(cfg: GraphConfig, m: Memory, app: AppId, now: Timestamp)
    requires ValidConfig(cfg) && RowInv(cfg, m)
    ensures var m' := StartThread(cfg, m, app, now);
            m'.row.Some? && RetentionConsistent(m'.row.value, cfg.retention) && m'.thread.value.status.Running?
  {
  }

  lemma StartKeepsInv(cfg: GraphConfig, m: Memory, app: AppId, script: WorkerName -> Attempt, now: Timestamp)
    requires ValidConfig(cfg) && MemoryInv(cfg, m)
    ensures MemoryInv(cfg, StartOp(cfg, m, app, script, now).0)
  {
    if m.thread.None? {
      var m' := StartThread(cfg, m, app, now);
      InitialThreadInv(cfg, m', app);
      StartRow(cfg, m, app, now);
      ReadyInvokeKeepsInv(cfg, m', script, now);
    }
  }

  lemma RewoundRow(cfg: GraphConfig, m: Memory, w: WorkerName, now: Timestamp)
    requires m.thread.Some? && m.row.Some? && w in cfg.order
    ensures Rewound(cfg, m, w, now).thread.Some? && Rewound(cfg, m, w, now).thread.value.status.Running?
    ensures Rewound(cfg, m, w, now).row.Some? && RetentionConsistent(Rewound(cfg, m, w, now).row.value, cfg.retention)
  {
  }

  /** A memory the graph may be invoked on. */
  ghost predicate Ready(cfg: GraphConfig, m: Memory) {
    && m.thread.Some? && ThreadInv(cfg, m) && m.thread.value.status.Running?
    && m.row.Some? && RetentionConsistent(m.row.value, cfg.retention)
  }

  lemma ReadyInvokeKeepsInv(cfg: GraphConfig, m: Memory, script: WorkerName -> Attempt, now: Timestamp)
    requires ValidConfig(cfg) && Ready(cfg, m)
    ensures MemoryInv(cfg, Invoke(cfg, m, script, now).0)
  {
    InvokeOpKeepsInv(cfg, m, script, now);
  }

  lemma RewindOpKeepsInv(cfg: GraphConfig, m: Memory, w: WorkerName, script: WorkerName -> Attempt, now: Timestamp)
    requires ValidConfig(cfg) && GuardedOrder(cfg.order) && MemoryInv(cfg, m)
    ensures MemoryInv(cfg, RewindOp(cfg, m, w, script, now).0)
  {
    if RewindRefusal(cfg, m, w).None? {
      RewindKeepsThread(cfg, m, w, now);
      RewoundRow(cfg, m, w, now);
      ReadyInvokeKeepsInv(cfg, Rewound(cfg, m, w, now), script, now);
    }
  }

  lemma ResumeOpKeepsInv(cfg: GraphConfig, m: Memory, script: WorkerName -> Attempt, now: Timestamp)
    requires ValidConfig(cfg) && MemoryInv(cfg, m)
    ensures MemoryInv(cfg, ResumeOp(cfg, m, script, now).0)
  {
    if m.thread.Some? {
      MarkKeepsInv(cfg, m, MarkTerminal(FailedTerminal), now);
      ResumeKeepsInv(cfg, m, script, now);
    }
  }

  /** Every operation, however its workers behave, keeps the memory invariant. */
  lemma PerformKeepsInv(cfg: GraphConfig, m: Memory, op: Op, now: Timestamp)
    requires ValidConfig(cfg) && GuardedOrder(cfg.order) && MemoryInv(cfg, m)
    ensures MemoryInv(cfg, Perform(cfg, m, op, now).0)
  {
    match op
    case Start(app, script) => StartKeepsInv(cfg, m, app, script, now);
    case Resume(script) => ResumeOpKeepsInv(cfg, m, script, now);
    case Rewind(w, script) => RewindOpKeepsInv(cfg, m, w, script, now);
    case _ => MarkKeepsInv(cfg, m, op, now);
  }

  lemma ResumeKeepsInv(cfg: GraphConfig, m: Memory, script: WorkerName -> Attempt, now: Timestamp)
    requires ValidConfig(cfg) && MemoryInv(cfg, m) && m.thread.Some?
    ensures MemoryInv(cfg, Invoke(cfg, m.(thread := Some(ResumeState(m.thread.value))), script, now).0)
  {
    var m' := m.(thread := Some(ResumeState(m.thread.value)));
    assert forall w: WorkerName :: Started(cfg, m'.thread.value, w) == Started(cfg, m.thread.value, w);
    assert ThreadInv(cfg, m');
    InvokeOpKeepsInv(cfg, m', script, now);
  }

  ghost function RunOps(cfg: GraphConfig, ops: seq<(Op, Timestamp)>): (m: Memory)
    requires ValidConfig(cfg) && GuardedOrder(cfg.order)
    ensures MemoryInv(cfg, m)
  {
    if ops == [] then NO_MEMORY
    else
      var m := RunOps(cfg, ops[..|ops| - 1]);
      var (op, now) := ops[|ops| - 1];
      PerformKeepsInv(cfg, m, op, now);
      Perform(cfg, m, op, now).0
  }
}
