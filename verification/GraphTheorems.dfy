/**
 * Main results about the agent graph: order and receipts over every run, bounded
 * attempts, when review is reached, and what a rewind can and cannot restore.
 */
module GraphTheorems {
  import opened Collections
  import opened Wrappers
  import opened MatchingSchema
  import opened WorkflowSchema
  import opened AgentSchema
  import opened Lifecycle
  import opened AgentGraph
  import opened GraphInvariants

  // ---- order over every run ----

  /** Over every run of operations, the checkpoint splits the worker order, and review waits for all of it. */
  lemma EveryRunSplitsTheOrder(cfg: GraphConfig, ops: seq<(Op, Timestamp)>)
    requires ValidConfig(cfg) && GuardedOrder(cfg.order)
    ensures RunOps(cfg, ops).thread.Some? ==>
              var s := RunOps(cfg, ops).thread.value;
              && s.completed + s.pending == cfg.order
              && s.current == (if s.pending != [] then s.pending[0] else Last(cfg.order))
              && Validates(s)
              && (s.status.WaitingForReview? ==> s.completed == cfg.order)
              && (s.status.WaitingForReview? ==> exists r :: r in s.receipts && r.payload.worker == Guardrails)
  {
    if RunOps(cfg, ops).thread.Some? {
      StateValidates(cfg, RunOps(cfg, ops).thread.value);
    }
  }

  /** The lifecycle row follows the checkpoint: it is terminal, and dated for deletion, only with it. */
  lemma LifecycleFollowsCheckpoint(cfg: GraphConfig, ops: seq<(Op, Timestamp)>)
    requires ValidConfig(cfg) && GuardedOrder(cfg.order)
    ensures RunOps(cfg, ops).thread.Some? ==>
              var m := RunOps(cfg, ops);
              && m.row.Some?
              && (m.thread.value.status.Running? || m.row.value.status == m.thread.value.status)
              && (m.row.value.status.Terminal() <==> m.row.value.deleteAfter.Some?)
  {
  }

  // ---- attempts ----

  lemma InvokeGrowsAttempts(cfg: GraphConfig, m: Memory, script: WorkerName -> Attempt, w: WorkerName)
    requires ValidConfig(cfg) && m.thread.Some? && StateOk(cfg, m.thread.value)
    ensures m.thread.value.AttemptsOf(w) <= InvokeFrom(cfg, m, script).0.thread.value.AttemptsOf(w)
    decreases |m.thread.value.pending|
  {
    var s := m.thread.value;
    StepAccounts(cfg, s, script(s.current));
    match RunWorker(cfg, s, script(s.current))
    case Escaped =>
    case Next(next, ran) =>
      RunWorkerKeepsState(cfg, s, script(s.current));
      if next.status.Running? {
        InvokeGrowsAttempts(cfg, m.(thread := Some(next), runs := if ran then Bump(m.runs, s.current) else m.runs),
          script, w);
      }
  }

  lemma RewindThread(cfg: GraphConfig, m: Memory, w: WorkerName, script: WorkerName -> Attempt, now: Timestamp)
    requires ValidConfig(cfg) && m.thread.Some? && StateOk(cfg, m.thread.value) && m.row.Some?
    requires RewindRefusal(cfg, m, w).None?
    ensures StateOk(cfg, Rewound(cfg, m, w, now).thread.value)
    ensures RewindOp(cfg, m, w, script, now).0.thread == InvokeFrom(cfg, Rewound(cfg, m, w, now), script).0.thread
  {
    RewindIsInvoke(cfg, m, w, script, now);
    InvokeKeepsThread(cfg, Rewound(cfg, m, w, now), script, now);
  }

  /** Settling the lifecycle row leaves the checkpoint alone. */
  lemma InvokeKeepsThread(cfg: GraphConfig, m: Memory, script: WorkerName -> Attempt, now: Timestamp)
    requires ValidConfig(cfg) && m.thread.Some? && StateOk(cfg, m.thread.value)
    ensures Invoke(cfg, m, script, now).0.thread == InvokeFrom(cfg, m, script).0.thread
  {
  }

  lemma ResumeGrowsAttempts(cfg: GraphConfig, m: Memory, script: WorkerName -> Attempt, now: Timestamp, w: WorkerName)
    requires ValidConfig(cfg) && m.thread.Some? && StateOk(cfg, m.thread.value)
    ensures ResumeOp(cfg, m, script, now).0.thread.Some?
    ensures m.thread.value.AttemptsOf(w) <= ResumeOp(cfg, m, script, now).0.thread.value.AttemptsOf(w)
  {
    InvokeGrowsAttempts(cfg, m.(thread := Some(ResumeState(m.thread.value))), script, w);
  }

  lemma RewindGrowsAttempts(
    cfg: GraphConfig, m: Memory, worker: WorkerName, script: WorkerName -> Attempt, now: Timestamp, w: WorkerName)
    requires ValidConfig(cfg) && m.thread.Some? && StateOk(cfg, m.thread.value) && m.row.Some?
    ensures RewindOp(cfg, m, worker, script, now).0.thread.Some?
    ensures m.thread.value.AttemptsOf(w) <= RewindOp(cfg, m, worker, script, now).0.thread.value.AttemptsOf(w)
  {
    if RewindRefusal(cfg, m, worker).None? {
      RewindThread(cfg, m, worker, script, now);
      InvokeGrowsAttempts(cfg, Rewound(cfg, m, worker, now), script, w);
    }
  }

  /** Attempts never decrease: no operation, rewinds included, resets them. */
  lemma AttemptsNeverDecrease(cfg: GraphConfig, m: Memory, op: Op, now: Timestamp, w: WorkerName)
    requires ValidConfig(cfg) && m.thread.Some? && StateOk(cfg, m.thread.value) && m.row.Some?
    ensures Perform(cfg, m, op, now).0.thread.Some?
    ensures m.thread.value.AttemptsOf(w) <= Perform(cfg, m, op, now).0.thread.value.AttemptsOf(w)
  {
    match op
    case Resume(script) => ResumeGrowsAttempts(cfg, m, script, now, w);
    case Rewind(worker, script) => RewindGrowsAttempts(cfg, m, worker, script, now, w);
    case _ =>
  }

  /**
   * Over the thread's whole life each worker's body is started exactly as often as
   * its recorded attempts within the limit, plus once per escaped validator error.
   */
  lemma BodyRunsAreAccounted(cfg: GraphConfig, ops: seq<(Op, Timestamp)>, w: WorkerName)
    requires ValidConfig(cfg) && GuardedOrder(cfg.order)
    ensures RunOps(cfg, ops).thread.Some? ==>
              var m := RunOps(cfg, ops);
              && CountOf(m.runs, w) == CountOf(m.escapes, w) + Started(cfg, m.thread.value, w)
              && (w != Last(cfg.order) ==> CountOf(m.escapes, w) == 0)
              && (AttemptLimit(cfg, w).Some? && CountOf(m.escapes, w) == 0 ==>
                   CountOf(m.runs, w) <= AttemptLimit(cfg, w).value)
  {
  }

  lemma RepeatEscapes(cfg: GraphConfig, m: Memory, script: WorkerName -> Attempt)
    requires ValidConfig(cfg) && m.thread.Some? && StateOk(cfg, m.thread.value) && m.thread.value.pending == []
    requires Passes(cfg, m.thread.value, m.thread.value.current, script)
    ensures InvokeFrom(cfg, m, script) ==
            (m.(runs := Bump(m.runs, m.thread.value.current), escapes := Bump(m.escapes, m.thread.value.current)), true)
  {
    var s := m.thread.value;
    var w, a := s.current, script(s.current);
    RepeatDoesNotValidate(cfg, s, AttemptEnding(cfg, w, a).result, s.attempts[w := s.AttemptsOf(w) + 1],
                          UsageOf(cfg, w, a));
  }

  /** An invocation escapes exactly when nothing is pending and the last worker, not exhausted, succeeds once more. */
  lemma {:induction false} InvokeEscapesExactly(cfg: GraphConfig, m: Memory, script: WorkerName -> Attempt)
    requires ValidConfig(cfg) && m.thread.Some? && StateOk(cfg, m.thread.value)
    ensures InvokeFrom(cfg, m, script).1 <==>
            m.thread.value.pending == [] && Passes(cfg, m.thread.value, m.thread.value.current, script)
    decreases |m.thread.value.pending|
  {
    var s := m.thread.value;
    var a := script(s.current);
    if s.pending == [] && Passes(cfg, s, s.current, script) {
      RepeatEscapes(cfg, m, script);
    } else {
      match RunWorker(cfg, s, a)
      case Escaped =>
        EscapeOnlyWhenDone(cfg, s, a);
      case Next(next, ran) =>
        RunWorkerKeepsState(cfg, s, a);
        if next.status.Running? {
          InvokeEscapesExactly(cfg, m.(thread := Some(next), runs := if ran then Bump(m.runs, s.current) else m.runs),
            script);
        }
    }
  }

  /** Worker w, as scripted, gets past its step. */
  predicate Passes(cfg: GraphConfig, s: ThreadState, w: WorkerName, script: WorkerName -> Attempt) {
    !Exhausted(cfg, s, w) && AttemptEnding(cfg, w, script(w)).Returns?
  }

  function Succeeds(w: WorkerName): Attempt {
    Attempt([], Returns(WorkerResult(w, 0, None, None, None, None, None, [])), TOOL_NOT_PERMITTED, 0.0)
  }

  /** The escape is not recorded as an attempt, so marking and resuming again starts the body past its limit. */
  lemma LimitCanBeOverrun(cfg: GraphConfig, m: Memory, now: Timestamp)
    requires ValidConfig(cfg) && m.thread.Some? && m.row.Some? && StateOk(cfg, m.thread.value)
    requires m.thread.value.pending == [] && !Exhausted(cfg, m.thread.value, m.thread.value.current)
    ensures var w := m.thread.value.current;
            var m1 := Perform(cfg, m, MarkRetryable("precedent_writeback_failed"), now).0;
            var (m2, answer) := Perform(cfg, m1, Resume(Succeeds), now);
            && answer == Err(ValidatorEscaped)
            && m2.thread.Some? && StateOk(cfg, m2.thread.value) && m2.row.Some?
            && m2.thread.value.pending == [] && m2.thread.value.current == w
            && m2.thread.value.attempts == m.thread.value.attempts
            && CountOf(m2.runs, w) == CountOf(m.runs, w) + 1
  {
    var s := m.thread.value;
    var m1 := Perform(cfg, m, MarkRetryable("precedent_writeback_failed"), now).0;
    var resumed := m1.(thread := Some(ResumeState(m1.thread.value)));
    assert StateOk(cfg, resumed.thread.value);
    RepeatEscapes(cfg, resumed, Succeeds);
  }

  // ---- reaching review ----

  lemma PassingStep(cfg: GraphConfig, s: ThreadState, script: WorkerName -> Attempt)
    requires ValidConfig(cfg) && StateOk(cfg, s) && s.pending != [] && Passes(cfg, s, s.current, script)
    ensures var r := RunWorker(cfg, s, script(s.current));
            && r.Next? && r.ran && StateOk(cfg, r.state) && r.state.pending == s.pending[1..]
            && r.state.status == (if r.state.pending != [] then Running else WaitingForReview)
            && forall v :: v in s.pending[1..] ==> Passes(cfg, r.state, v, script) == Passes(cfg, s, v, script)
  {
    var r := RunWorker(cfg, s, script(s.current));
    StepAccounts(cfg, s, script(s.current));
    if r.Escaped? {
      EscapeOnlyWhenDone(cfg, s, script(s.current));
    }
    RunWorkerKeepsState(cfg, s, script(s.current));
    SuccessMovesOne(cfg, s);
    PendingAreDistinct(cfg, s);
  }

  lemma FailingStep(cfg: GraphConfig, s: ThreadState, script: WorkerName -> Attempt)
    requires !Passes(cfg, s, s.current, script)
    ensures var r := RunWorker(cfg, s, script(s.current));
            r.Next? && !r.state.status.Running? && !r.state.status.WaitingForReview?
  {
  }

  /** An invocation reaches review exactly when every pending worker has an attempt left and succeeds. */
  lemma {:induction false} ReviewReachedExactly(cfg: GraphConfig, m: Memory, script: WorkerName -> Attempt)
    requires ValidConfig(cfg) && m.thread.Some? && StateOk(cfg, m.thread.value) && m.thread.value.pending != []
    ensures InvokeFrom(cfg, m, script).0.thread.value.status.WaitingForReview?
       <==> forall w :: w in m.thread.value.pending ==> Passes(cfg, m.thread.value, w, script)
    decreases |m.thread.value.pending|
  {
    var s := m.thread.value;
    var w := s.current;
    assert forall v :: v in s.pending <==> v == w || v in s.pending[1..];
    if Passes(cfg, s, w, script) {
      PassingStep(cfg, s, script);
      var next := RunWorker(cfg, s, script(w)).state;
      if next.pending != [] {
        ReviewReachedExactly(cfg, m.(thread := Some(next), runs := Bump(m.runs, w)), script);
      }
    } else {
      FailingStep(cfg, s, script);
    }
  }

  lemma PendingAreDistinct(cfg: GraphConfig, s: ThreadState)
    requires ValidConfig(cfg) && StateOk(cfg, s) && s.pending != []
    ensures s.current !in s.pending[1..]
  {
    var k := |s.completed|;
    forall i | 1 <= i < |s.pending|
      ensures s.pending[i] != s.current
    {
      assert s.pending[i] == cfg.order[k + i] && s.current == cfg.order[k];
      assert Differ(cfg.order, k, k + i);
    }
  }

  /** A rewind reaches review exactly when every restarted worker passes. */
  lemma RewindReachesReview(cfg: GraphConfig, m: Memory, w: WorkerName, script: WorkerName -> Attempt, now: Timestamp)
    requires ValidConfig(cfg) && m.thread.Some? && StateOk(cfg, m.thread.value) && m.row.Some?
    requires RewindRefusal(cfg, m, w).None?
    ensures RewindOp(cfg, m, w, script, now).0.thread.Some?
    ensures RewindOp(cfg, m, w, script, now).0.thread.value.status.WaitingForReview?
       <==> forall v :: v in cfg.order[IndexOf(cfg.order, w)..] ==> Passes(cfg, m.thread.value, v, script)
  {
    RewindThread(cfg, m, w, script, now);
    RewoundPending(cfg, m, w, now, script);
    ReviewReachedExactly(cfg, Rewound(cfg, m, w, now), script);
  }

  lemma RewoundPending(cfg: GraphConfig, m: Memory, w: WorkerName, now: Timestamp, script: WorkerName -> Attempt)
    requires m.thread.Some? && w in cfg.order
    ensures IndexOf(cfg.order, w) < |cfg.order|
    ensures Rewound(cfg, m, w, now).thread.value.pending == cfg.order[IndexOf(cfg.order, w)..] != []
    ensures forall v ::
              Passes(cfg, Rewound(cfg, m, w, now).thread.value, v, script) == Passes(cfg, m.thread.value, v, script)
  {
    IndexOfMember(cfg.order, w);
  }

  lemma SucceedsPasses(cfg: GraphConfig, s: ThreadState, v: WorkerName)
    ensures Passes(cfg, s, v, Succeeds) <==> !Exhausted(cfg, s, v)
  {
  }

  /** No worker restarted by a rewind to w has used up its attempts. */
  predicate AttemptsLeft(cfg: GraphConfig, s: ThreadState, w: WorkerName) {
    forall v :: v in cfg.order[IndexOf(cfg.order, w)..] ==> !Exhausted(cfg, s, v)
  }

  lemma ReviewNeedsAttempts(cfg: GraphConfig, m: Memory, w: WorkerName, script: WorkerName -> Attempt, now: Timestamp)
    requires ValidConfig(cfg) && m.thread.Some? && StateOk(cfg, m.thread.value) && m.row.Some?
    requires RewindRefusal(cfg, m, w).None?
    ensures ReachesReview(cfg, m, w, script, now) ==> AttemptsLeft(cfg, m.thread.value, w)
  {
    RewindReachesReview(cfg, m, w, script, now);
    assert forall v :: Passes(cfg, m.thread.value, v, script) ==> !Exhausted(cfg, m.thread.value, v);
  }

  lemma AttemptsSuffice(cfg: GraphConfig, m: Memory, w: WorkerName, now: Timestamp)
    requires ValidConfig(cfg) && m.thread.Some? && StateOk(cfg, m.thread.value) && m.row.Some?
    requires RewindRefusal(cfg, m, w).None? && AttemptsLeft(cfg, m.thread.value, w)
    ensures ReachesReview(cfg, m, w, Succeeds, now)
  {
    forall v | v in cfg.order[IndexOf(cfg.order, w)..]
      ensures Passes(cfg, m.thread.value, v, Succeeds)
    {
      SucceedsPasses(cfg, m.thread.value, v);
    }
    RewindReachesReview(cfg, m, w, Succeeds, now);
  }

  /**
   * A rewind can lead back to review exactly when no restarted worker is exhausted:
   * no worker behaviour gets there otherwise, and plain success does when it is so.
   */
  lemma RewindCanReachReviewExactly(
    cfg: GraphConfig, m: Memory, w: WorkerName, script: WorkerName -> Attempt, now: Timestamp)
    requires ValidConfig(cfg) && m.thread.Some? && StateOk(cfg, m.thread.value) && m.row.Some?
    requires RewindRefusal(cfg, m, w).None?
    ensures ReachesReview(cfg, m, w, script, now) ==> AttemptsLeft(cfg, m.thread.value, w)
    ensures AttemptsLeft(cfg, m.thread.value, w) ==> ReachesReview(cfg, m, w, Succeeds, now)
  {
    ReviewNeedsAttempts(cfg, m, w, script, now);
    if AttemptsLeft(cfg, m.thread.value, w) {
      AttemptsSuffice(cfg, m, w, now);
    }
  }

  predicate ReachesReview(cfg: GraphConfig, m: Memory, w: WorkerName, script: WorkerName -> Attempt, now: Timestamp)
    requires ValidConfig(cfg) && (m.thread.Some? ==> StateOk(cfg, m.thread.value))
  {
    var m' := RewindOp(cfg, m, w, script, now).0;
    m'.thread.Some? && m'.thread.value.status.WaitingForReview?
  }

  // ---- receipts of the current pass ----

  predicate ReceiptsExact(s: ThreadState) {
    ReceiptWorkers(s.receipts) == s.completed
  }

  lemma {:induction false} KeepReceiptsOfPrefix(receipts: seq<WorkerReceipt>, kept: seq<WorkerName>, n: nat)
    requires n <= |receipts|
    requires forall i :: 0 <= i < |receipts| ==> (receipts[i].payload.worker in kept <==> i < n)
    ensures KeepReceipts(receipts, kept) == receipts[..n]
  {
    if receipts != [] {
      forall i | 0 <= i < |receipts[1..]|
        ensures receipts[1..][i].payload.worker in kept <==> i < (if n == 0 then 0 else n - 1)
      {
        assert receipts[1..][i] == receipts[i + 1];
      }
      KeepReceiptsOfPrefix(receipts[1..], kept, if n == 0 then 0 else n - 1);
      if n > 0 {
        assert receipts[..n] == [receipts[0]] + receipts[1..][..n - 1];
      }
    }
  }

  /** After a rewind the receipts name exactly the completed workers if and only if no worker was skipped forward. */
  lemma RewindKeepsReceiptsExactly(cfg: GraphConfig, s: ThreadState, index: nat)
    requires ValidConfig(cfg) && StateOk(cfg, s) && ReceiptsExact(s) && index < |cfg.order|
    ensures ReceiptsExact(RewindState(cfg, s, index)) <==> index <= |s.completed|
    ensures index <= |s.completed| ==> RewindState(cfg, s, index).receipts == s.receipts[..index]
  {
    var n := if index <= |s.completed| then index else |s.completed|;
    DistinctPrefix(cfg.order, index);
    forall i | 0 <= i < |s.receipts|
      ensures s.receipts[i].payload.worker in cfg.order[..index] <==> i < n
    {
      assert s.receipts[i].payload.worker == ReceiptWorkers(s.receipts)[i] == cfg.order[i];
    }
    KeepReceiptsOfPrefix(s.receipts, cfg.order[..index], n);
  }

  lemma StepKeepsReceiptsExact(cfg: GraphConfig, s: ThreadState, a: Attempt)
    requires ReceiptsExact(s) && RunWorker(cfg, s, a).Next?
    ensures ReceiptsExact(RunWorker(cfg, s, a).state)
  {
    var s' := RunWorker(cfg, s, a).state;
    if s'.completed != s.completed {
      assert ReceiptWorkers(s'.receipts) == ReceiptWorkers(s.receipts) + [s.current];
    }
  }

  lemma InvokeKeepsReceiptsExact(cfg: GraphConfig, m: Memory, script: WorkerName -> Attempt)
    requires ValidConfig(cfg) && m.thread.Some? && StateOk(cfg, m.thread.value) && ReceiptsExact(m.thread.value)
    ensures ReceiptsExact(InvokeFrom(cfg, m, script).0.thread.value)
    decreases |m.thread.value.pending|
  {
    var s := m.thread.value;
    match RunWorker(cfg, s, script(s.current))
    case Escaped =>
    case Next(next, ran) =>
      RunWorkerKeepsState(cfg, s, script(s.current));
      StepKeepsReceiptsExact(cfg, s, script(s.current));
      if next.status.Running? {
        InvokeKeepsReceiptsExact(cfg,
          m.(thread := Some(next), runs := if ran then Bump(m.runs, s.current) else m.runs), script);
      }
  }

  /** The rewind, if any, restarts a completed worker or the current one. */
  predicate SkipsNothing(cfg: GraphConfig, m: Memory, op: Op) {
    op.Rewind? && RewindRefusal(cfg, m, op.worker).None? ==> IndexOf(cfg.order, op.worker) <= |m.thread.value.completed|
  }

  lemma RewindOpKeepsReceiptsExact(
    cfg: GraphConfig, m: Memory, w: WorkerName, script: WorkerName -> Attempt, now: Timestamp)
    requires ValidConfig(cfg) && m.thread.Some? && StateOk(cfg, m.thread.value) && ReceiptsExact(m.thread.value)
    requires m.row.Some?
    requires RewindRefusal(cfg, m, w).None? && IndexOf(cfg.order, w) <= |m.thread.value.completed|
    ensures RewindOp(cfg, m, w, script, now).0.thread.Some?
    ensures ReceiptsExact(RewindOp(cfg, m, w, script, now).0.thread.value)
  {
    IndexOfMember(cfg.order, w);
    RewindThread(cfg, m, w, script, now);
    RewindKeepsReceiptsExactly(cfg, m.thread.value, IndexOf(cfg.order, w));
    InvokeKeepsReceiptsExact(cfg, Rewound(cfg, m, w, now), script);
  }

  lemma StartKeepsReceiptsExact(cfg: GraphConfig, m: Memory, app: AppId, script: WorkerName -> Attempt, now: Timestamp)
    requires ValidConfig(cfg) && m.thread.None?
    ensures StartOp(cfg, m, app, script, now).0.thread.Some?
    ensures ReceiptsExact(StartOp(cfg, m, app, script, now).0.thread.value)
  {
    InitialStateOk(cfg, app);
    InitialReceiptsExact(cfg, app);
    InvokeOpKeepsReceiptsExact(cfg, StartThread(cfg, m, app, now), script, now);
  }

  lemma InvokeOpKeepsReceiptsExact(cfg: GraphConfig, m: Memory, script: WorkerName -> Attempt, now: Timestamp)
    requires ValidConfig(cfg) && m.thread.Some? && StateOk(cfg, m.thread.value) && ReceiptsExact(m.thread.value)
    ensures Invoke(cfg, m, script, now).0.thread.Some?
    ensures ReceiptsExact(Invoke(cfg, m, script, now).0.thread.value)
  {
    InvokeKeepsReceiptsExact(cfg, m, script);
    InvokeKeepsThread(cfg, m, script, now);
  }

  lemma InitialReceiptsExact(cfg: GraphConfig, app: AppId)
    requires cfg.order != []
    ensures ReceiptsExact(InitialState(app, cfg.order))
  {
  }

  lemma ResumeKeepsReceiptsExact(cfg: GraphConfig, m: Memory, script: WorkerName -> Attempt, now: Timestamp)
    requires ValidConfig(cfg) && m.thread.Some? && StateOk(cfg, m.thread.value) && ReceiptsExact(m.thread.value)
    ensures ResumeOp(cfg, m, script, now).0.thread.Some?
    ensures ReceiptsExact(ResumeOp(cfg, m, script, now).0.thread.value)
  {
    InvokeOpKeepsReceiptsExact(cfg, m.(thread := Some(ResumeState(m.thread.value))), script, now);
  }

  lemma PerformKeepsReceiptsExact(cfg: GraphConfig, m: Memory, op: Op, now: Timestamp)
    requires ValidConfig(cfg)
    requires (m.thread.Some? ==> StateOk(cfg, m.thread.value) && ReceiptsExact(m.thread.value) && m.row.Some?)
    requires SkipsNothing(cfg, m, op)
    ensures Perform(cfg, m, op, now).0.thread.Some? ==> ReceiptsExact(Perform(cfg, m, op, now).0.thread.value)
  {
    match op
    case Start(app, script) =>
      if m.thread.None? {
        StartKeepsReceiptsExact(cfg, m, app, script, now);
      }
    case Resume(script) =>
      if m.thread.Some? {
        ResumeKeepsReceiptsExact(cfg, m, script, now);
      }
    case Rewind(w, script) =>
      if RewindRefusal(cfg, m, w).None? {
        RewindOpKeepsReceiptsExact(cfg, m, w, script, now);
      }
    case _ =>
  }

  /**
   * Over every run whose rewinds skip nothing, the receipts name exactly the completed
   * workers in order, so eligibility and guardrails both precede review in the current pass.
   */
  lemma {:induction false} ReceiptsNameThePass(cfg: GraphConfig, ops: seq<(Op, Timestamp)>)
    requires ValidConfig(cfg) && GuardedOrder(cfg.order)
    requires forall i :: 0 <= i < |ops| ==> SkipsNothing(cfg, RunOps(cfg, ops[..i]), ops[i].0)
    ensures RunOps(cfg, ops).thread.Some? ==> ReceiptsExact(RunOps(cfg, ops).thread.value)
  {
    if ops != [] {
      var n := |ops| - 1;
      forall i | 0 <= i < n
        ensures SkipsNothing(cfg, RunOps(cfg, ops[..n][..i]), ops[..n][i].0)
      {
        assert ops[..n][..i] == ops[..i];
      }
      ReceiptsNameThePass(cfg, ops[..n]);
      assert SkipsNothing(cfg, RunOps(cfg, ops[..n]), ops[n].0);
      PerformKeepsReceiptsExact(cfg, RunOps(cfg, ops[..n]), ops[n].0, ops[n].1);
    }
  }

  // ---- terminal threads ----

  /** A terminal thread is left alone by start, resume and rewind. */
  lemma TerminalAbsorbs(cfg: GraphConfig, m: Memory, op: Op, now: Timestamp)
    requires ValidConfig(cfg) && m.thread.Some? && StateOk(cfg, m.thread.value) && m.thread.value.status.Terminal()
    requires op.Start? || op.Resume? || op.Rewind?
    ensures Perform(cfg, m, op, now).0 == m
  {
  }

  /**
   * Cancelling ends a thread for good: it is terminal and dated for deletion afterwards,
   * cancelled exactly if it was not terminal before, and no start, resume, rewind or
   * second cancel changes it any more.
   */
  lemma CancelIsFinal(cfg: GraphConfig, m: Memory, op: Op, now: Timestamp, later: Timestamp)
    requires ValidConfig(cfg) && m.thread.Some? && StateOk(cfg, m.thread.value) && MemoryInv(cfg, m)
    requires op.Start? || op.Resume? || op.Rewind?
    ensures var (m', answer) := CancelOp(cfg, m, now);
            && answer.Ok? && m'.thread.Some? && StateOk(cfg, m'.thread.value) && m'.row.Some?
            && m'.thread.value.status == (if m.thread.value.status.Terminal() then m.thread.value.status else Cancelled)
            && m'.row.value.status == m'.thread.value.status && m'.row.value.deleteAfter.Some?
            && Perform(cfg, m', op, later).0 == m'
            && CancelOp(cfg, m', later).0 == m'
  {
    var m' := CancelOp(cfg, m, now).0;
    MarkKeepsInv(cfg, m, MarkTerminal(Cancelled), now);
    TerminalAbsorbs(cfg, m', op, later);
  }
}
