/**
 * What the history of a thread decides: how often bodies are started, which workers a
 * rewind skipped, and when a send-back is final.
 */
module GraphHistory {
  import opened Collections
  import opened Wrappers
  import opened MatchingSchema
  import opened WorkflowSchema
  import opened AgentSchema
  import opened Lifecycle
  import opened AgentGraph
  import opened GraphInvariants
  import opened GraphTheorems

  type Ops = seq<(Op, Timestamp)>

  lemma RunNext(cfg: GraphConfig, ops: Ops, op: Op, now: Timestamp)
    requires ValidConfig(cfg) && GuardedOrder(cfg.order)
    ensures RunOps(cfg, ops + [(op, now)]) == Perform(cfg, RunOps(cfg, ops), op, now).0
  {
    assert (ops + [(op, now)])[..|ops|] == ops;
  }

  // ---- the last worker has run ----

  /** Nothing is pending only after the last worker ran: no rewind can skip it. */
  predicate LastRan(cfg: GraphConfig, s: ThreadState)
    requires cfg.order != []
  {
    s.pending == [] ==> s.AttemptsOf(Last(cfg.order)) >= 1
  }

  lemma StepKeepsLastRan(cfg: GraphConfig, s: ThreadState, a: Attempt)
    requires ValidConfig(cfg) && StateOk(cfg, s) && LastRan(cfg, s) && RunWorker(cfg, s, a).Next?
    ensures LastRan(cfg, RunWorker(cfg, s, a).state)
  {
    StepAccounts(cfg, s, a);
    RunWorkerKeepsState(cfg, s, a);
    var s' := RunWorker(cfg, s, a).state;
    if s'.pending == [] && s.pending != [] {
      assert s.completed + s.pending == cfg.order && s'.completed == cfg.order;
      assert s'.completed == s.completed + [s.current];
    }
  }

  lemma {:induction false} InvokeKeepsLastRan(cfg: GraphConfig, m: Memory, script: WorkerName -> Attempt)
    requires ValidConfig(cfg) && m.thread.Some? && StateOk(cfg, m.thread.value) && LastRan(cfg, m.thread.value)
    ensures LastRan(cfg, InvokeFrom(cfg, m, script).0.thread.value)
    decreases |m.thread.value.pending|
  {
    var s := m.thread.value;
    var r := RunWorker(cfg, s, script(s.current));
    if r.Next? {
      RunWorkerKeepsState(cfg, s, script(s.current));
      StepKeepsLastRan(cfg, s, script(s.current));
      if r.state.status.Running? {
        InvokeKeepsLastRan(cfg, AfterStep(m, r), script);
      }
    }
  }

  /** An operation that invokes the graph does so from the checkpoint it prepares. */
  function Prepared(cfg: GraphConfig, m: Memory, op: Op, now: Timestamp): Option<Memory>
    requires ValidConfig(cfg)
  {
    match op
    case Start(app, _) => if m.thread.Some? then None else Some(StartThread(cfg, m, app, now))
    case Resume(_) =>
      if m.thread.None? || !CanResume(m.thread.value) then None
      else if m.thread.value.status.FailedRetryable? && Exhausted(cfg, m.thread.value, m.thread.value.current) then None
      else Some(m.(thread := Some(ResumeState(m.thread.value))))
    case Rewind(w, _) => if RewindRefusal(cfg, m, w).Some? || m.row.None? then None else Some(Rewound(cfg, m, w, now))
    case _ => None
  }

  function ScriptOf(op: Op): WorkerName -> Attempt
    requires op.Start? || op.Resume? || op.Rewind?
  {
    op.script
  }

  /** after is what invoking the graph from before leaves, up to the lifecycle row. */
  predicate Invoked(cfg: GraphConfig, before: Memory, script: WorkerName -> Attempt, after: Memory)
    requires ValidConfig(cfg)
  {
    && before.thread.Some? && StateOk(cfg, before.thread.value)
    && var r := InvokeFrom(cfg, before, script).0;
       after.thread == r.thread && after.runs == r.runs && after.escapes == r.escapes
  }

  /** An operation that does not invoke the graph leaves progress, attempts and receipts alone. */
  predicate Untouched(m: Memory, after: Memory) {
    && (after.thread.Some? <==> m.thread.Some?) && after.runs == m.runs && after.escapes == m.escapes
    && (m.thread.Some? ==>
          && after.thread.value.attempts == m.thread.value.attempts
          && after.thread.value.pending == m.thread.value.pending
          && after.thread.value.completed == m.thread.value.completed
          && after.thread.value.receipts == m.thread.value.receipts)
  }

  lemma InvokeIs(cfg: GraphConfig, m: Memory, script: WorkerName -> Attempt, now: Timestamp)
    requires ValidConfig(cfg) && m.thread.Some? && StateOk(cfg, m.thread.value)
    ensures Invoked(cfg, m, script, Invoke(cfg, m, script, now).0)
  {
  }

  lemma StartIs(cfg: GraphConfig, m: Memory, app: AppId, script: WorkerName -> Attempt, now: Timestamp)
    requires ValidConfig(cfg) && m.thread.None?
    ensures Invoked(cfg, StartThread(cfg, m, app, now), script, StartOp(cfg, m, app, script, now).0)
  {
    var m' := StartThread(cfg, m, app, now);
    InitialStateOk(cfg, app);
    InvokeIs(cfg, m', script, now);
  }

  lemma ResumeIs(cfg: GraphConfig, m: Memory, script: WorkerName -> Attempt, now: Timestamp)
    requires ValidConfig(cfg) && (m.thread.Some? ==> StateOk(cfg, m.thread.value))
    ensures var before, after := Prepared(cfg, m, Resume(script), now), ResumeOp(cfg, m, script, now).0;
            if before.Some? then Invoked(cfg, before.value, script, after) else Untouched(m, after)
  {
    if m.thread.Some? {
      InvokeIs(cfg, m.(thread := Some(ResumeState(m.thread.value))), script, now);
    }
  }

  lemma RewindIs(cfg: GraphConfig, m: Memory, w: WorkerName, script: WorkerName -> Attempt, now: Timestamp)
    requires ValidConfig(cfg) && (m.thread.Some? ==> StateOk(cfg, m.thread.value) && m.row.Some?)
    ensures var before, after := Prepared(cfg, m, Rewind(w, script), now), RewindOp(cfg, m, w, script, now).0;
            if before.Some? then Invoked(cfg, before.value, script, after) else Untouched(m, after)
  {
    if RewindRefusal(cfg, m, w).None? {
      RewindIsInvoke(cfg, m, w, script, now);
      InvokeIs(cfg, Rewound(cfg, m, w, now), script, now);
    } else {
      RewindIsRefused(cfg, m, w, script, now);
    }
  }

  /** Every operation invokes the graph from a prepared checkpoint, or keeps attempts, order and receipts. */
  lemma PerformIs(cfg: GraphConfig, m: Memory, op: Op, now: Timestamp)
    requires ValidConfig(cfg) && (m.thread.Some? ==> StateOk(cfg, m.thread.value) && m.row.Some?)
    ensures var before, after := Prepared(cfg, m, op, now), Perform(cfg, m, op, now).0;
            if before.Some? then (op.Start? || op.Resume? || op.Rewind?)
              && Invoked(cfg, before.value, ScriptOf(op), after)
            else Untouched(m, after)
  {
    match op
    case Start(app, script) =>
      if m.thread.None? {
        StartIs(cfg, m, app, script, now);
      }
    case Resume(script) => ResumeIs(cfg, m, script, now);
    case Rewind(w, script) => RewindIs(cfg, m, w, script, now);
    case _ =>
  }

  lemma PreparedIsPending(cfg: GraphConfig, m: Memory, op: Op, now: Timestamp)
    requires ValidConfig(cfg) && MemoryInv(cfg, m) && Prepared(cfg, m, op, now).Some?
    ensures var before := Prepared(cfg, m, op, now).value;
            && before.thread.Some?
            && (before.thread.value.pending == [] ==> op.Resume? && m.thread.Some? && m.thread.value.pending == [])
            && (m.thread.Some? ==> before.thread.value.attempts == m.thread.value.attempts)
  {
    if op.Rewind? {
      IndexOfMember(cfg.order, op.worker);
    }
  }

  lemma PerformKeepsLastRan(cfg: GraphConfig, m: Memory, op: Op, now: Timestamp)
    requires ValidConfig(cfg) && MemoryInv(cfg, m) && (m.thread.Some? ==> LastRan(cfg, m.thread.value))
    ensures var m' := Perform(cfg, m, op, now).0; m'.thread.Some? ==> LastRan(cfg, m'.thread.value)
  {
    PerformIs(cfg, m, op, now);
    var before := Prepared(cfg, m, op, now);
    if before.Some? {
      PreparedIsPending(cfg, m, op, now);
      InvokeKeepsLastRan(cfg, before.value, ScriptOf(op));
    }
  }

  lemma {:induction false} LastRanOverRun(cfg: GraphConfig, ops: Ops)
    requires ValidConfig(cfg) && GuardedOrder(cfg.order)
    ensures RunOps(cfg, ops).thread.Some? ==> LastRan(cfg, RunOps(cfg, ops).thread.value)
  {
    if ops != [] {
      var n := |ops| - 1;
      LastRanOverRun(cfg, ops[..n]);
      PerformKeepsLastRan(cfg, RunOps(cfg, ops[..n]), ops[n].0, ops[n].1);
    }
  }

  // ---- send-backs under a single attempt ----

  /** How far a worker has got with its attempts; nought before the thread is started. */
  function AttemptsIn(m: Memory, w: WorkerName): nat {
    if m.thread.Some? then 1 + m.thread.value.AttemptsOf(w) else 0
  }

  lemma AttemptsGrow(cfg: GraphConfig, m: Memory, op: Op, now: Timestamp, w: WorkerName)
    requires ValidConfig(cfg) && MemoryInv(cfg, m)
    ensures AttemptsIn(m, w) <= AttemptsIn(Perform(cfg, m, op, now).0, w)
  {
    if m.thread.Some? {
      AttemptsNeverDecrease(cfg, m, op, now, w);
    }
  }

  lemma {:induction false} AttemptsOverRun(cfg: GraphConfig, ops: Ops, n: nat, w: WorkerName)
    requires ValidConfig(cfg) && GuardedOrder(cfg.order) && n <= |ops|
    ensures AttemptsIn(RunOps(cfg, ops[..n]), w) <= AttemptsIn(RunOps(cfg, ops), w)
    decreases |ops|
  {
    if n == |ops| {
      assert ops[..n] == ops;
    } else {
      var earlier, last := ops[..|ops| - 1], ops[|ops| - 1];
      AttemptsOverRun(cfg, earlier, n, w);
      assert earlier[..n] == ops[..n] && earlier + [last] == ops;
      AttemptsOneMore(cfg, earlier, last, w);
    }
  }

  lemma AttemptsOneMore(cfg: GraphConfig, ops: Ops, x: (Op, Timestamp), w: WorkerName)
    requires ValidConfig(cfg) && GuardedOrder(cfg.order)
    ensures AttemptsIn(RunOps(cfg, ops), w) <= AttemptsIn(RunOps(cfg, ops + [x]), w)
  {
    RunNext(cfg, ops, x.0, x.1);
    AttemptsGrow(cfg, RunOps(cfg, ops), x.0, x.1, w);
  }

  predicate InReview(m: Memory) {
    m.thread.Some? && m.thread.value.status.WaitingForReview?
  }

  /**
   * Attempts survive a rewind, so under a policy that gives the last worker a single
   * attempt a thread that was ever in review is never led back there: whatever happens
   * in between, no rewind reaches review however the workers behave.
   */
  lemma SingleAttemptMakesSendBackFinal(
    cfg: GraphConfig, ops: Ops, n: nat, w: WorkerName, script: WorkerName -> Attempt, now: Timestamp)
    requires ValidConfig(cfg) && GuardedOrder(cfg.order) && n <= |ops| && InReview(RunOps(cfg, ops[..n]))
    requires AttemptLimit(cfg, Last(cfg.order)) == Some(1)
    requires RewindRefusal(cfg, RunOps(cfg, ops), w).None?
    ensures !ReachesReview(cfg, RunOps(cfg, ops), w, script, now)
  {
    var last, m := Last(cfg.order), RunOps(cfg, ops);
    LastRanOverRun(cfg, ops[..n]);
    AttemptsOverRun(cfg, ops, n, last);
    assert m.thread.Some? && Exhausted(cfg, m.thread.value, last);
    LastIsRestarted(cfg, w);
    ReviewNeedsAttempts(cfg, m, w, script, now);
  }

  lemma LastIsRestarted(cfg: GraphConfig, w: WorkerName)
    requires ValidConfig(cfg) && w in cfg.order
    ensures Last(cfg.order) in cfg.order[IndexOf(cfg.order, w)..]
  {
    IndexOfMember(cfg.order, w);
    var restarted := cfg.order[IndexOf(cfg.order, w)..];
    assert restarted[|restarted| - 1] == Last(cfg.order);
  }

  // ---- body runs and attempt limits ----

  /** A resume of a thread that has nothing pending. */
  predicate IdleResume(m: Memory, op: Op) {
    op.Resume? && m.thread.Some? && m.thread.value.pending == []
  }

  lemma {:induction false} InvokeKeepsEscapes(cfg: GraphConfig, m: Memory, script: WorkerName -> Attempt)
    requires ValidConfig(cfg) && m.thread.Some? && StateOk(cfg, m.thread.value)
    ensures InvokeFrom(cfg, m, script).0.escapes
         == if InvokeFrom(cfg, m, script).1 then Bump(m.escapes, Last(cfg.order)) else m.escapes
    decreases |m.thread.value.pending|
  {
    var s := m.thread.value;
    var r := RunWorker(cfg, s, script(s.current));
    if r.Escaped? {
      EscapeOnlyWhenDone(cfg, s, script(s.current));
    } else {
      RunWorkerKeepsState(cfg, s, script(s.current));
      if r.state.status.Running? {
        InvokeKeepsEscapes(cfg, AfterStep(m, r), script);
      }
    }
  }

  /** An escape needs a resume of a thread with nothing pending and an attempt of the last worker left. */
  lemma EscapeStep(cfg: GraphConfig, m: Memory, op: Op, now: Timestamp)
    requires ValidConfig(cfg) && MemoryInv(cfg, m)
    ensures var (m', answer) := Perform(cfg, m, op, now);
            && m'.escapes == (if answer == Err(ValidatorEscaped) then Bump(m.escapes, Last(cfg.order)) else m.escapes)
            && (answer == Err(ValidatorEscaped) ==>
                 IdleResume(m, op) && !Exhausted(cfg, m.thread.value, Last(cfg.order)))
  {
    PerformIs(cfg, m, op, now);
    var before := Prepared(cfg, m, op, now);
    if before.Some? {
      PreparedIsPending(cfg, m, op, now);
      InvokeKeepsEscapes(cfg, before.value, ScriptOf(op));
      InvokeEscapesExactly(cfg, before.value, ScriptOf(op));
      EscapeAnswer(cfg, m, op, now);
    } else {
      NoEscapeAnswer(cfg, m, op, now);
    }
  }

  lemma EscapeAnswer(cfg: GraphConfig, m: Memory, op: Op, now: Timestamp)
    requires ValidConfig(cfg) && MemoryInv(cfg, m) && Prepared(cfg, m, op, now).Some?
    requires var before := Prepared(cfg, m, op, now).value; before.thread.Some? && StateOk(cfg, before.thread.value)
    requires op.Start? || op.Resume? || op.Rewind?
    ensures Perform(cfg, m, op, now).1 == Err(ValidatorEscaped)
        <==> InvokeFrom(cfg, Prepared(cfg, m, op, now).value, ScriptOf(op)).1
  {
  }

  lemma NoEscapeAnswer(cfg: GraphConfig, m: Memory, op: Op, now: Timestamp)
    requires ValidConfig(cfg) && MemoryInv(cfg, m) && Prepared(cfg, m, op, now).None?
    ensures Perform(cfg, m, op, now).1 != Err(ValidatorEscaped)
  {
  }

  /** How many operations of a run ended in the escaped validator error. */
  ghost function EscapedOps(cfg: GraphConfig, ops: Ops): nat
    requires ValidConfig(cfg) && GuardedOrder(cfg.order)
  {
    if ops == [] then 0
    else
      var m, last := RunOps(cfg, ops[..|ops| - 1]), ops[|ops| - 1];
      EscapedOps(cfg, ops[..|ops| - 1]) + if Perform(cfg, m, last.0, last.1).1 == Err(ValidatorEscaped) then 1 else 0
  }

  /** The escapes the accounts speak of are the operations whose caller got the validator's error. */
  lemma {:induction false} EscapesAreAnswered(cfg: GraphConfig, ops: Ops)
    requires ValidConfig(cfg) && GuardedOrder(cfg.order)
    ensures CountOf(RunOps(cfg, ops).escapes, Last(cfg.order)) == EscapedOps(cfg, ops)
  {
    if ops != [] {
      var n := |ops| - 1;
      EscapesAreAnswered(cfg, ops[..n]);
      EscapeStep(cfg, RunOps(cfg, ops[..n]), ops[n].0, ops[n].1);
    }
  }

  /** No operation of the run resumes a thread that has nothing pending. */
  ghost predicate NoIdleResume(cfg: GraphConfig, ops: Ops)
    requires ValidConfig(cfg) && GuardedOrder(cfg.order)
  {
    forall i :: 0 <= i < |ops| ==> !IdleResume(RunOps(cfg, ops[..i]), ops[i].0)
  }

  lemma {:induction false} NoEscapes(cfg: GraphConfig, ops: Ops)
    requires ValidConfig(cfg) && GuardedOrder(cfg.order)
    requires NoIdleResume(cfg, ops)
        || (AttemptLimit(cfg, Last(cfg.order)).Some? && AttemptLimit(cfg, Last(cfg.order)).value <= 1)
    ensures RunOps(cfg, ops).escapes == map[]
  {
    if ops != [] {
      var n := |ops| - 1;
      var m := RunOps(cfg, ops[..n]);
      assert forall i :: 0 <= i < n ==> ops[..n][..i] == ops[..i];
      NoEscapes(cfg, ops[..n]);
      LastRanOverRun(cfg, ops[..n]);
      EscapeStep(cfg, m, ops[n].0, ops[n].1);
      if Perform(cfg, m, ops[n].0, ops[n].1).1 == Err(ValidatorEscaped) {
        assert false;
      }
    }
  }

  /** Over every run that never resumes a thread with nothing pending, no body is started more often than its limit. */
  lemma RunsStayWithinLimit(cfg: GraphConfig, ops: Ops, w: WorkerName)
    requires ValidConfig(cfg) && GuardedOrder(cfg.order) && NoIdleResume(cfg, ops) && AttemptLimit(cfg, w).Some?
    ensures CountOf(RunOps(cfg, ops).runs, w) <= AttemptLimit(cfg, w).value
  {
    NoEscapes(cfg, ops);
    BodyRunsAreAccounted(cfg, ops, w);
  }

  // ---- overrunning the limit ----

  /** The smallest limit the policy schema allows is one attempt. */
  predicate PositiveLimits(cfg: GraphConfig) {
    forall w :: w in cfg.policies ==> cfg.policies[w].maxAttempts >= 1
  }

  /** One start, and then so many marks and resumes. */
  function Overrun(app: AppId, n: nat): (ops: Ops)
    ensures |ops| == 1 + 2 * n
  {
    if n == 0 then [(Start(app, Succeeds), 0)]
    else Overrun(app, n - 1) + [(MarkRetryable("precedent_writeback_failed"), 0)] + [(Resume(Succeeds), 0)]
  }

  /** A finished pass without failures: every worker has one attempt, and the last body was started k times. */
  ghost predicate Finished(cfg: GraphConfig, m: Memory, k: nat)
    requires cfg.order != []
  {
    && m.thread.Some? && m.row.Some? && StateOk(cfg, m.thread.value) && m.thread.value.pending == []
    && m.thread.value.AttemptsOf(Last(cfg.order)) == 1 && CountOf(m.runs, Last(cfg.order)) == k
  }

  lemma {:induction false} FirstPass(cfg: GraphConfig, m: Memory)
    requires ValidConfig(cfg) && PositiveLimits(cfg) && m.thread.Some? && StateOk(cfg, m.thread.value)
    requires m.thread.value.pending != []
    requires forall w :: w in m.thread.value.pending ==> m.thread.value.AttemptsOf(w) == 0 && CountOf(m.runs, w) == 0
    ensures var m' := InvokeFrom(cfg, m, Succeeds).0;
            && !InvokeFrom(cfg, m, Succeeds).1 && m'.thread.Some? && m'.thread.value.pending == []
            && m'.thread.value.AttemptsOf(Last(cfg.order)) == 1 && CountOf(m'.runs, Last(cfg.order)) == 1
    decreases |m.thread.value.pending|
  {
    var s := m.thread.value;
    assert s.current in s.pending && !Exhausted(cfg, s, s.current);
    SucceedsPasses(cfg, s, s.current);
    PassingStep(cfg, s, Succeeds);
    StepAccounts(cfg, s, Succeeds(s.current));
    PendingAreDistinct(cfg, s);
    var r := RunWorker(cfg, s, Succeeds(s.current));
    if r.state.pending != [] {
      FirstPass(cfg, AfterStep(m, r));
    } else {
      assert s.completed + s.pending == cfg.order && s.pending == [s.current];
    }
  }

  lemma StartFinishes(cfg: GraphConfig, app: AppId)
    requires ValidConfig(cfg) && PositiveLimits(cfg)
    ensures Finished(cfg, Perform(cfg, NO_MEMORY, Start(app, Succeeds), 0).0, 1)
  {
    InitialStateOk(cfg, app);
    FirstPass(cfg, StartThread(cfg, NO_MEMORY, app, 0));
  }

  lemma ResumeRunsAgain(cfg: GraphConfig, m: Memory, k: nat)
    requires ValidConfig(cfg) && Finished(cfg, m, k)
    requires AttemptLimit(cfg, Last(cfg.order)).Some? ==> AttemptLimit(cfg, Last(cfg.order)).value > 1
    ensures var m1 := Perform(cfg, m, MarkRetryable("precedent_writeback_failed"), 0).0;
            && (m1.thread.Some? ==> StateOk(cfg, m1.thread.value))
            && Finished(cfg, Perform(cfg, m1, Resume(Succeeds), 0).0, k + 1)
  {
    LimitCanBeOverrun(cfg, m, 0);
  }

  lemma MarkAndResume(cfg: GraphConfig, ops: Ops, k: nat)
    requires ValidConfig(cfg) && GuardedOrder(cfg.order) && Finished(cfg, RunOps(cfg, ops), k)
    requires AttemptLimit(cfg, Last(cfg.order)).Some? ==> AttemptLimit(cfg, Last(cfg.order)).value > 1
    ensures var marked := ops + [(MarkRetryable("precedent_writeback_failed"), 0)];
            Finished(cfg, RunOps(cfg, marked + [(Resume(Succeeds), 0)]), k + 1)
  {
    RunNext(cfg, ops, MarkRetryable("precedent_writeback_failed"), 0);
    RunNext(cfg, ops + [(MarkRetryable("precedent_writeback_failed"), 0)], Resume(Succeeds), 0);
    ResumeRunsAgain(cfg, RunOps(cfg, ops), k);
  }

  /** By marking and resuming, the last body is started any number of times, whatever its limit above one. */
  lemma {:induction false} OverrunRuns(cfg: GraphConfig, app: AppId, n: nat)
    requires ValidConfig(cfg) && GuardedOrder(cfg.order) && PositiveLimits(cfg)
    requires AttemptLimit(cfg, Last(cfg.order)).Some? ==> AttemptLimit(cfg, Last(cfg.order)).value > 1
    ensures Finished(cfg, RunOps(cfg, Overrun(app, n)), n + 1)
  {
    if n == 0 {
      RunNext(cfg, [], Start(app, Succeeds), 0);
      StartFinishes(cfg, app);
    } else {
      OverrunRuns(cfg, app, n - 1);
      MarkAndResume(cfg, Overrun(app, n - 1), n);
    }
  }

  ghost predicate LimitHolds(cfg: GraphConfig, limit: nat)
    requires ValidConfig(cfg) && GuardedOrder(cfg.order)
  {
    forall ops: Ops :: CountOf(RunOps(cfg, ops).runs, Last(cfg.order)) <= limit
  }

  /**
   * The attempt limit bounds how often the last body is started over every run exactly
   * when it is one: with a limit of one the resume finds the worker exhausted, with any
   * other a thread is marked and resumed until the limit is passed.
   */
  lemma LastLimitHoldsExactly(cfg: GraphConfig, limit: nat)
    requires ValidConfig(cfg) && GuardedOrder(cfg.order) && PositiveLimits(cfg)
    requires AttemptLimit(cfg, Last(cfg.order)) == Some(limit)
    ensures LimitHolds(cfg, limit) <==> limit == 1
  {
    if limit == 1 {
      forall ops: Ops
        ensures CountOf(RunOps(cfg, ops).runs, Last(cfg.order)) <= limit
      {
        NoEscapes(cfg, ops);
        BodyRunsAreAccounted(cfg, ops, Last(cfg.order));
      }
    } else {
      OverrunRuns(cfg, "", limit);
      assert CountOf(RunOps(cfg, Overrun("", limit)).runs, Last(cfg.order)) == limit + 1;
    }
  }

  // ---- workers a rewind skipped ----

  predicate HasReceipt(s: ThreadState, w: WorkerName) {
    exists r :: r in s.receipts && r.payload.worker == w
  }

  /**
   * A rewind keeps the skipped workers before its target, and skips those between the
   * completed ones and its target.
   */
  function SkippedBy(order: seq<WorkerName>, skipped: set<WorkerName>, completed: nat, index: nat): set<WorkerName>
    requires index <= |order|
  {
    set w | w in order[..index] && (w in skipped || w !in order[..if completed <= index then completed else index])
  }

  /** The completed workers that some rewind put into the completed list without running them. */
  ghost function Skipped(cfg: GraphConfig, ops: Ops): set<WorkerName>
    requires ValidConfig(cfg) && GuardedOrder(cfg.order)
  {
    if ops == [] then {}
    else
      var skipped, m, op := Skipped(cfg, ops[..|ops| - 1]), RunOps(cfg, ops[..|ops| - 1]), ops[|ops| - 1].0;
      if op.Rewind? && RewindRefusal(cfg, m, op.worker).None?
      then SkippedBy(cfg.order, skipped, |m.thread.value.completed|, IndexOf(cfg.order, op.worker))
      else skipped
  }

  /** Completed workers have a receipt unless they were skipped. */
  ghost predicate ReceiptedUnlessSkipped(s: ThreadState, skipped: set<WorkerName>) {
    && (forall w :: w in skipped ==> w in s.completed)
    && forall w :: w in s.completed ==> (HasReceipt(s, w) <==> w !in skipped)
  }

  lemma StepReceipts(cfg: GraphConfig, s: ThreadState, a: Attempt, skipped: set<WorkerName>)
    requires ValidConfig(cfg) && StateOk(cfg, s) && RunWorker(cfg, s, a).Next? && ReceiptedUnlessSkipped(s, skipped)
    ensures ReceiptedUnlessSkipped(RunWorker(cfg, s, a).state, skipped)
  {
    var s' := RunWorker(cfg, s, a).state;
    RunWorkerKeepsState(cfg, s, a);
    if s'.completed != s.completed {
      assert s'.completed == s.completed + [s.current] && |s'.receipts| == |s.receipts| + 1;
      assert s'.receipts[..|s.receipts|] == s.receipts && s'.receipts[|s.receipts|].payload.worker == s.current;
      StateValidates(cfg, s');
      CurrentIsNew(cfg, s, s');
      ReceiptGained(s, s', s.current, skipped);
    }
  }

  lemma CurrentIsNew(cfg: GraphConfig, s: ThreadState, s': ThreadState)
    requires ValidConfig(cfg) && StateOk(cfg, s') && s'.completed == s.completed + [s.current]
    ensures s.current !in s.completed
  {
    StateValidates(cfg, s');
    forall i | 0 <= i < |s.completed|
      ensures s.completed[i] != s.current
    {
      assert Differ(s'.completed, i, |s.completed|);
    }
  }

  lemma ReceiptGained(s: ThreadState, s': ThreadState, w: WorkerName, skipped: set<WorkerName>)
    requires ReceiptedUnlessSkipped(s, skipped) && w !in s.completed && s'.completed == s.completed + [w]
    requires |s'.receipts| == |s.receipts| + 1 && s'.receipts[..|s.receipts|] == s.receipts
    requires s'.receipts[|s.receipts|].payload.worker == w
    ensures ReceiptedUnlessSkipped(s', skipped)
  {
    var receipt := s'.receipts[|s.receipts|];
    assert s'.receipts == s.receipts + [receipt];
    forall v | v in s'.completed
      ensures HasReceipt(s', v) <==> v !in skipped
    {
      if v == w {
        assert receipt in s'.receipts;
      } else {
        assert HasReceipt(s', v) <==> HasReceipt(s, v);
      }
    }
  }

  lemma {:induction false} InvokeReceipts(
    cfg: GraphConfig, m: Memory, script: WorkerName -> Attempt, skipped: set<WorkerName>)
    requires ValidConfig(cfg) && m.thread.Some? && StateOk(cfg, m.thread.value)
    requires ReceiptedUnlessSkipped(m.thread.value, skipped)
    ensures ReceiptedUnlessSkipped(InvokeFrom(cfg, m, script).0.thread.value, skipped)
    decreases |m.thread.value.pending|
  {
    var s := m.thread.value;
    var r := RunWorker(cfg, s, script(s.current));
    if r.Next? {
      RunWorkerKeepsState(cfg, s, script(s.current));
      StepReceipts(cfg, s, script(s.current), skipped);
      if r.state.status.Running? {
        InvokeReceipts(cfg, AfterStep(m, r), script, skipped);
      }
    }
  }

  lemma RewindReceipts(cfg: GraphConfig, s: ThreadState, skipped: set<WorkerName>, index: nat)
    requires ValidConfig(cfg) && StateOk(cfg, s) && index < |cfg.order| && ReceiptedUnlessSkipped(s, skipped)
    requires forall r :: r in s.receipts ==> r.payload.worker in s.completed
    ensures ReceiptedUnlessSkipped(RewindState(cfg, s, index), SkippedBy(cfg.order, skipped, |s.completed|, index))
  {
    var s', k := RewindState(cfg, s, index), |s.completed|;
    assert s.completed == cfg.order[..k];
    KeepReceiptsKeeps(s.receipts, cfg.order[..index]);
    DistinctPrefix(cfg.order, k);
    DistinctPrefix(cfg.order, index);
    forall w | w in s'.completed
      ensures HasReceipt(s', w) <==> w !in SkippedBy(cfg.order, skipped, k, index)
    {
      assert HasReceipt(s', w) <==> HasReceipt(s, w);
      PrefixMember(cfg.order, k, index, w);
    }
  }

  lemma PrefixMember(order: seq<WorkerName>, k: nat, index: nat, w: WorkerName)
    requires Distinct(order) && k <= |order| && index <= |order| && w in order[..index]
    ensures w in order[..k] <==> w in order[..if k <= index then k else index]
  {
    if index < k {
      assert order[..index] == order[..k][..index];
    }
  }

  lemma PerformReceipts(cfg: GraphConfig, m: Memory, op: Op, now: Timestamp, skipped: set<WorkerName>)
    requires ValidConfig(cfg) && MemoryInv(cfg, m)
    requires if m.thread.Some? then ReceiptedUnlessSkipped(m.thread.value, skipped) else skipped == {}
    ensures var m' := Perform(cfg, m, op, now).0;
            var skipped' :=
              if op.Rewind? && RewindRefusal(cfg, m, op.worker).None?
              then SkippedBy(cfg.order, skipped, |m.thread.value.completed|, IndexOf(cfg.order, op.worker))
              else skipped;
            if m'.thread.Some? then ReceiptedUnlessSkipped(m'.thread.value, skipped') else skipped' == {}
  {
    PerformIs(cfg, m, op, now);
    var before := Prepared(cfg, m, op, now);
    if before.Some? {
      if op.Rewind? {
        IndexOfMember(cfg.order, op.worker);
        var index := IndexOf(cfg.order, op.worker);
        RewindReceipts(cfg, m.thread.value, skipped, index);
        InvokeReceipts(cfg, before.value, ScriptOf(op),
          SkippedBy(cfg.order, skipped, |m.thread.value.completed|, index));
      } else {
        InvokeReceipts(cfg, before.value, ScriptOf(op), skipped);
      }
    }
  }

  /** Over every run, a completed worker has a receipt exactly when no rewind skipped it. */
  lemma {:induction false} ReceiptMissingExactlyWhenSkipped(cfg: GraphConfig, ops: Ops)
    requires ValidConfig(cfg) && GuardedOrder(cfg.order)
    ensures var m := RunOps(cfg, ops);
            if m.thread.Some? then ReceiptedUnlessSkipped(m.thread.value, Skipped(cfg, ops))
            else Skipped(cfg, ops) == {}
  {
    if ops != [] {
      var n := |ops| - 1;
      ReceiptMissingExactlyWhenSkipped(cfg, ops[..n]);
      PerformReceipts(cfg, RunOps(cfg, ops[..n]), ops[n].0, ops[n].1, Skipped(cfg, ops[..n]));
    }
  }

  /** A thread in review has an eligibility receipt exactly when no rewind of its run left eligibility skipped. */
  lemma ReviewHasEligibilityExactly(cfg: GraphConfig, ops: Ops)
    requires ValidConfig(cfg) && GuardedOrder(cfg.order) && Eligibility in cfg.order && InReview(RunOps(cfg, ops))
    ensures HasReceipt(RunOps(cfg, ops).thread.value, Eligibility) <==> Eligibility !in Skipped(cfg, ops)
  {
    ReceiptMissingExactlyWhenSkipped(cfg, ops);
    EveryRunSplitsTheOrder(cfg, ops);
  }

  /** The first worker asks for attention. */
  function Stuck(w: WorkerName): Attempt {
    Attempt([], Raises(WorkerFailure("document_prompt_injection_risk", true, true)), TOOL_NOT_PERMITTED, 0.0)
  }

  /** The thread waits for attention to its first worker, with nothing done. */
  predicate StuckAtFirst(m: Memory) {
    && m.thread.Some? && m.thread.value.status.NeedsAttention? && m.thread.value.completed == []
    && m.thread.value.attempts == map[DocumentProcessing := 1]
    && m.thread.value.receipts == [] && m.thread.value.evidence == []
  }

  lemma StuckStep(cfg: GraphConfig, s: ThreadState)
    requires PositiveLimits(cfg) && s.current == DocumentProcessing && s.attempts == map[]
    ensures var r := RunWorker(cfg, s, Stuck(s.current));
            && r.Next? && r.state.status.NeedsAttention? && r.state.completed == s.completed
            && r.state.attempts == map[DocumentProcessing := 1]
            && r.state.receipts == s.receipts && r.state.evidence == s.evidence
  {
    assert !Exhausted(cfg, s, s.current);
  }

  lemma StuckStart(cfg: GraphConfig, app: AppId)
    requires ValidConfig(cfg) && PositiveLimits(cfg) && cfg.order == FIXED_ORDER
    ensures StuckAtFirst(StartOp(cfg, NO_MEMORY, app, Stuck, 0).0)
  {
    var m := StartThread(cfg, NO_MEMORY, app, 0);
    InitialStateOk(cfg, app);
    StuckStep(cfg, m.thread.value);
    StartIs(cfg, NO_MEMORY, app, Stuck, 0);
  }

  lemma StuckRun(cfg: GraphConfig, app: AppId, ops: Ops)
    requires ValidConfig(cfg) && GuardedOrder(cfg.order) && PositiveLimits(cfg) && cfg.order == FIXED_ORDER
    requires ops == [(Start(app, Stuck), 0)]
    ensures StuckAtFirst(RunOps(cfg, ops))
  {
    RunNext(cfg, [], Start(app, Stuck), 0);
    StuckStart(cfg, app);
  }

  /** A thread at the guardrails whose earlier workers count as completed although none of them ran. */
  predicate SkippedToGuardrails(s: ThreadState) {
    && s.completed == FIXED_ORDER[..5] && Eligibility in s.completed && !HasReceipt(s, Eligibility)
    && s.current == Guardrails && s.evidence == []
  }

  lemma StuckCanSkip(cfg: GraphConfig, m: Memory)
    requires ValidConfig(cfg) && cfg.order == FIXED_ORDER && StuckAtFirst(m)
    ensures RewindRefusal(cfg, m, Guardrails).None? && SkippedToGuardrails(Rewound(cfg, m, Guardrails, 0).thread.value)
  {
    FixedOrderIsGuarded();
    FixedIndices();
    KeepReceiptsKeeps([], FIXED_ORDER[..5]);
    assert FIXED_ORDER[..5][2] == Eligibility;
  }

  /**
   * The graph itself accepts a rewind forward: after a start whose first worker needs
   * attention, a rewind to the guardrails counts the workers in between as completed,
   * eligibility among them, although none of them ran.
   */
  lemma ForwardRewindCountsSkipped(cfg: GraphConfig, app: AppId)
    requires ValidConfig(cfg) && GuardedOrder(cfg.order) && PositiveLimits(cfg) && cfg.order == FIXED_ORDER
    ensures var m := RunOps(cfg, [(Start(app, Stuck), 0)]);
            && StuckAtFirst(m) && RewindRefusal(cfg, m, Guardrails).None?
            && SkippedToGuardrails(Rewound(cfg, m, Guardrails, 0).thread.value)
  {
    StuckRun(cfg, app, [(Start(app, Stuck), 0)]);
    StuckCanSkip(cfg, RunOps(cfg, [(Start(app, Stuck), 0)]));
  }
}
