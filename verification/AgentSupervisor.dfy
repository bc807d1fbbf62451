/**
 * The supervisor object: checkpoints and lifecycle rows of every application, changed
 * one operation at a time. Each method does to its application exactly what the
 * functions of AgentGraph say, and nothing to any other application.
 */
module AgentSupervisor {
  import opened Wrappers
  import opened MatchingSchema
  import opened WorkflowSchema
  import opened AgentSchema
  import opened Lifecycle
  import opened AgentGraph

  class ApplicationMemoryGraph {
    const cfg: GraphConfig
    const lifecycle: InMemoryLifecycleStore
    var checkpoints: map<AppId, ThreadState>
    ghost var runs: map<AppId, map<WorkerName, nat>>
    ghost var escapes: map<AppId, map<WorkerName, nat>>

    ghost predicate Valid()
      reads this, lifecycle
    {
      && ValidConfig(cfg)
      && lifecycle.Valid() && lifecycle.retention == cfg.retention
      && forall app :: app in checkpoints ==> StateOk(cfg, checkpoints[app]) && app in lifecycle.records
    }

    ghost function MemoryOf(app: AppId): Memory
      reads this, lifecycle
    {
      Memory(if app in checkpoints then Some(checkpoints[app]) else None,
             if app in lifecycle.records then Some(lifecycle.records[app]) else None,
             if app in runs then runs[app] else map[],
             if app in escapes then escapes[app] else map[])
    }

    /** Every application but this one is as it was. */
    twostate predicate OthersKept(app: AppId)
      reads this, lifecycle
    {
      forall other :: other != app ==> MemoryOf(other) == old(MemoryOf(other))
    }

    constructor (cfg: GraphConfig)
      requires ValidConfig(cfg)
      ensures Valid() && this.cfg == cfg && fresh(lifecycle)
      ensures forall app :: MemoryOf(app) == NO_MEMORY
    {
      this.cfg := cfg;
      this.lifecycle := new InMemoryLifecycleStore(cfg.retention);
      checkpoints, runs, escapes := map[], map[], map[];
    }

    /** One bounded worker step: count the attempt, spend the budget, turn every ending into a checkpoint. */
    method RunWorkerStep(s: ThreadState, a: Attempt) returns (r: StepResult)
      ensures r == RunWorker(cfg, s, a)
    {
      var w := s.current;
      var attempt := s.AttemptsOf(w) + 1;
      var attempts := s.attempts[w := attempt];
      var policy := if w in cfg.policies then Some(cfg.policies[w]) else None;
      var context := new WorkerContext(if policy.Some? then Some(policy.value.permittedTools) else None,
                                       if policy.Some? then policy.value.maxCalls else cfg.maxToolCalls);
      if policy.Some? && attempt > policy.value.maxAttempts {
        return Next(FailureUpdate(s, attempts, FailedTerminal, "worker_attempt_limit_exceeded", false), false);
      }
      var refusal := context.ConsumeAll(a.tools);
      var ending := if refusal.Some? then Raises(a.onRefusal) else a.ending;
      if ending.Returns? && ending.result.worker != w {
        ending := Raises(WorkerFailure("worker_identity_mismatch", false, false));
      }
      match ending
      case Raises(f) => return Next(FailureUpdate(s, attempts, FailureStatus(f), f.code, f.retryable), true);
      case TimesOut => return Next(FailureUpdate(s, attempts, FailedRetryable, "worker_deadline_exceeded", true), true);
      case Breaks => return Next(FailureUpdate(s, attempts, FailedRetryable, "worker_failed", true), true);
      case Returns(result) =>
        var updated := SuccessUpdate(cfg, s, result, attempts, Usage(context.tools, a.latency));
        return if Validates(updated) then Next(updated, true) else Escaped;
    }

    /** Writes one checkpoint. */
    method Put(app: AppId, s: ThreadState)
      requires Valid() && StateOk(cfg, s) && app in lifecycle.records
      modifies this`checkpoints
      ensures Valid() && checkpoints == old(checkpoints)[app := s]
      ensures MemoryOf(app) == old(MemoryOf(app)).(thread := Some(s))
      ensures OthersKept(app)
    {
      checkpoints := checkpoints[app := s];
    }

    /** Writes one lifecycle row; every checkpointed application has one. */
    method PutRow(app: AppId, status: GraphStatus, current: WorkerName, lastError: Option<WorkerError>, now: Timestamp)
      requires Valid() && app in checkpoints
      modifies lifecycle
      ensures Valid()
      ensures MemoryOf(app).row
          == Some(WithStatus(old(lifecycle.records[app]), status, current, lastError, now, cfg.retention))
      ensures MemoryOf(app) == old(MemoryOf(app)).(row := MemoryOf(app).row)
      ensures OthersKept(app)
    {
      var row := lifecycle.SetStatus(app, status, current, lastError, now);
    }

    /** The row of a new thread; an old row that outlived its checkpoint is kept. */
    method NewThreadRow(app: AppId, current: WorkerName, now: Timestamp)
      requires Valid() && app !in checkpoints
      modifies lifecycle
      ensures Valid() && app in lifecycle.records
      ensures MemoryOf(app) ==
              var m := old(MemoryOf(app)); m.(row := if m.row.Some? then m.row else Some(NewRow(current, now)))
      ensures OthersKept(app)
    {
      var row := lifecycle.Create(app, current, now);
    }

    /** The current worker's step, checkpointed unless a validator error escapes it. */
    method Advance(app: AppId, a: Attempt) returns (step: StepResult)
      requires Valid() && app in checkpoints
      modifies this
      ensures Valid() && app in checkpoints
      ensures step == RunWorker(cfg, old(checkpoints[app]), a)
      ensures var m, w := old(MemoryOf(app)), old(checkpoints[app]).current;
              MemoryOf(app) ==
              match step
              case Escaped => m.(runs := Bump(m.runs, w), escapes := Bump(m.escapes, w))
              case Next(next, ran) => m.(thread := Some(next), runs := if ran then Bump(m.runs, w) else m.runs)
      ensures OthersKept(app)
    {
      var s := checkpoints[app];
      step := RunWorkerStep(s, a);
      Count(app, s.current, step.Escaped? || step.ran, step.Escaped?);
      if step.Next? {
        RunWorkerKeepsState(cfg, s, a);
        Put(app, step.state);
      }
    }

    /** History of one step: a started body, and perhaps an escaped error. */
    ghost method Count(app: AppId, w: WorkerName, ran: bool, escaped: bool)
      requires Valid()
      modifies this`runs, this`escapes
      ensures Valid()
      ensures var m := old(MemoryOf(app));
              MemoryOf(app) == m.(runs := if ran then Bump(m.runs, w) else m.runs,
                                  escapes := if escaped then Bump(m.escapes, w) else m.escapes)
      ensures OthersKept(app)
    {
      if ran {
        runs := runs[app := Bump(MemoryOf(app).runs, w)];
      }
      if escaped {
        escapes := escapes[app := Bump(MemoryOf(app).escapes, w)];
      }
    }

    /** Steps the graph until its status is no longer running, or a validator error escapes. */
    method RunGraph(app: AppId, script: WorkerName -> Attempt) returns (escaped: bool)
      requires Valid() && app in checkpoints
      modifies this
      ensures Valid() && app in checkpoints
      ensures (MemoryOf(app), escaped) == InvokeFrom(cfg, old(MemoryOf(app)), script)
      ensures OthersKept(app)
    {
      escaped := false;
      var running := true;
      while running
        invariant Valid() && app in checkpoints && OthersKept(app)
        invariant running ==> !escaped
        invariant running ==> InvokeFrom(cfg, MemoryOf(app), script) == InvokeFrom(cfg, old(MemoryOf(app)), script)
        invariant !running ==> (MemoryOf(app), escaped) == InvokeFrom(cfg, old(MemoryOf(app)), script)
        decreases running, |checkpoints[app].pending|
      {
        var s := checkpoints[app];
        var step := Advance(app, script(s.current));
        escaped := step.Escaped?;
        running := step.Next? && step.state.status.Running?;
        if step.Next? {
          RunWorkerKeepsState(cfg, s, script(s.current));
        }
      }
    }

    method InvokeGraph(app: AppId, script: WorkerName -> Attempt, now: Timestamp) returns (answer: Answer)
      requires Valid() && app in checkpoints
      modifies this, lifecycle
      ensures Valid()
      ensures (MemoryOf(app), answer) == Invoke(cfg, old(MemoryOf(app)), script, now)
      ensures OthersKept(app)
    {
      var escaped := RunGraph(app, script);
      if escaped {
        return Err(ValidatorEscaped);
      }
      var s := checkpoints[app];
      PutRow(app, s.status, s.current, s.lastError, now);
      return Ok(s);
    }

    /** The initial checkpoint and lifecycle row of a new thread. */
    method Prepare(app: AppId, now: Timestamp)
      requires Valid() && app !in checkpoints
      modifies this`checkpoints, lifecycle
      ensures Valid() && app in checkpoints
      ensures MemoryOf(app) == StartThread(cfg, old(MemoryOf(app)), app, now)
      ensures OthersKept(app)
    {
      var initial := InitialState(app, cfg.order);
      NewThreadRow(app, initial.current, now);
      InitialStateOk(cfg, app);
      Put(app, initial);
    }

    method Start(app: AppId, script: WorkerName -> Attempt, now: Timestamp) returns (answer: Answer)
      requires Valid()
      modifies this, lifecycle
      ensures Valid()
      ensures (MemoryOf(app), answer) == StartOp(cfg, old(MemoryOf(app)), app, script, now)
      ensures OthersKept(app)
    {
      if app in checkpoints {
        return Ok(checkpoints[app]);
      }
      Prepare(app, now);
      answer := InvokeGraph(app, script, now);
    }

    method Resume(app: AppId, script: WorkerName -> Attempt, now: Timestamp) returns (answer: Answer)
      requires Valid()
      modifies this, lifecycle
      ensures Valid()
      ensures (MemoryOf(app), answer) == ResumeOp(cfg, old(MemoryOf(app)), script, now)
      ensures OthersKept(app)
    {
      if app !in checkpoints {
        return Err(UnknownThread);
      }
      var s := checkpoints[app];
      if !CanResume(s) {
        return Err(Refused);
      }
      if s.status.FailedRetryable? && s.current in cfg.policies
        && s.AttemptsOf(s.current) >= cfg.policies[s.current].maxAttempts {
        answer := Update(app, MarkTerminal(FailedTerminal), now);
        return;
      }
      Put(app, ResumeState(s));
      answer := InvokeGraph(app, script, now);
    }

    method Rewind(app: AppId, w: WorkerName, script: WorkerName -> Attempt, now: Timestamp) returns (answer: Answer)
      requires Valid()
      modifies this, lifecycle
      ensures Valid()
      ensures (MemoryOf(app), answer) == RewindOp(cfg, old(MemoryOf(app)), w, script, now)
      ensures OthersKept(app)
    {
      var refusal := RefuseRewind(app, w);
      if refusal.Some? {
        RefusedRewind(app, w, script, now);
        answer := Err(refusal.value);
      } else {
        answer := RestartAndInvoke(app, w, script, now);
      }
    }

    lemma RefusedRewind(app: AppId, w: WorkerName, script: WorkerName -> Attempt, now: Timestamp)
      requires Valid() && RewindRefusal(cfg, MemoryOf(app), w).Some?
      ensures RewindOp(cfg, MemoryOf(app), w, script, now)
          == (MemoryOf(app), Err(RewindRefusal(cfg, MemoryOf(app), w).value))
    {
      RewindIsRefused(cfg, MemoryOf(app), w, script, now);
    }

    method RestartAndInvoke(app: AppId, w: WorkerName, script: WorkerName -> Attempt, now: Timestamp)
      returns (answer: Answer)
      requires Valid() && RewindRefusal(cfg, MemoryOf(app), w).None?
      modifies this, lifecycle
      ensures Valid()
      ensures (MemoryOf(app), answer) == RewindOp(cfg, old(MemoryOf(app)), w, script, now)
      ensures OthersKept(app)
    {
      RewindIsInvoke(cfg, MemoryOf(app), w, script, now);
      Restart(app, w, now);
      answer := InvokeGraph(app, script, now);
    }

    method RefuseRewind(app: AppId, w: WorkerName) returns (refusal: Option<GraphError>)
      requires Valid()
      ensures refusal == RewindRefusal(cfg, MemoryOf(app), w)
      ensures refusal.None? ==> app in checkpoints && w in cfg.order
    {
      if w == HumanReview || w !in cfg.order {
        return Some(Refused);
      }
      if app !in checkpoints {
        return Some(UnknownThread);
      }
      if checkpoints[app].status !in {WaitingForReview, NeedsAttention}
         || exists l :: l in REWIND_LANDMARKS && l !in cfg.order {
        return Some(Refused);
      }
      return None;
    }

    /** Cuts the checkpoint back to worker w and marks the row running. */
    method Restart(app: AppId, w: WorkerName, now: Timestamp)
      requires Valid() && app in checkpoints && w in cfg.order
      modifies this`checkpoints, lifecycle
      ensures Valid() && app in checkpoints
      ensures MemoryOf(app) == Rewound(cfg, old(MemoryOf(app)), w, now)
      ensures OthersKept(app)
    {
      var index := IndexOf(cfg.order, w);
      IndexOfMember(cfg.order, w);
      RewindKeepsState(cfg, checkpoints[app], index);
      Put(app, RewindState(cfg, checkpoints[app], index));
      PutRow(app, Running, w, None, now);
    }

    /** The checkpoint patch and lifecycle update that the four marks share. */
    method Update(app: AppId, op: Op, now: Timestamp) returns (answer: Answer)
      requires Valid()
      requires op.MarkTerminal? || op.CompleteAfterWriteback? || op.MarkNeedsAttention? || op.MarkRetryable?
      modifies this, lifecycle
      ensures Valid()
      ensures (MemoryOf(app), answer) == Mark(cfg, old(MemoryOf(app)), op, now)
      ensures OthersKept(app)
    {
      if op.MarkTerminal? && !op.status.Terminal() {
        return Err(Refused);
      }
      if app !in checkpoints {
        return Err(UnknownThread);
      }
      var current := checkpoints[app];
      if op.CompleteAfterWriteback? && current.status.Completed? {
        return Ok(current);
      }
      var updated := Marked(current, op);
      Put(app, updated);
      PutRow(app, updated.status, updated.current, updated.lastError, now);
      return Ok(updated);
    }

    method Cancel(app: AppId, now: Timestamp) returns (answer: Answer)
      requires Valid()
      modifies this, lifecycle
      ensures Valid()
      ensures (MemoryOf(app), answer) == CancelOp(cfg, old(MemoryOf(app)), now)
      ensures OthersKept(app)
    {
      if app in checkpoints && checkpoints[app].status.Terminal() {
        return Ok(checkpoints[app]);
      }
      answer := Update(app, MarkTerminal(Cancelled), now);
    }

    /** Deletes the checkpoint of one application, as retention cleanup does before it drops the row. */
    method DeleteThread(app: AppId)
      requires Valid()
      modifies this
      ensures Valid() && checkpoints == old(checkpoints) - {app}
      ensures MemoryOf(app).thread == None && MemoryOf(app).row == old(MemoryOf(app)).row
      ensures OthersKept(app)
    {
      checkpoints := checkpoints - {app};
      runs := runs - {app};
      escapes := escapes - {app};
    }
  }
}
