/**
 * What the append-only audit log of every reachable store says about its record:
 * the log is a legal history, replaying it rebuilds the record, and recorded
 * commands and audit events match one to one.
 */
module AuditLog {
  import opened Wrappers
  import opened MatchingSchema
  import opened WorkflowSchema
  import opened WorkflowService
  import opened WorkflowRepository

  /** The part of a record the audit log determines. */
  datatype View = View(state: WorkflowState, version: nat, decision: Option<HumanDecisionRecord>,
    receipt: Option<PrecedentReceipt>)

  function ViewOf(r: WorkflowRecord): View {
    View(r.state, r.version, r.decision, r.receipt)
  }

  function Apply(v: View, e: AuditEvent): View {
    View(e.changes.state,
         if e.changes.version.Some? then e.changes.version.value else 0,
         if e.action.DecisionAction? then e.changes.decision else if e.action.ReopenAction? then None else v.decision,
         if e.action.WrittenAction? then e.changes.receipt else v.receipt)
  }

  function Fold(log: seq<AuditEvent>): View {
    if log == [] then View(Intake, 0, None, None)
    else Apply(Fold(log[..|log| - 1]), log[|log| - 1])
  }

  /** e may follow previous: states chain, the role is right, and the action fits. */
  predicate LegalStep(previous: AuditEvent, e: AuditEvent) {
    && e.fromState == Some(previous.toState)
    && match e.action
       case CreateAction => false
       case AdvanceAction => PipelineTarget(previous.toState) == Some(e.toState) && PipelineRole in e.actorRoles
       case DecisionAction(_) =>
         previous.toState == AwaitingHuman && e.toState == HumanDecided && HumanReviewerRole in e.actorRoles
       case WrittenAction =>
         && previous.toState == HumanDecided && e.toState == PrecedentWritten && PipelineRole in e.actorRoles
         && previous.action.DecisionAction? && previous.action.action != SendBack
       case ReopenAction =>
         && previous.toState == HumanDecided && HumanReviewerRole in e.actorRoles
         && previous.action == DecisionAction(SendBack)
         && e.changes.restartStage.Some? && !e.changes.restartStage.value.Supervisor?
         && e.toState == RestartState(e.changes.restartStage.value)
  }

  predicate LegalHistory(app: AppId, log: seq<AuditEvent>) {
    && log != []
    && log[0].action == CreateAction && log[0].fromState == None && log[0].toState == Intake
    && (forall i :: 0 <= i < |log| ==> log[i].sequence == i + 1 && log[i].applicationId == app)
    && (forall i :: 0 < i < |log| ==> LegalStep(log[i - 1], log[i]))
  }

  /** What a record and the last event of its log have in common. */
  predicate Current(record: WorkflowRecord, last: AuditEvent) {
    && record.state == last.toState
    && (record.decision.Some? <==> record.state in {HumanDecided, PrecedentWritten})
    && (record.receipt.Some? <==> record.state == PrecedentWritten)
    && (record.state == HumanDecided ==> last.action == DecisionAction(record.decision.value.action))
    && (record.state == PrecedentWritten ==> record.decision.value.action != SendBack)
  }

  /** The log is the legal history of this record. */
  predicate LogOk(app: AppId, record: WorkflowRecord, log: seq<AuditEvent>) {
    && LegalHistory(app, log)
    && record.applicationId == app
    && record.version == |log| - 1
    && ViewOf(record) == Fold(log)
    && Current(record, log[|log| - 1])
  }

  /** The result recorded under id is the log event with that command. */
  predicate EventOf(log: seq<AuditEvent>, id: CommandId, result: TransitionResult) {
    && 1 <= result.auditEvent.sequence <= |log|
    && log[result.auditEvent.sequence - 1] == result.auditEvent
    && result.auditEvent.commandId == id
    && result.workflow.version == result.auditEvent.sequence - 1
    && result.workflow.state == result.auditEvent.toState
  }

  /** Event i of the log is the one recorded under its command. */
  predicate Kept(app: AppId, log: seq<AuditEvent>, i: nat, commands: map<(AppId, CommandId), TransitionResult>)
    requires i < |log|
  {
    (app, log[i].commandId) in commands && commands[(app, log[i].commandId)].auditEvent == log[i]
  }

  /** Commands recorded for this application and events of its log are in bijection. */
  ghost predicate CommandsOk(app: AppId, log: seq<AuditEvent>, commands: map<(AppId, CommandId), TransitionResult>) {
    && (forall id :: (app, id) in commands ==> EventOf(log, id, commands[(app, id)]))
    && (forall i :: 0 <= i < |log| ==> Kept(app, log, i, commands))
  }

  ghost predicate CaseOk(s: Store, app: AppId)
    requires s.Known(app)
  {
    LogOk(app, s.workflows[app], s.events[app]) && CommandsOk(app, s.events[app], s.commands)
  }

  ghost predicate Consistent(s: Store) {
    && s.workflows.Keys == s.events.Keys
    && (forall key :: key in s.commands ==> key.0 in s.workflows)
    && (forall app :: app in s.workflows ==> CaseOk(s, app))
  }

  /** What the workflow demands of each operation, beside the version. */
  predicate Demanded(current: WorkflowRecord, op: Operation) {
    match op
    case Advance(target, suggestion) =>
      && Rank(target) == Rank(current.state) + 1 && Rank(target) <= Rank(AwaitingHuman)
      && (suggestion.Some? <==> target == AiSuggested)
    case Decide(_, _, _, _) => current.state == AwaitingHuman
    case MarkWritten(_) =>
      current.state == HumanDecided && current.decision.Some? && current.decision.value.action != SendBack
    case Reopen(_) =>
      current.state == HumanDecided && current.decision.Some? && current.decision.value.action == SendBack
  }

  /** A guarded transition is accepted exactly when the version matches and the record meets the operation's demand. */
  lemma TransitionAcceptedExactly(
    current: WorkflowRecord, sequence: nat, command: Command, actor: Actor, now: Timestamp)
    requires Guard(command, actor).None?
    ensures Transition(current, sequence, command, actor, now).Ok?
       <==> current.version == command.expectedVersion && Demanded(current, command.operation)
    ensures Transition(current, sequence, command, actor, now) == Err(Conflict)
        <==> current.version != command.expectedVersion
  {
  }

  /**
   * What an accepted transition changes and what it keeps: each part of the record is
   * touched by one kind of operation only, and the event names the command and the actor.
   */
  lemma AcceptedTransitionIsAttributed(
    current: WorkflowRecord, sequence: nat, command: Command, actor: Actor, now: Timestamp)
    requires Guard(command, actor).None? && Transition(current, sequence, command, actor, now).Ok?
    ensures var (after, event) := Transition(current, sequence, command, actor, now).value;
            && after.applicationId == event.applicationId == current.applicationId
            && after.createdAt == current.createdAt && after.updatedAt == now
            && event.fromState == Some(current.state) && event.toState == after.state == event.changes.state
            && event.commandId == command.id && event.reason == command.reason && event.sequence == sequence
            && event.actorId == actor.actorId && event.actorDisplayName == actor.displayName
            && event.actorRoles == actor.roles
            && (after.suggestion != current.suggestion ==>
                 command.operation.Advance? && after.suggestion == command.operation.suggestion)
            && (after.receipt != current.receipt ==>
                 command.operation.MarkWritten? && after.receipt == Some(command.operation.receipt))
            && (after.decision.Some? && after.decision != current.decision ==>
                  && command.operation.Decide?
                  && var decision := after.decision.value;
                     && decision.action == command.operation.action && decision.funderId == command.operation.funderId
                     && decision.conditions == command.operation.conditions
                     && decision.overrides == command.operation.overrides
                     && decision.reason == command.reason && decision.actorId == actor.actorId
                     && decision.actorDisplayName == actor.displayName && decision.decidedAt == now)
            && (after.decision.None? && current.decision.Some? ==> command.operation.Reopen?)
  {
  }

  lemma LegalHistoryGrows(app: AppId, log: seq<AuditEvent>, event: AuditEvent, longer: seq<AuditEvent>)
    requires LegalHistory(app, log) && LegalStep(log[|log| - 1], event) && longer == log + [event]
    requires event.sequence == |log| + 1 && event.applicationId == app
    ensures LegalHistory(app, longer)
  {
    forall i | 0 < i < |longer|
      ensures LegalStep(longer[i - 1], longer[i])
    {
      if i < |log| {
        assert LegalStep(log[i - 1], log[i]);
      }
    }
  }

  lemma FoldGrows(log: seq<AuditEvent>, event: AuditEvent)
    ensures Fold(log + [event]) == Apply(Fold(log), event)
  {
    assert (log + [event])[..|log|] == log;
  }

  /** An accepted transition takes a legal step, and its event says what became of the record. */
  lemma TransitionIsLegal(
    record: WorkflowRecord, last: AuditEvent, sequence: nat, command: Command, actor: Actor, now: Timestamp)
    requires Current(record, last) && Guard(command, actor).None?
    requires Transition(record, sequence, command, actor, now).Ok?
    ensures var (workflow, event) := Transition(record, sequence, command, actor, now).value;
            && LegalStep(last, event) && Current(workflow, event)
            && ViewOf(workflow) == Apply(ViewOf(record), event)
            && event.sequence == sequence && event.applicationId == workflow.applicationId == record.applicationId
            && event.commandId == command.id
            && workflow.version == record.version + 1 && record.version == command.expectedVersion
  {
  }

  /** Every accepted transition extends a legal history to a legal history of the new record. */
  lemma TransitionKeepsLog(
    app: AppId, record: WorkflowRecord, log: seq<AuditEvent>, command: Command, actor: Actor, now: Timestamp)
    requires LogOk(app, record, log)
    requires Guard(command, actor).None?
    requires Transition(record, |log| + 1, command, actor, now).Ok?
    ensures var (workflow, event) := Transition(record, |log| + 1, command, actor, now).value;
            && LogOk(app, workflow, log + [event])
            && event.commandId == command.id
            && event.sequence == |log| + 1
            && workflow.version == record.version + 1
            && record.version == command.expectedVersion
  {
    var (workflow, event) := Transition(record, |log| + 1, command, actor, now).value;
    TransitionIsLegal(record, log[|log| - 1], |log| + 1, command, actor, now);
    LegalHistoryGrows(app, log, event, log + [event]);
    FoldGrows(log, event);
  }

  /** Commands of one application say nothing about another. */
  lemma CommandsFrame(
    app: AppId, log: seq<AuditEvent>,
    commands: map<(AppId, CommandId), TransitionResult>, commands': map<(AppId, CommandId), TransitionResult>)
    requires CommandsOk(app, log, commands)
    requires forall id :: (app, id) in commands' <==> (app, id) in commands
    requires forall id :: (app, id) in commands ==> commands'[(app, id)] == commands[(app, id)]
    ensures CommandsOk(app, log, commands')
  {
    forall i | 0 <= i < |log|
      ensures Kept(app, log, i, commands')
    {
      assert Kept(app, log, i, commands);
    }
  }

  lemma CommandsGrow(
    app: AppId, log: seq<AuditEvent>, commands: map<(AppId, CommandId), TransitionResult>, id: CommandId,
    result: TransitionResult)
    requires CommandsOk(app, log, commands) && (app, id) !in commands
    requires result.auditEvent.sequence == |log| + 1 && result.auditEvent.commandId == id
    requires result.workflow.version == |log| && result.workflow.state == result.auditEvent.toState
    ensures CommandsOk(app, log + [result.auditEvent], commands[(app, id) := result])
  {
    var log', commands' := log + [result.auditEvent], commands[(app, id) := result];
    forall i | 0 <= i < |log'|
      ensures Kept(app, log', i, commands')
    {
      if i < |log| {
        assert Kept(app, log, i, commands);
      }
    }
  }

  lemma LogOkGivesLast(app: AppId, record: WorkflowRecord, log: seq<AuditEvent>, event: AuditEvent)
    requires LogOk(app, record, log + [event])
    ensures event.sequence == |log| + 1 && record.version == |log| && record.state == event.toState
  {
    assert (log + [event])[|log|] == event;
  }

  /** The application's record, log and commands are the same in two stores. */
  ghost predicate SameCase(s: Store, s': Store, app: AppId) {
    && s.Known(app) && s'.Known(app)
    && s'.workflows[app] == s.workflows[app] && s'.events[app] == s.events[app]
    && (forall id :: (app, id) in s'.commands <==> (app, id) in s.commands)
    && (forall id :: (app, id) in s.commands ==> s'.commands[(app, id)] == s.commands[(app, id)])
  }

  lemma SameInBoth(s: Store, s': Store, app: AppId)
    requires SameCase(s, s', app) && CaseOk(s, app)
    ensures CaseOk(s', app)
  {
    CommandsFrame(app, s.events[app], s.commands, s'.commands);
  }

  /** A consistent store stays so when one case is changed consistently and the others are left alone. */
  lemma OneCaseChanged(s: Store, s': Store, app: AppId)
    requires Consistent(s) && s'.workflows.Keys == s'.events.Keys && s'.Known(app) && CaseOk(s', app)
    requires forall key :: key in s'.commands ==> key.0 in s'.workflows
    requires forall other :: other in s'.workflows && other != app ==> SameCase(s, s', other)
    ensures Consistent(s')
  {
    forall other | other in s'.workflows && other != app
      ensures CaseOk(s', other)
    {
      assert CaseOk(s, other);
      SameInBoth(s, s', other);
    }
  }

  lemma RecordedKeepsOthers(s: Store, app: AppId, id: CommandId, result: TransitionResult, other: AppId)
    requires s.workflows.Keys == s.events.Keys && app in s.workflows && other in s.workflows && other != app
    ensures SameCase(s, Recorded(s, app, id, result), other)
  {
  }

  lemma RecordedKeepsConsistent(s: Store, app: AppId, id: CommandId, result: TransitionResult)
    requires Consistent(s) && app in s.workflows && (app, id) !in s.commands
    requires LogOk(app, result.workflow, s.events[app] + [result.auditEvent])
    requires result.auditEvent.commandId == id
    ensures Consistent(Recorded(s, app, id, result))
  {
    assert CaseOk(s, app);
    LogOkGivesLast(app, result.workflow, s.events[app], result.auditEvent);
    CommandsGrow(app, s.events[app], s.commands, id, result);
    forall other | other in s.workflows && other != app
      ensures SameCase(s, Recorded(s, app, id, result), other)
    {
      RecordedKeepsOthers(s, app, id, result, other);
    }
    OneCaseChanged(s, Recorded(s, app, id, result), app);
  }

  lemma CreatedLogOk(app: AppId, actor: Actor, id: CommandId, reason: string, now: Timestamp)
    ensures LogOk(app, InitialRecord(app, now), [CreateEvent(app, id, actor, reason, now)])
  {
    var event := CreateEvent(app, id, actor, reason, now);
    assert [event][..0] == [];
    assert Fold([event]) == Apply(Fold([]), event);
  }

  lemma CreatedCommandsOk(
    app: AppId, commands: map<(AppId, CommandId), TransitionResult>, result: TransitionResult)
    requires forall id :: (app, id) !in commands
    requires result.auditEvent.sequence == 1 && result.workflow.version == 0
    requires result.workflow.state == result.auditEvent.toState
    ensures CommandsOk(app, [result.auditEvent], commands[(app, result.auditEvent.commandId) := result])
  {
    var commands' := commands[(app, result.auditEvent.commandId) := result];
    assert Kept(app, [result.auditEvent], 0, commands');
  }

  lemma NoCommandsYet(s: Store, app: AppId)
    requires Consistent(s) && app !in s.workflows
    ensures forall id :: (app, id) !in s.commands
  {
    assert forall id :: (app, id) in s.commands ==> (app, id).0 in s.workflows;
  }

  lemma CreatedKeepsOthers(s: Store, workflow: WorkflowRecord, event: AuditEvent, other: AppId)
    requires s.workflows.Keys == s.events.Keys && other in s.workflows && other != workflow.applicationId
    ensures SameCase(s, Created(s, workflow, event), other)
  {
  }

  lemma InstalledKeepsConsistent(s: Store, app: AppId, workflow: WorkflowRecord, event: AuditEvent)
    requires Consistent(s) && app !in s.workflows && workflow.applicationId == app
    requires CaseOk(Created(s, workflow, event), app)
    ensures Consistent(Created(s, workflow, event))
  {
    forall other | other in s.workflows && other != app
      ensures SameCase(s, Created(s, workflow, event), other)
    {
      CreatedKeepsOthers(s, workflow, event, other);
    }
    OneCaseChanged(s, Created(s, workflow, event), app);
  }

  lemma CreatedKeepsConsistent(s: Store, app: AppId, actor: Actor, id: CommandId, reason: string, now: Timestamp)
    requires Consistent(s) && app !in s.workflows
    ensures Consistent(Created(s, InitialRecord(app, now), CreateEvent(app, id, actor, reason, now)))
  {
    var workflow, event := InitialRecord(app, now), CreateEvent(app, id, actor, reason, now);
    CreatedLogOk(app, actor, id, reason, now);
    NoCommandsYet(s, app);
    CreatedCommandsOk(app, s.commands, TransitionResult(workflow, event));
    InstalledKeepsConsistent(s, app, workflow, event);
  }

  lemma ExecuteKeepsConsistent(s: Store, request: Request)
    requires Consistent(s)
    ensures Consistent(Execute(s, request).0)
  {
    match request
    case CreateRequest(app, actor, id, reason, now) =>
      if PipelineRole in actor.roles && app !in s.workflows {
        CreatedKeepsConsistent(s, app, actor, id, reason, now);
      }
    case CommandRequest(app, actor, command, now) =>
      if Guard(command, actor).None? && (app, command.id) !in s.commands && s.Known(app) {
        var outcome := Transition(s.workflows[app], |s.events[app]| + 1, command, actor, now);
        if outcome.Ok? {
          TransitionKeepsLog(app, s.workflows[app], s.events[app], command, actor, now);
          RecordedKeepsConsistent(s, app, command.id, TransitionResult(outcome.value.0, outcome.value.1));
        }
      }
  }

  lemma {:induction false} RunConsistent(requests: seq<Request>)
    ensures Consistent(Run(requests))
  {
    if requests != [] {
      RunConsistent(requests[..|requests| - 1]);
      ExecuteKeepsConsistent(Run(requests[..|requests| - 1]), requests[|requests| - 1]);
    }
  }

  lemma EventIsRecorded(s: Store, app: AppId, i: nat)
    requires Consistent(s) && app in s.events && i < |s.events[app]|
    ensures (app, s.events[app][i].commandId) in s.commands
  {
    assert app in s.workflows;
    assert Kept(app, s.events[app], i, s.commands);
  }

  /** Over every run, each event's command is recorded. */
  lemma EventsAreRecorded(requests: seq<Request>, app: AppId, i: nat)
    requires app in Run(requests).events && i < |Run(requests).events[app]|
    ensures (app, Run(requests).events[app][i].commandId) in Run(requests).commands
  {
    RunConsistent(requests);
    EventIsRecorded(Run(requests), app, i);
  }

  /** Over every run, replaying an application's audit log rebuilds its record. */
  lemma AuditLogRebuildsRecord(requests: seq<Request>, app: AppId)
    requires app in Run(requests).workflows
    ensures app in Run(requests).events
    ensures var record, log := Run(requests).workflows[app], Run(requests).events[app];
            && Fold(log) == View(record.state, record.version, record.decision, record.receipt)
            && record.version == |log| - 1
            && (record.decision.Some? <==> record.state in {HumanDecided, PrecedentWritten})
            && (record.receipt.Some? <==> record.state == PrecedentWritten)
  {
    RunConsistent(requests);
  }

  lemma StepFacts(app: AppId, log: seq<AuditEvent>, i: nat)
    requires LegalHistory(app, log) && i < |log|
    ensures log[i].sequence == i + 1
    ensures log[i].fromState == if i == 0 then None else Some(log[i - 1].toState)
    ensures log[i].toState == HumanDecided ==>
              i > 0 && log[i - 1].toState == AwaitingHuman && HumanReviewerRole in log[i].actorRoles
    ensures log[i].toState == PrecedentWritten ==>
              i > 0 && log[i - 1].action.DecisionAction? && log[i - 1].action.action != SendBack
    ensures log[i].action == ReopenAction ==> i > 0 && log[i - 1].action == DecisionAction(SendBack)
  {
    if i > 0 {
      assert LegalStep(log[i - 1], log[i]);
    }
  }

  /** Over every run, sequences are 1..n, states chain, and every step is one the state machine allows. */
  lemma AuditLogIsLegalHistory(requests: seq<Request>, app: AppId, i: nat)
    requires app in Run(requests).events && i < |Run(requests).events[app]|
    ensures var log := Run(requests).events[app];
            && log[i].sequence == i + 1
            && (log[i].fromState == if i == 0 then None else Some(log[i - 1].toState))
            && (log[i].toState == HumanDecided ==>
                  i > 0 && log[i - 1].toState == AwaitingHuman && HumanReviewerRole in log[i].actorRoles)
            && (log[i].toState == PrecedentWritten ==>
                  i > 0 && log[i - 1].action.DecisionAction? && log[i - 1].action.action != SendBack)
            && (log[i].action == ReopenAction ==> i > 0 && log[i - 1].action == DecisionAction(SendBack))
  {
    RunConsistent(requests);
    var s := Run(requests);
    assert app in s.workflows;
    assert LogOk(app, s.workflows[app], s.events[app]);
    StepFacts(app, s.events[app], i);
  }

  lemma CommandsAreDistinct(app: AppId, log: seq<AuditEvent>, commands: map<(AppId, CommandId), TransitionResult>)
    requires LegalHistory(app, log) && CommandsOk(app, log, commands)
    ensures forall i, j :: 0 <= i < j < |log| ==> log[i].commandId != log[j].commandId
  {
    forall i, j | 0 <= i < j < |log|
      ensures log[i].commandId != log[j].commandId
    {
      assert Kept(app, log, i, commands) && Kept(app, log, j, commands);
      assert log[i].sequence == i + 1 && log[j].sequence == j + 1;
    }
  }

  lemma CommandsAreLogged(
    app: AppId, log: seq<AuditEvent>, commands: map<(AppId, CommandId), TransitionResult>, id: CommandId)
    requires CommandsOk(app, log, commands)
    ensures (app, id) in commands <==> exists i :: 0 <= i < |log| && log[i].commandId == id
  {
    if (app, id) in commands {
      var n := commands[(app, id)].auditEvent.sequence;
      assert EventOf(log, id, commands[(app, id)]);
      assert log[n - 1].commandId == id;
    }
    if exists i :: 0 <= i < |log| && log[i].commandId == id {
      var i :| 0 <= i < |log| && log[i].commandId == id;
      assert Kept(app, log, i, commands);
    }
  }

  /** Over every run, no command identifier takes effect twice, and each recorded command is one event. */
  lemma CommandsMatchEventsOneToOne(requests: seq<Request>, app: AppId, id: CommandId)
    requires app in Run(requests).events
    ensures var s := Run(requests);
            var log := s.events[app];
            && (forall i, j :: 0 <= i < j < |log| ==> log[i].commandId != log[j].commandId)
            && ((app, id) in s.commands <==> exists i :: 0 <= i < |log| && log[i].commandId == id)
  {
    RunConsistent(requests);
    var s := Run(requests);
    assert CaseOk(s, app);
    CommandsAreDistinct(app, s.events[app], s.commands);
    CommandsAreLogged(app, s.events[app], s.commands, id);
  }

  /** One request never rewrites history: logs only grow, and recorded commands keep their result. */
  lemma ExecuteIsAppendOnly(s: Store, request: Request, app: AppId)
    requires s.workflows.Keys == s.events.Keys && app in s.events
    ensures app in Execute(s, request).0.events && s.events[app] <= Execute(s, request).0.events[app]
    ensures app in Execute(s, request).0.workflows && app in s.workflows
    ensures s.workflows[app].version <= Execute(s, request).0.workflows[app].version
    ensures forall id :: (app, id) in s.commands ==>
              (app, id) in Execute(s, request).0.commands
                && Execute(s, request).0.commands[(app, id)] == s.commands[(app, id)]
  {
    var s' := Execute(s, request).0;
    if s' != s && request.CommandRequest? {
      var CommandRequest(other, actor, command, now) := request;
      var outcome := Transition(s.workflows[other], |s.events[other]| + 1, command, actor, now);
      assert s' == Recorded(s, other, command.id, TransitionResult(outcome.value.0, outcome.value.1));
      assert outcome.value.0.version == s.workflows[other].version + 1;
    }
  }

  /** Sending an accepted command again is answered with its first result and changes nothing. */
  lemma ReplayIsIdempotent(s: Store, request: Request)
    requires request.CommandRequest? && Execute(s, request).1.Ok?
    ensures var (s', response) := Execute(s, request);
            Execute(s', request) == (s', response)
  {
  }

  // ---- when a suggestion is stored ----

  /** The request is an accepted, not replayed, advance of app that carries a non-empty payload. */
  predicate Stores(s: Store, request: Request, app: AppId) {
    && request.CommandRequest? && request.app == app
    && (app, request.command.id) !in s.commands
    && Execute(s, request).1.Ok?
    && request.command.operation.Advance? && request.command.operation.suggestion.Some?
    && !request.command.operation.suggestion.value.EmptyPayload?
  }

  predicate StoresSuggestion(requests: seq<Request>, i: nat, app: AppId)
    requires i < |requests|
  {
    Stores(Run(requests[..i]), requests[i], app)
  }

  lemma StoresInPrefix(requests: seq<Request>, n: nat, app: AppId)
    requires n <= |requests|
    ensures forall i :: 0 <= i < n ==> StoresSuggestion(requests[..n], i, app) == StoresSuggestion(requests, i, app)
  {
    forall i | 0 <= i < n
      ensures StoresSuggestion(requests[..n], i, app) == StoresSuggestion(requests, i, app)
    {
      assert requests[..n][..i] == requests[..i];
    }
  }

  /** Whether one more request leaves app with a suggestion. */
  lemma SuggestionStep(s: Store, request: Request, app: AppId)
    requires s.workflows.Keys == s.events.Keys
    requires app in Execute(s, request).0.workflows
    ensures Execute(s, request).0.workflows[app].suggestion.Some?
       <==> (app in s.workflows && s.workflows[app].suggestion.Some?) || Stores(s, request, app)
  {
  }

  /** A record holds a suggestion exactly when some accepted advance carried a non-empty payload. */
  lemma {:induction false} SuggestionStoredExactlyWhenOffered(requests: seq<Request>, app: AppId)
    requires app in Run(requests).workflows
    ensures Run(requests).workflows[app].suggestion.Some?
        <==> exists i :: 0 <= i < |requests| && StoresSuggestion(requests, i, app)
  {
    var n := |requests| - 1;
    var s := Run(requests[..n]);
    KeysAgree(requests[..n]);
    SuggestionStep(s, requests[n], app);
    StoresInPrefix(requests, n, app);
    if app in s.workflows {
      SuggestionStoredExactlyWhenOffered(requests[..n], app);
    } else {
      NothingStoredBeforeCreation(requests[..n], app);
    }
    assert StoresSuggestion(requests, n, app) == Stores(s, requests[n], app);
  }

  lemma KeysAgree(requests: seq<Request>)
    ensures Run(requests).workflows.Keys == Run(requests).events.Keys
  {
    RunConsistent(requests);
  }

  lemma {:induction false} NothingStoredBeforeCreation(requests: seq<Request>, app: AppId)
    requires app !in Run(requests).workflows
    ensures forall i :: 0 <= i < |requests| ==> !StoresSuggestion(requests, i, app)
  {
    if requests != [] {
      var n := |requests| - 1;
      ExecuteNeverForgets(Run(requests[..n]), requests[n]);
      NothingStoredBeforeCreation(requests[..n], app);
      StoresInPrefix(requests, n, app);
      assert !StoresSuggestion(requests, n, app);
    }
  }

  lemma ExecuteNeverForgets(s: Store, request: Request)
    ensures s.workflows.Keys <= Execute(s, request).0.workflows.Keys
  {
  }

  /**
   * The empty payload passes the "is None" check and is then dropped: AiSuggested without
   * a suggestion is reachable.
   */
  lemma EmptyPayloadLeavesNoSuggestion(
    record: WorkflowRecord, sequence: nat, command: Command, actor: Actor, now: Timestamp)
    requires record.state == RuleGated && command.expectedVersion == record.version
    requires command.operation.Advance? && command.operation.target == AiSuggested && command.operation.suggestion.Some?
    ensures AdvancePipeline(record, sequence, command, actor, now).Ok?
    ensures AdvancePipeline(record, sequence, command, actor, now).value.0.state == AiSuggested
    ensures AdvancePipeline(record, sequence, command, actor, now).value.0.suggestion.None?
       <==> command.operation.suggestion.value.EmptyPayload? && record.suggestion.None?
  {
  }
}
