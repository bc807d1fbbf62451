/**
 * The in-memory repository: three dictionaries updated under one lock, and the
 * serial specification every other implementation is measured against.
 */
module WorkflowRepository {
  import opened Wrappers
  import opened MatchingSchema
  import opened WorkflowSchema
  import opened WorkflowService

  type Closure = (WorkflowRecord, nat) -> Outcome
  type Response = Result<TransitionResult, WorkflowError>

  datatype Store = Store(
    workflows: map<AppId, WorkflowRecord>,
    events: map<AppId, seq<AuditEvent>>,
    commands: map<(AppId, CommandId), TransitionResult>)
  {
    predicate Known(app: AppId) { app in workflows && app in events }
  }

  const EMPTY_STORE := Store(map[], map[], map[])

  /** Install a record with its first event. */
  function Created(s: Store, workflow: WorkflowRecord, event: AuditEvent): Store {
    var app := workflow.applicationId;
    Store(s.workflows[app := workflow], s.events[app := [event]],
          s.commands[(app, event.commandId) := TransitionResult(workflow, event)])
  }

  /** Replace a record, append its event and record the command. */
  function Recorded(s: Store, app: AppId, id: CommandId, result: TransitionResult): Store
    requires app in s.events
  {
    Store(s.workflows[app := result.workflow], s.events[app := s.events[app] + [result.auditEvent]],
          s.commands[(app, id) := result])
  }

  function SerialCreate(s: Store, workflow: WorkflowRecord, event: AuditEvent): (Store, Response) {
    if workflow.applicationId in s.workflows then (s, Err(Conflict))
    else (Created(s, workflow, event), Ok(TransitionResult(workflow, event)))
  }

  function SerialTransition(s: Store, app: AppId, id: CommandId, closure: Closure): (Store, Response) {
    if (app, id) in s.commands then (s, Ok(s.commands[(app, id)]))
    else if !s.Known(app) then (s, Err(NotFound))
    else
      match closure(s.workflows[app], |s.events[app]| + 1)
      case Err(e) => (s, Err(e))
      case Ok((workflow, event)) =>
        var result := TransitionResult(workflow, event);
        (Recorded(s, app, id, result), Ok(result))
  }

  class InMemoryWorkflowRepository {
    var workflows: map<AppId, WorkflowRecord>
    var events: map<AppId, seq<AuditEvent>>
    var commands: map<(AppId, CommandId), TransitionResult>

    ghost function Contents(): Store
      reads this
    {
      Store(workflows, events, commands)
    }

    /** Every stored record has its event list; the two dictionaries are written together. */
    ghost predicate Valid()
      reads this
    {
      workflows.Keys == events.Keys
    }

    constructor ()
      ensures Valid() && Contents() == EMPTY_STORE
    {
      workflows, events, commands := map[], map[], map[];
    }

    method Create(workflow: WorkflowRecord, event: AuditEvent) returns (response: Response)
      requires Valid()
      modifies this
      ensures Valid()
      ensures (Contents(), response) == SerialCreate(old(Contents()), workflow, event)
    {
      var app := workflow.applicationId;
      if app in workflows {
        return Err(Conflict);
      }
      var result := TransitionResult(workflow, event);
      workflows := workflows[app := workflow];
      events := events[app := [event]];
      commands := commands[(app, event.commandId) := result];
      return Ok(result);
    }

    method Get(app: AppId) returns (r: Result<WorkflowRecord, WorkflowError>)
      requires Valid()
      ensures r == if app in workflows then Ok(workflows[app]) else Err(NotFound)
    {
      if app !in workflows {
        return Err(NotFound);
      }
      return Ok(workflows[app]);
    }

    method Audit(app: AppId) returns (r: Result<seq<AuditEvent>, WorkflowError>)
      requires Valid()
      ensures r == if app in workflows then Ok(events[app]) else Err(NotFound)
    {
      if app !in events {
        return Err(NotFound);
      }
      return Ok(events[app]);
    }

    method Transition(app: AppId, id: CommandId, closure: Closure) returns (response: Response)
      requires Valid()
      modifies this
      ensures Valid()
      ensures (Contents(), response) == SerialTransition(old(Contents()), app, id, closure)
    {
      if (app, id) in commands {
        return Ok(commands[(app, id)]);
      }
      var current := Get(app);
      if current.Err? {
        return Err(current.error);
      }
      var sequence := |events[app]| + 1;
      var updated := closure(current.value, sequence);
      if updated.Err? {
        return Err(updated.error);
      }
      var result := TransitionResult(updated.value.0, updated.value.1);
      workflows := workflows[app := result.workflow];
      events := events[app := events[app] + [result.auditEvent]];
      commands := commands[(app, id) := result];
      return Ok(result);
    }
  }

  /** A request to the workflow service, with the clock reading it is served at. */
  datatype Request =
    | CreateRequest(app: AppId, actor: Actor, id: CommandId, reason: string, now: Timestamp)
    | CommandRequest(app: AppId, actor: Actor, command: Command, now: Timestamp)
  {
    function CommandKey(): (AppId, CommandId) {
      if CreateRequest? then (app, id) else (app, command.id)
    }
  }

  function Execute(s: Store, request: Request): (Store, Response) {
    match request
    case CreateRequest(app, actor, id, reason, now) =>
      if PipelineRole !in actor.roles then (s, Err(Unauthorized))
      else SerialCreate(s, InitialRecord(app, now), CreateEvent(app, id, actor, reason, now))
    case CommandRequest(app, actor, command, now) =>
      if Guard(command, actor).Some? then (s, Err(Guard(command, actor).value))
      else SerialTransition(s, app, command.id,
        (current: WorkflowRecord, sequence: nat) => Transition(current, sequence, command, actor, now))
  }

  /** The service's public operations, applied to the in-memory repository. */
  method Serve(repository: InMemoryWorkflowRepository, request: Request) returns (response: Response)
    requires repository.Valid()
    modifies repository
    ensures repository.Valid()
    ensures (repository.Contents(), response) == Execute(old(repository.Contents()), request)
  {
    match request
    case CreateRequest(app, actor, id, reason, now) =>
      if PipelineRole !in actor.roles {
        return Err(Unauthorized);
      }
      response := repository.Create(InitialRecord(app, now), CreateEvent(app, id, actor, reason, now));
    case CommandRequest(app, actor, command, now) =>
      var refusal := Guard(command, actor);
      if refusal.Some? {
        return Err(refusal.value);
      }
      response := repository.Transition(app, command.id,
                                        (current: WorkflowRecord, sequence: nat) =>
                                          Transition(current, sequence, command, actor, now));
  }

  /** The store after a whole run of requests, oldest first. */
  function Run(requests: seq<Request>): Store {
    if requests == [] then EMPTY_STORE
    else Execute(Run(requests[..|requests| - 1]), requests[|requests| - 1]).0
  }
}
