/**
 * The Postgres repository as interleaved transactions. Every statement of every
 * client's transaction is one step; the command table is read before the case row
 * is locked. Whatever the schedule, the committed tables are those of a serial run.
 */
module PostgresRepository {
  import opened Wrappers
  import opened MatchingSchema
  import opened WorkflowSchema
  import opened WorkflowService
  import opened WorkflowRepository
  import opened AuditLog

  type ClientId = nat

  /** workflow_audit is keyed by its unique (application_id, sequence); the other two by their primary keys. */
  datatype Tables = Tables(
    cases: map<AppId, WorkflowRecord>,
    audit: map<(AppId, nat), AuditEvent>,
    commands: map<(AppId, CommandId), TransitionResult>)

  /** How far a client's transaction has come. */
  datatype Phase =
    | Idle
    | Started(request: Request)
    | Checked(request: Request)
    | RowLocked(request: Request, row: WorkflowRecord)
    | Numbered(request: Request, row: WorkflowRecord, sequence: nat)
    | CaseWritten(request: Request, result: TransitionResult)
    | AuditInserted(request: Request, result: TransitionResult)
    | CommandInserted(request: Request, result: TransitionResult)
    | Answered(request: Request, response: Response)

  /** history is the list of committed requests, in commit order. */
  datatype System = System(tables: Tables, clients: map<ClientId, Phase>, history: seq<Request>)

  datatype Action = Submit(client: ClientId, request: Request) | Proceed(client: ClientId) | Abort(client: ClientId)

  const INITIAL := System(Tables(map[], map[], map[]), map[], [])

  function PhaseOf(s: System, c: ClientId): Phase {
    if c in s.clients then s.clients[c] else Idle
  }

  /** The application whose case row (or uncommitted new case) the transaction holds exclusively. */
  function Holding(p: Phase): Option<AppId> {
    if p.RowLocked? || p.Numbered? || p.CaseWritten? || p.AuditInserted? || p.CommandInserted?
    then Some(p.request.app)
    else None
  }

  predicate HeldByOther(s: System, c: ClientId, app: AppId) {
    exists d :: d in s.clients && d != c && Holding(s.clients[d]) == Some(app)
  }

  predicate IsMaxSequence(audit: map<(AppId, nat), AuditEvent>, app: AppId, n: nat) {
    (app, n) in audit && forall key :: key in audit && key.0 == app ==> key.1 <= n
  }

  /** COALESCE(MAX(sequence), 0) + 1 */
  ghost function NextSequence(audit: map<(AppId, nat), AuditEvent>, app: AppId): nat {
    if exists n: nat :: IsMaxSequence(audit, app, n) then
      var n: nat :| IsMaxSequence(audit, app, n); n + 1
    else 1
  }

  /** UNIQUE (application_id, sequence) and UNIQUE (application_id, command_id). */
  predicate AuditRejects(audit: map<(AppId, nat), AuditEvent>, e: AuditEvent) {
    || (e.applicationId, e.sequence) in audit
    || exists key :: key in audit && key.0 == e.applicationId && audit[key].commandId == e.commandId
  }

  function CreateResult(r: Request): TransitionResult
    requires r.CreateRequest?
  {
    TransitionResult(InitialRecord(r.app, r.now), CreateEvent(r.app, r.id, r.actor, r.reason, r.now))
  }

  /** Refusals of the service, before any statement runs. */
  function Refusal(r: Request): Option<WorkflowError> {
    match r
    case CreateRequest(_, actor, _, _, _) => if PipelineRole !in actor.roles then Some(Unauthorized) else None
    case CommandRequest(_, actor, command, _) => Guard(command, actor)
  }

  function Closing(r: Request, row: WorkflowRecord, sequence: nat): Outcome
    requires r.CommandRequest? && Refusal(r).None?
  {
    Transition(row, sequence, r.command, r.actor, r.now)
  }

  /** The next phase of client c, and whether its transaction commits now. Blocked clients stay where they are. */
  ghost function NextPhase(s: System, c: ClientId): Phase {
    var t := s.tables;
    match PhaseOf(s, c)
    case Idle => Idle
    case Started(r) =>
      if r.CommandKey() in t.commands then Answered(r, Ok(t.commands[r.CommandKey()])) else Checked(r)
    case Checked(r) =>
      if r.CreateRequest? then
        if r.app in t.cases then Answered(r, Err(Conflict))
        else if HeldByOther(s, c, r.app) then Checked(r)
        else CaseWritten(r, CreateResult(r))
      else if r.app !in t.cases then Answered(r, Err(NotFound))
      else if HeldByOther(s, c, r.app) then Checked(r)
      else RowLocked(r, t.cases[r.app])
    case RowLocked(r, row) => Numbered(r, row, NextSequence(t.audit, r.app))
    case Numbered(r, row, sequence) =>
      if r.CreateRequest? || Refusal(r).Some? then Idle
      else (
        match Closing(r, row, sequence)
        case Err(e) => Answered(r, Err(e))
        case Ok((workflow, event)) => CaseWritten(r, TransitionResult(workflow, event)))
    case CaseWritten(r, result) =>
      if AuditRejects(t.audit, result.auditEvent) then Answered(r, Err(UniqueViolation)) else AuditInserted(r, result)
    case AuditInserted(r, result) =>
      if r.CommandKey() in t.commands then Answered(r, Err(UniqueViolation)) else CommandInserted(r, result)
    case CommandInserted(r, result) => Answered(r, Ok(result))
    case Answered(_, _) => Idle
  }

  function Commit(t: Tables, r: Request, result: TransitionResult): Tables {
    Tables(t.cases[r.app := result.workflow],
           t.audit[(r.app, result.auditEvent.sequence) := result.auditEvent],
           t.commands[r.CommandKey() := result])
  }

  ghost function Step(s: System, action: Action): System {
    match action
    case Submit(c, r) =>
      if PhaseOf(s, c).Idle? then
        s.(clients := s.clients[c := if Refusal(r).Some? then Answered(r, Err(Refusal(r).value)) else Started(r)])
      else s
    case Proceed(c) =>
      var p := PhaseOf(s, c);
      var s' := s.(clients := s.clients[c := NextPhase(s, c)]);
      if !p.CommandInserted? then s'
      else s'.(tables := Commit(s.tables, p.request, p.result), history := s.history + [p.request])
    case Abort(c) => s.(clients := s.clients[c := Idle])
  }

  ghost function RunSchedule(schedule: seq<Action>): System {
    if schedule == [] then INITIAL
    else Step(RunSchedule(schedule[..|schedule| - 1]), schedule[|schedule| - 1])
  }

  // ---- abstraction ----

  /** Audit rows of an application are numbered 1..version + 1. */
  ghost predicate Numbering(t: Tables, app: AppId)
    requires app in t.cases
  {
    forall n: nat :: (app, n) in t.audit <==> 1 <= n <= t.cases[app].version + 1
  }

  ghost predicate TablesOk(t: Tables) {
    && (forall app :: app in t.cases ==> Numbering(t, app))
    && (forall key :: key in t.audit ==> key.0 in t.cases)
  }

  ghost function Log(t: Tables, app: AppId): (log: seq<AuditEvent>)
    requires app in t.cases && Numbering(t, app)
    ensures |log| == t.cases[app].version + 1
    ensures forall i :: 0 <= i < |log| ==> log[i] == t.audit[(app, i + 1)]
  {
    seq(t.cases[app].version + 1, i requires 0 <= i < t.cases[app].version + 1 => t.audit[(app, i + 1)])
  }

  /** The serial store the committed tables stand for. */
  ghost function Abs(t: Tables): Store
    requires TablesOk(t)
  {
    Store(t.cases, map app | app in t.cases :: Log(t, app), t.commands)
  }

  // ---- invariant ----

  /** The request took effect: it was accepted and was not a replay. */
  predicate TakesEffect(s: Store, r: Request) {
    Execute(s, r).1.Ok? && r.CommandKey() !in s.commands
  }

  ghost predicate HistoryOk(history: seq<Request>) {
    forall i :: 0 <= i < |history| ==> TakesEffect(Run(history[..i]), history[i])
  }

  /** What a transaction relies on stays true while it holds its row. */
  ghost predicate PhaseOk(t: Tables, p: Phase) {
    match p
    case Idle => true
    case Started(r) => Refusal(r).None?
    case Checked(r) => Refusal(r).None?
    case RowLocked(r, row) => r.CommandRequest? && Refusal(r).None? && r.app in t.cases && row == t.cases[r.app]
    case Numbered(r, row, sequence) =>
      r.CommandRequest? && Refusal(r).None? && r.app in t.cases && row == t.cases[r.app] && sequence == row.version + 2
    case CaseWritten(r, result) => Prepared(t, r, result)
    case AuditInserted(r, result) => Prepared(t, r, result)
    case CommandInserted(r, result) => Prepared(t, r, result) && r.CommandKey() !in t.commands
    case Answered(_, _) => true
  }

  /** result is what the serial repository would record for r now. */
  predicate Prepared(t: Tables, r: Request, result: TransitionResult) {
    && Refusal(r).None?
    && (r.CreateRequest? ==> r.app !in t.cases && result == CreateResult(r))
    && (r.CommandRequest? ==>
          && r.app in t.cases
          && Closing(r, t.cases[r.app], t.cases[r.app].version + 2) == Ok((result.workflow, result.auditEvent)))
  }

  ghost predicate Exclusive(clients: map<ClientId, Phase>) {
    forall c, d :: c in clients && d in clients && c != d && Holding(clients[c]).Some?
      ==> Holding(clients[c]) != Holding(clients[d])
  }

  ghost predicate PhasesOk(t: Tables, clients: map<ClientId, Phase>) {
    forall c :: c in clients ==> PhaseOk(t, clients[c])
  }

  ghost predicate Inv(s: System) {
    && TablesOk(s.tables)
    && Abs(s.tables) == Run(s.history)
    && HistoryOk(s.history)
    && Exclusive(s.clients)
    && PhasesOk(s.tables, s.clients)
  }

  lemma NextSequenceIs(t: Tables, app: AppId)
    requires app in t.cases && Numbering(t, app)
    ensures NextSequence(t.audit, app) == t.cases[app].version + 2
  {
    var n: nat := t.cases[app].version + 1;
    forall key | key in t.audit && key.0 == app
      ensures key.1 <= n
    {
      assert (app, key.1) in t.audit;
    }
    assert IsMaxSequence(t.audit, app, n);
    forall m: nat | IsMaxSequence(t.audit, app, m)
      ensures m == n
    {
      assert (app, n) in t.audit && (app, m) in t.audit;
      assert (app, n).1 <= m;
    }
  }

  lemma OtherLogStays(t: Tables, r: Request, result: TransitionResult, other: AppId)
    requires other in t.cases && other != r.app && Numbering(t, other)
    ensures Numbering(Commit(t, r, result), other)
    ensures Log(Commit(t, r, result), other) == Log(t, other)
  {
  }

  lemma OwnLogGrows(t: Tables, r: Request, result: TransitionResult)
    requires r.app in t.cases ==> Numbering(t, r.app) && result.workflow.version == t.cases[r.app].version + 1
    requires r.app !in t.cases ==> result.workflow.version == 0
    requires result.auditEvent.sequence == result.workflow.version + 1
    requires Numbering(Commit(t, r, result), r.app)
    ensures Log(Commit(t, r, result), r.app) == (if r.app in t.cases then Log(t, r.app) else []) + [result.auditEvent]
  {
  }

  /** The committed tables of a prepared transaction stand for the serial store with its result recorded. */
  lemma CommitAbstracts(t: Tables, r: Request, result: TransitionResult)
    requires TablesOk(t) && TablesOk(Commit(t, r, result))
    requires if r.app in t.cases then result.workflow.version == t.cases[r.app].version + 1
        else result.workflow.version == 0
    requires result.auditEvent.sequence == result.workflow.version + 1
    ensures Abs(Commit(t, r, result)).events ==
            Abs(t).events[r.app := (if r.app in t.cases then Abs(t).events[r.app] else []) + [result.auditEvent]]
  {
    OwnLogGrows(t, r, result);
    var after := Abs(Commit(t, r, result)).events;
    var expected := Abs(t).events[r.app := (if r.app in t.cases then Abs(t).events[r.app] else []) +
      [result.auditEvent]];
    assert after.Keys == expected.Keys;
    forall app | app in after
      ensures after[app] == expected[app]
    {
      if app != r.app {
        OtherLogStays(t, r, result, app);
      }
    }
  }

  lemma CommandCommitIsSerialStep(t: Tables, r: Request, result: TransitionResult)
    requires TablesOk(t) && TablesOk(Commit(t, r, result)) && r.CommandRequest?
    requires Prepared(t, r, result) && r.CommandKey() !in t.commands
    requires Abs(Commit(t, r, result)).events == Abs(t).events[r.app := Abs(t).events[r.app] + [result.auditEvent]]
    ensures Execute(Abs(t), r) == (Abs(Commit(t, r, result)), Ok(result))
  {
    assert |Abs(t).events[r.app]| + 1 == t.cases[r.app].version + 2;
    assert Abs(Commit(t, r, result)) == Recorded(Abs(t), r.app, r.command.id, result);
  }

  lemma CreateCommitIsSerialStep(t: Tables, r: Request, result: TransitionResult)
    requires TablesOk(t) && TablesOk(Commit(t, r, result)) && r.CreateRequest? && Prepared(t, r, result)
    requires Abs(Commit(t, r, result)).events == Abs(t).events[r.app := [result.auditEvent]]
    ensures Execute(Abs(t), r) == (Abs(Commit(t, r, result)), Ok(result))
  {
    assert Abs(Commit(t, r, result)) == Created(Abs(t), result.workflow, result.auditEvent);
  }

  /** Committing a prepared transaction is one step of the serial repository. */
  lemma CommitIsSerialStep(t: Tables, r: Request, result: TransitionResult)
    requires TablesOk(t) && Prepared(t, r, result) && r.CommandKey() !in t.commands
    requires r.CommandRequest? ==> t.cases[r.app].applicationId == r.app
    ensures TablesOk(Commit(t, r, result))
    ensures Execute(Abs(t), r) == (Abs(Commit(t, r, result)), Ok(result))
  {
    if r.CommandRequest? {
      AcceptedShape(t.cases[r.app], t.cases[r.app].version + 2, r);
    }
    CommitNumbering(t, r, result);
    CommitAbstracts(t, r, result);
    if r.CommandRequest? {
      CommandCommitIsSerialStep(t, r, result);
    } else {
      assert [] + [result.auditEvent] == [result.auditEvent];
      CreateCommitIsSerialStep(t, r, result);
    }
  }

  lemma AcceptedShape(row: WorkflowRecord, sequence: nat, r: Request)
    requires r.CommandRequest? && Refusal(r).None? && Closing(r, row, sequence).Ok?
    ensures var (workflow, event) := Closing(r, row, sequence).value;
            && workflow.version == row.version + 1 && workflow.applicationId == row.applicationId
            && event.sequence == sequence && event.commandId == r.command.id
            && row.version == r.command.expectedVersion
  {
  }

  lemma CommitNumbering(t: Tables, r: Request, result: TransitionResult)
    requires TablesOk(t)
    requires if r.app in t.cases then result.workflow.version == t.cases[r.app].version + 1
        else result.workflow.version == 0
    requires result.auditEvent.sequence == result.workflow.version + 1
    ensures TablesOk(Commit(t, r, result))
  {
    var t' := Commit(t, r, result);
    forall app | app in t'.cases
      ensures Numbering(t', app)
    {
      if app in t.cases {
        assert Numbering(t, app);
      } else {
        assert forall n: nat :: (app, n) in t.audit ==> (app, n).0 in t.cases;
      }
    }
  }

  /** A commit to one application leaves every transaction on the others as it was. */
  lemma CommitKeepsOtherPhase(t: Tables, r: Request, result: TransitionResult, p: Phase)
    requires PhaseOk(t, p) && Holding(p) != Some(r.app)
    ensures PhaseOk(Commit(t, r, result), p)
  {
  }

  lemma HistoryGrows(history: seq<Request>, r: Request)
    requires HistoryOk(history) && TakesEffect(Run(history), r)
    ensures HistoryOk(history + [r])
    ensures Run(history + [r]) == Execute(Run(history), r).0
  {
    var longer := history + [r];
    assert longer[..|history|] == history;
    forall i | 0 <= i < |longer|
      ensures TakesEffect(Run(longer[..i]), longer[i])
    {
      if i < |history| {
        assert longer[..i] == history[..i];
      }
    }
  }

  lemma NextPhaseOk(s: System, c: ClientId)
    requires TablesOk(s.tables) && PhaseOk(s.tables, PhaseOf(s, c)) && !PhaseOf(s, c).CommandInserted?
    ensures PhaseOk(s.tables, NextPhase(s, c))
  {
    var p := PhaseOf(s, c);
    if p.RowLocked? {
      NextSequenceIs(s.tables, p.request.app);
    }
  }

  /** A client takes a row only when nobody else holds it. */
  lemma NextPhaseHolds(s: System, c: ClientId)
    requires PhaseOk(s.tables, PhaseOf(s, c))
    ensures Holding(NextPhase(s, c)).Some? ==>
              Holding(NextPhase(s, c)) == Holding(PhaseOf(s, c)) || !HeldByOther(s, c, Holding(NextPhase(s, c)).value)
  {
  }

  lemma PhaseChangeKeepsExclusive(s: System, c: ClientId, p: Phase)
    requires Exclusive(s.clients)
    requires Holding(p).Some? ==> Holding(p) == Holding(PhaseOf(s, c)) || !HeldByOther(s, c, Holding(p).value)
    ensures Exclusive(s.clients[c := p])
  {
    var clients := s.clients[c := p];
    forall a, b | a in clients && b in clients && a != b && Holding(clients[a]).Some?
      ensures Holding(clients[a]) != Holding(clients[b])
    {
    }
  }

  lemma RecordsCarryTheirKey(s: System)
    requires Inv(s)
    ensures forall app :: app in s.tables.cases ==> s.tables.cases[app].applicationId == app
  {
    RunConsistent(s.history);
    forall app | app in s.tables.cases
      ensures s.tables.cases[app].applicationId == app
    {
      assert LogOk(app, Run(s.history).workflows[app], Run(s.history).events[app]);
    }
  }

  lemma CommitKeepsPhases(s: System, c: ClientId, p: Phase)
    requires Exclusive(s.clients) && PhasesOk(s.tables, s.clients) && PhaseOf(s, c) == p && p.CommandInserted?
    ensures PhasesOk(Commit(s.tables, p.request, p.result), s.clients[c := Answered(p.request, Ok(p.result))])
  {
    var tables, clients := Commit(s.tables, p.request, p.result), s.clients[c := Answered(p.request, Ok(p.result))];
    forall d | d in clients
      ensures PhaseOk(tables, clients[d])
    {
      if d != c {
        assert Holding(s.clients[c]) == Some(p.request.app);
        CommitKeepsOtherPhase(s.tables, p.request, p.result, s.clients[d]);
      }
    }
  }

  lemma CommitShape(s: System, c: ClientId)
    requires PhaseOf(s, c).CommandInserted?
    ensures var p := PhaseOf(s, c);
            Step(s, Proceed(c)) == System(Commit(s.tables, p.request, p.result),
              s.clients[c := Answered(p.request, Ok(p.result))], s.history + [p.request])
  {
  }

  lemma CommitKeepsInv(s: System, c: ClientId)
    requires Inv(s) && PhaseOf(s, c).CommandInserted?
    ensures Inv(Step(s, Proceed(c)))
  {
    var p := PhaseOf(s, c);
    CommitShape(s, c);
    CommitKeepsPhases(s, c, p);
    assert PhaseOk(s.tables, p);
    PhaseChangeKeepsExclusive(s, c, Answered(p.request, Ok(p.result)));
    RecordsCarryTheirKey(s);
    CommitKeepsHistory(s.tables, s.history, p.request, p.result);
  }

  lemma CommitKeepsHistory(t: Tables, history: seq<Request>, r: Request, result: TransitionResult)
    requires TablesOk(t) && Abs(t) == Run(history) && HistoryOk(history)
    requires Prepared(t, r, result) && r.CommandKey() !in t.commands
    requires r.CommandRequest? ==> t.cases[r.app].applicationId == r.app
    ensures TablesOk(Commit(t, r, result))
    ensures Abs(Commit(t, r, result)) == Run(history + [r]) && HistoryOk(history + [r])
  {
    CommitIsSerialStep(t, r, result);
    HistoryGrows(history, r);
  }

  lemma StepKeepsInv(s: System, action: Action)
    requires Inv(s)
    ensures Inv(Step(s, action))
  {
    match action
    case Submit(c, r) =>
      if PhaseOf(s, c).Idle? {
        PhaseChangeKeepsExclusive(s, c, if Refusal(r).Some? then Answered(r, Err(Refusal(r).value)) else Started(r));
      }
    case Proceed(c) =>
      if PhaseOf(s, c).CommandInserted? {
        CommitKeepsInv(s, c);
      } else {
        NextPhaseOk(s, c);
        NextPhaseHolds(s, c);
        PhaseChangeKeepsExclusive(s, c, NextPhase(s, c));
      }
    case Abort(c) =>
      PhaseChangeKeepsExclusive(s, c, Idle);
  }

  lemma {:induction false} ScheduleInv(schedule: seq<Action>)
    ensures Inv(RunSchedule(schedule))
  {
    if schedule == [] {
      assert Abs(INITIAL.tables) == EMPTY_STORE;
    } else {
      ScheduleInv(schedule[..|schedule| - 1]);
      StepKeepsInv(RunSchedule(schedule[..|schedule| - 1]), schedule[|schedule| - 1]);
    }
  }

  // ---- main results ----

  /** Every interleaving commits a history that is a run of the serial in-memory repository. */
  lemma EveryScheduleIsSerial(schedule: seq<Action>)
    ensures TablesOk(RunSchedule(schedule).tables)
    ensures Abs(RunSchedule(schedule).tables) == Run(RunSchedule(schedule).history)
    ensures HistoryOk(RunSchedule(schedule).history)
  {
    ScheduleInv(schedule);
  }

  /** What a recorded command or version looks like after the request that recorded it, and ever after. */
  lemma {:induction false} EffectsPersist(history: seq<Request>, i: nat, j: nat)
    requires HistoryOk(history) && i < j <= |history|
    ensures history[i].CommandKey() in Run(history[..j]).commands
    ensures history[i].app in Run(history[..j]).workflows
    ensures history[i].CommandRequest? ==>
              Run(history[..j]).workflows[history[i].app].version > history[i].command.expectedVersion
    decreases j
  {
    var s := Run(history[..j - 1]);
    assert history[..j][..j - 1] == history[..j - 1];
    assert TakesEffect(s, history[j - 1]);
    RunConsistent(history[..j - 1]);
    if i < j - 1 {
      EffectsPersist(history, i, j - 1);
      ExecuteIsAppendOnly(s, history[j - 1], history[i].app);
    } else if history[i].CommandRequest? {
      EffectOfAccepted(s, history[i]);
    }
  }

  lemma EffectOfAccepted(s: Store, r: Request)
    requires r.CommandRequest? && TakesEffect(s, r)
    ensures r.app in s.workflows && r.app in Execute(s, r).0.workflows
    ensures Execute(s, r).0.workflows[r.app].version == s.workflows[r.app].version + 1 == r.command.expectedVersion + 1
    ensures r.CommandKey() in Execute(s, r).0.commands
  {
  }

  /** No (application, command) pair commits twice, however the clients race. */
  lemma NoCommandCommitsTwice(schedule: seq<Action>, i: nat, j: nat)
    requires i < j < |RunSchedule(schedule).history|
    ensures RunSchedule(schedule).history[i].CommandKey() != RunSchedule(schedule).history[j].CommandKey()
  {
    ScheduleInv(schedule);
    var history := RunSchedule(schedule).history;
    EffectsPersist(history, i, j);
    assert TakesEffect(Run(history[..j]), history[j]);
  }

  /** The serial repository with the Postgres create, which replays a recorded create. */
  function SerialAnswer(s: Store, r: Request): (Store, Response) {
    if r.CreateRequest? && Refusal(r).None? && r.CommandKey() in s.commands then (s, Ok(s.commands[r.CommandKey()]))
    else Execute(s, r)
  }

  /** The two creates differ exactly on a repeated command: in memory it conflicts, in Postgres it is replayed. */
  lemma CreatesDifferExactlyOnReplay(requests: seq<Request>, r: Request)
    requires r.CreateRequest? && Refusal(r).None?
    ensures SerialAnswer(Run(requests), r) != Execute(Run(requests), r) <==> r.CommandKey() in Run(requests).commands
  {
    RunConsistent(requests);
  }

  /** Client c receives this response when it takes its next step. */
  ghost predicate AnswersNow(s: System, c: ClientId, r: Request, response: Response) {
    !PhaseOf(s, c).Answered? && NextPhase(s, c) == Answered(r, response)
  }

  lemma UniqueKeysGuardCommands(t: Tables, history: seq<Request>, app: AppId, key: (AppId, nat))
    requires TablesOk(t) && Abs(t) == Run(history) && key in t.audit && key.0 == app
    ensures (app, t.audit[key].commandId) in t.commands
  {
    AuditRowIsLogEntry(t, app, key);
    EventsAreRecorded(history, app, key.1 - 1);
  }

  lemma AuditRowIsLogEntry(t: Tables, app: AppId, key: (AppId, nat))
    requires TablesOk(t) && key in t.audit && key.0 == app
    ensures app in Abs(t).events && 1 <= key.1 <= |Abs(t).events[app]|
    ensures Abs(t).events[app][key.1 - 1] == t.audit[key]
  {
    assert app in t.cases && Numbering(t, app);
    assert (app, key.1) == key;
  }

  /** A prepared insert can only be refused because the command was recorded in the meantime. */
  lemma RejectedInsertIsDuplicate(s: System, r: Request, result: TransitionResult)
    requires Inv(s) && Prepared(s.tables, r, result) && AuditRejects(s.tables.audit, result.auditEvent)
    requires forall app :: app in s.tables.cases ==> s.tables.cases[app].applicationId == app
    ensures r.CommandKey() in s.tables.commands
  {
    var t := s.tables;
    if r.CommandRequest? {
      AcceptedShape(t.cases[r.app], t.cases[r.app].version + 2, r);
      assert Numbering(t, r.app);
      var key :| key in t.audit && key.0 == r.app && t.audit[key].commandId == result.auditEvent.commandId;
      UniqueKeysGuardCommands(t, s.history, r.app, key);
    } else {
      assert false;
    }
  }

  /** A closure's refusal, unless raced, is the serial refusal. */
  lemma ClosureErrorIsSerial(s: Store, r: Request)
    requires r.CommandRequest? && Refusal(r).None? && r.app in s.workflows && r.app in s.events
    requires Closing(r, s.workflows[r.app], |s.events[r.app]| + 1).Err? && r.CommandKey() !in s.commands
    ensures SerialAnswer(s, r) == (s, Err(Closing(r, s.workflows[r.app], |s.events[r.app]| + 1).error))
  {
  }

  lemma EarlyAnswerIsSerial(s: System, c: ClientId, r: Request, response: Response)
    requires TablesOk(s.tables) && (PhaseOf(s, c).Started? || PhaseOf(s, c).Checked?) && AnswersNow(s, c, r, response)
    requires Refusal(r).None?
    requires forall key :: key in s.tables.commands ==> key.0 in s.tables.cases
    ensures (r.CommandKey() in s.tables.commands && response.Err?)
        || SerialAnswer(Abs(s.tables), r) == (Abs(s.tables), response)
  {
  }

  /** What an answer must be, given whether it came with a commit. */
  ghost predicate AnswerOk(s: System, t': Tables, r: Request, response: Response)
    requires TablesOk(s.tables)
  {
    && (if r.CommandKey() in s.tables.commands && response.Err? then t' == s.tables
        else TablesOk(t') && SerialAnswer(Abs(s.tables), r) == (Abs(t'), response))
    && (response == Err(UniqueViolation) ==> r.CommandKey() in s.tables.commands)
  }

  lemma OnlyCommitsChangeTables(s: System, c: ClientId)
    ensures !PhaseOf(s, c).CommandInserted? ==> Step(s, Proceed(c)).tables == s.tables
  {
  }

  lemma CommitAnswerIsSerial(s: System, c: ClientId, r: Request, response: Response)
    requires Inv(s) && AnswersNow(s, c, r, response) && PhaseOf(s, c).CommandInserted?
    ensures AnswerOk(s, Step(s, Proceed(c)).tables, r, response)
  {
    var p := PhaseOf(s, c);
    assert PhaseOk(s.tables, p);
    RecordsCarryTheirKey(s);
    CommitShape(s, c);
    CommitIsSerialStep(s.tables, p.request, p.result);
  }

  lemma ClosureAnswerIsSerial(t: Tables, r: Request, row: WorkflowRecord, sequence: nat)
    requires TablesOk(t) && r.CommandRequest? && Refusal(r).None? && r.app in t.cases && row == t.cases[r.app]
    requires sequence == row.version + 2
    requires Closing(r, row, sequence).Err? && r.CommandKey() !in t.commands
    ensures SerialAnswer(Abs(t), r) == (Abs(t), Err(Closing(r, row, sequence).error))
    ensures Closing(r, row, sequence).error != UniqueViolation
  {
    assert |Abs(t).events[r.app]| + 1 == sequence;
    ClosureErrorIsSerial(Abs(t), r);
  }

  lemma AnswerIsSerial(s: System, c: ClientId, r: Request, response: Response)
    requires Inv(s) && AnswersNow(s, c, r, response)
    ensures AnswerOk(s, Step(s, Proceed(c)).tables, r, response)
  {
    var p := PhaseOf(s, c);
    assert PhaseOk(s.tables, p);
    if p.CommandInserted? {
      CommitAnswerIsSerial(s, c, r, response);
    } else {
      OnlyCommitsChangeTables(s, c);
      if p.Started? || p.Checked? {
        CommandsBelongToCases(s);
        EarlyAnswerIsSerial(s, c, r, response);
      } else if p.CaseWritten? {
        RecordsCarryTheirKey(s);
        RejectedInsertIsDuplicate(s, r, p.result);
      } else if p.Numbered? && r.CommandKey() !in s.tables.commands {
        ClosureAnswerIsSerial(s.tables, r, p.row, p.sequence);
      }
    }
  }

  lemma CommandsBelongToCases(s: System)
    requires Inv(s)
    ensures forall key :: key in s.tables.commands ==> key.0 in s.tables.cases
  {
    RunConsistent(s.history);
  }

  /** A duplicate of a committed command, still waiting for the row, always ends in a version conflict. */
  lemma DuplicateConflicts(s: System, c: ClientId, i: nat)
    requires Inv(s) && PhaseOf(s, c).Numbered? && i < |s.history|
    requires s.history[i].CommandRequest? && s.history[i].app == PhaseOf(s, c).request.app
    requires s.history[i].command == PhaseOf(s, c).request.command
    ensures AnswersNow(s, c, PhaseOf(s, c).request, Err(Conflict))
  {
    EffectsPersist(s.history, i, |s.history|);
    assert s.history[..|s.history|] == s.history;
    assert PhaseOk(s.tables, PhaseOf(s, c));
    StaleCommandConflicts(PhaseOf(s, c).request, PhaseOf(s, c).row, PhaseOf(s, c).sequence);
  }

  lemma StaleCommandConflicts(r: Request, row: WorkflowRecord, sequence: nat)
    requires r.CommandRequest? && Refusal(r).None? && row.version != r.command.expectedVersion
    ensures Closing(r, row, sequence) == Err(Conflict)
  {
  }

  /**
   * Over every schedule, each answer is the serial repository's answer at the moment it
   * is given, except to a racing duplicate: its command was recorded after it looked,
   * and it gets an error without any effect.
   */
  lemma AnswersAreSerial(schedule: seq<Action>, c: ClientId, r: Request, response: Response)
    requires AnswersNow(RunSchedule(schedule), c, r, response)
    ensures var s := RunSchedule(schedule);
            var s' := Step(s, Proceed(c));
            && TablesOk(s.tables)
            && if r.CommandKey() in s.tables.commands && response.Err? then s'.tables == s.tables
               else TablesOk(s'.tables) && SerialAnswer(Abs(s.tables), r) == (Abs(s'.tables), response)
    ensures response == Err(UniqueViolation) ==> r.CommandKey() in RunSchedule(schedule).tables.commands
  {
    ScheduleInv(schedule);
    AnswerIsSerial(RunSchedule(schedule), c, r, response);
  }

  /** Over every schedule, a second copy of a committed command that raced past the command check ends in a conflict. */
  lemma IdenticalDuplicateConflicts(schedule: seq<Action>, c: ClientId, i: nat)
    requires var s := RunSchedule(schedule);
             && PhaseOf(s, c).Numbered? && i < |s.history|
             && s.history[i].CommandRequest? && s.history[i].app == PhaseOf(s, c).request.app
             && PhaseOf(s, c).request.CommandRequest? && s.history[i].command == PhaseOf(s, c).request.command
    ensures AnswersNow(RunSchedule(schedule), c, PhaseOf(RunSchedule(schedule), c).request, Err(Conflict))
  {
    ScheduleInv(schedule);
    DuplicateConflicts(RunSchedule(schedule), c, i);
  }
}
