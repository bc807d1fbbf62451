/**
 * The agent graph coupled to the workflow and to the workspace. Workers look at the
 * workflow, submit to it and save artifacts before their checkpoint commits; they may
 * fail after any of these, be resumed, and be interleaved with other clients of the
 * workflow. As long as nobody reopens the case, the workflow is never behind what the
 * completed workers require.
 */
module WorkflowCoupling {
  import opened Wrappers
  import opened MatchingSchema
  import opened WorkflowSchema
  import opened WorkflowService
  import opened WorkflowRepository
  import opened AuditLog
  import opened AgentSchema
  import opened AgentGraph
  import opened GraphInvariants
  import opened AgentWorkers

  /** How far the body of the current worker has come. */
  datatype Activity =
    | Idle
    | Begun
    | Loaded
    | Missing                          // saved, and found no workflow
    | Looked(seen: WorkflowRecord)     // saved, and found the workflow behind the target
    | Saved
    | Finished                         // ready to return its result
    | Broken                           // an exception is on its way out

  datatype World = World(store: Store, thread: Option<ThreadState>, artifacts: set<WorkerName>, activity: Activity)

  datatype Step =
    | Outside(request: Request)
    | StartThread
    | ResumeThread
    | MarkThread(op: Op)
    | BeginWorker
    | LoadInputs
    | SaveOutput
    | Look
    | CreateMissing(createdAt: Timestamp)
    | Submit(suggestion: SuggestionPayload, submittedAt: Timestamp)
    | Checkpoint(attempt: Attempt)
    | SendBackThread(restart: WorkerName)

  /** The application the thread belongs to, the graph that runs it and the actor its workers use. */
  datatype Setting = Setting(cfg: GraphConfig, app: AppId, actor: Actor)

  predicate ValidSetting(x: Setting) {
    ValidConfig(x.cfg) && x.cfg.order == FIXED_ORDER && PipelineRole in x.actor.roles
  }

  const EMPTY_WORLD := World(EMPTY_STORE, None, {}, Idle)

  /** After the workflow is there: done when the target is reached, to be submitted otherwise. */
  function AfterLook(w: WorkerName, seen: WorkflowRecord): Activity {
    if Target(w).Some? && Rank(seen.state) < Rank(Target(w).value) then Looked(seen) else Finished
  }

  function SubmissionOf(
    x: Setting, target: WorkflowState, seen: WorkflowRecord, payload: SuggestionPayload, now: Timestamp): Request
  {
    AdvanceRequest(x.app, target, seen.version, SuggestionFor(target, payload), x.actor, now)
  }

  /** One step of the current worker's body. */
  function BodyStep(x: Setting, world: World, s: ThreadState, step: Step): World {
    var w := s.current;
    match (step, world.activity)
    case (LoadInputs, Begun) => world.(activity := if Inputs(w) <= world.artifacts then Loaded else Broken)
    case (SaveOutput, Loaded) =>
      world.(artifacts := if SavesArtifact(w) then world.artifacts + {w} else world.artifacts,
             activity := if UsesWorkflow(w) then Saved else Finished)
    case (Look, Saved) =>
      if x.app in world.store.workflows then world.(activity := AfterLook(w, world.store.workflows[x.app]))
      else world.(activity := Missing)
    case (CreateMissing(now), Missing) =>
      var (store, response) := Execute(world.store, EnsureRequest(x.app, w, x.actor, now));
      world.(store := store, activity := if response.Ok? then AfterLook(w, response.value.workflow) else Broken)
    case (Submit(payload, now), Looked(seen)) =>
      if Target(w).None? then world
      else
        var (store, response) := Execute(world.store, SubmissionOf(x, Target(w).value, seen, payload, now));
        world.(store := store, activity := if response.Ok? then Finished else Broken)
    case _ => world
  }

  /** What the fixed workers return: evidence comes from the financial worker, and the guard passes none without. */
  predicate MayReturn(s: ThreadState, result: WorkerResult) {
    && (result.evidence.Some? ==> s.current == FinancialAnalysis)
    && (s.current == Guardrails ==> s.evidence != [])
  }

  /** A checkpoint may follow a failure at any point, but a success only a finished body. */
  predicate MayCheckpoint(x: Setting, world: World, s: ThreadState, a: Attempt) {
    var ending := AttemptEnding(x.cfg, s.current, a);
    && s.status.Running?
    && (world.activity.Idle? <==> Exhausted(x.cfg, s, s.current))
    && (ending.Returns? && !Exhausted(x.cfg, s, s.current) ==> world.activity.Finished? && MayReturn(s, ending.result))
  }

  /** The checkpoint after a step, the same one when the step escaped. */
  function AfterStep(s: ThreadState, r: StepResult): ThreadState {
    match r
    case Next(s', _) => s'
    case Escaped => s
  }

  predicate MayMark(op: Op) {
    (op.MarkTerminal? && op.status.Terminal()) || op.CompleteAfterWriteback? || op.MarkNeedsAttention?
      || op.MarkRetryable?
  }

  /** The status a thread can be rewound from. */
  predicate CanRewind(s: ThreadState) {
    s.status in {WaitingForReview, NeedsAttention}
  }

  /** Artifacts that an invalidation from w leaves. */
  function Before(artifacts: set<WorkerName>, w: WorkerName): set<WorkerName> {
    set v | v in artifacts && Place(v) < Place(w)
  }

  /** The runtime's send-back: artifacts are invalidated first, and only then the rewind looks at the status. */
  function SendThreadBack(x: Setting, world: World, s: ThreadState, w: WorkerName): World {
    if w == HumanReview || IndexOf(x.cfg.order, w) >= |x.cfg.order| then world
    else
      world.(artifacts := Before(world.artifacts, w),
             thread := Some(if CanRewind(s) then RewindState(x.cfg, s, IndexOf(x.cfg.order, w)) else s))
  }

  function ThreadStep(x: Setting, world: World, s: ThreadState, step: Step): World {
    match step
    case ResumeThread =>
      if world.activity.Idle? && CanResume(s) then world.(thread := Some(ResumeState(s))) else world
    case MarkThread(op) =>
      if world.activity.Idle? && MayMark(op) then world.(thread := Some(Marked(s, op))) else world
    case BeginWorker =>
      if world.activity.Idle? && s.status.Running? && !Exhausted(x.cfg, s, s.current) then world.(activity := Begun)
      else world
    case Checkpoint(a) =>
      if !MayCheckpoint(x, world, s, a) then world
      else world.(thread := Some(AfterStep(s, RunWorker(x.cfg, s, a))), activity := Idle)
    case SendBackThread(w) => SendThreadBack(x, world, s, w)
    case _ => BodyStep(x, world, s, step)
  }

  /** A step that is not possible leaves the world as it is. */
  function Take(x: Setting, world: World, step: Step): World
    requires x.cfg.order != []
  {
    match step
    case Outside(request) => world.(store := Execute(world.store, request).0)
    case StartThread => if world.thread.None? then world.(thread := Some(InitialState(x.app, x.cfg.order))) else world
    case _ => if world.thread.None? then world else ThreadStep(x, world, world.thread.value, step)
  }

  function RunSteps(x: Setting, steps: seq<Step>): World
    requires x.cfg.order != []
  {
    if steps == [] then EMPTY_WORLD
    else Take(x, RunSteps(x, steps[..|steps| - 1]), steps[|steps| - 1])
  }

  // ---- what other clients may do ----

  /** No reopening, and derived identifiers of this application only for the advance they are derived from. */
  predicate Polite(app: AppId, request: Request) {
    request.app == app ==>
      && (request.CommandRequest? ==> !request.command.operation.Reopen?)
      && (request.CommandKey().1.ForTarget? && request.CommandKey().1.targetApp == app ==>
            request.CommandRequest? && request.command.operation.Advance?
            && request.command.operation.target == request.CommandKey().1.target)
  }

  /** Polite requests, and no send-back. */
  predicate PoliteStep(app: AppId, step: Step) {
    (step.Outside? ==> Polite(app, step.request)) && !step.SendBackThread?
  }

  predicate PoliteSteps(app: AppId, steps: seq<Step>) {
    forall i :: 0 <= i < |steps| ==> PoliteStep(app, steps[i])
  }

  // ---- histories without a reopening ----

  /** Event i of a history without a reopening enters the state of rank i. */
  predicate Straight(log: seq<AuditEvent>, i: nat)
    requires i < |log|
  {
    log[i].action != ReopenAction && Rank(log[i].toState) == i
  }

  /** A recorded derived identifier moved the case to the target it is derived from. */
  predicate MovedToTarget(app: AppId, t: WorkflowState, commands: map<(AppId, CommandId), TransitionResult>) {
    (app, ForTarget(app, t)) in commands ==> commands[(app, ForTarget(app, t))].workflow.state == t
  }

  ghost predicate AllMoved(app: AppId, commands: map<(AppId, CommandId), TransitionResult>) {
    forall t: WorkflowState :: MovedToTarget(app, t, commands)
  }

  ghost predicate StraightStore(s: Store, app: AppId) {
    && Consistent(s)
    && (app in s.events ==> forall i :: 0 <= i < |s.events[app]| ==> Straight(s.events[app], i))
    && AllMoved(app, s.commands)
  }

  /** Without a reopening the version of a record is the rank of its state. */
  lemma VersionIsRank(s: Store, app: AppId)
    requires StraightStore(s, app) && app in s.workflows
    ensures s.Known(app) && s.workflows[app].version == Rank(s.workflows[app].state)
    ensures |s.events[app]| == s.workflows[app].version + 1
  {
    assert LogOk(app, s.workflows[app], s.events[app]);
    assert Straight(s.events[app], |s.events[app]| - 1);
  }

  lemma RecordedTargetIsReached(s: Store, app: AppId, t: WorkflowState)
    requires StraightStore(s, app) && (app, ForTarget(app, t)) in s.commands
    ensures app in s.workflows && Rank(s.workflows[app].state) >= Rank(t)
  {
    var key := (app, ForTarget(app, t));
    assert key.0 in s.workflows;
    VersionIsRank(s, app);
    assert LogOk(app, s.workflows[app], s.events[app]) && CommandsOk(app, s.events[app], s.commands);
    var result := s.commands[key];
    assert EventOf(s.events[app], ForTarget(app, t), result);
    assert MovedToTarget(app, t, s.commands);
    assert Straight(s.events[app], result.auditEvent.sequence - 1);
  }

  /** What an accepted transition does to the straight line. */
  lemma TransitionIsStraight(current: WorkflowRecord, sequence: nat, command: Command, actor: Actor, now: Timestamp)
    requires Guard(command, actor).None? && !command.operation.Reopen?
    requires Transition(current, sequence, command, actor, now).Ok?
    ensures var (workflow, event) := Transition(current, sequence, command, actor, now).value;
            && event.action != ReopenAction && event.toState == workflow.state
            && Rank(workflow.state) == Rank(current.state) + 1
            && (command.operation.Advance? ==> workflow.state == command.operation.target)
  {
  }

  lemma LogGrowsStraight(log: seq<AuditEvent>, event: AuditEvent, longer: seq<AuditEvent>)
    requires forall i :: 0 <= i < |log| ==> Straight(log, i)
    requires event.action != ReopenAction && Rank(event.toState) == |log| && longer == log + [event]
    ensures forall i :: 0 <= i < |longer| ==> Straight(longer, i)
  {
    forall i | 0 <= i < |longer|
      ensures Straight(longer, i)
    {
      if i < |log| {
        assert Straight(log, i);
      }
    }
  }

  lemma RecordedIsStraight(s: Store, app: AppId, id: CommandId, result: TransitionResult)
    requires StraightStore(s, app) && app in s.workflows && s.Known(app)
    requires result.auditEvent.action != ReopenAction && result.auditEvent.toState == result.workflow.state
    requires Rank(result.workflow.state) == Rank(s.workflows[app].state) + 1
    requires id.ForTarget? && id.targetApp == app ==> result.workflow.state == id.target
    requires Consistent(Recorded(s, app, id, result))
    ensures StraightStore(Recorded(s, app, id, result), app)
  {
    VersionIsRank(s, app);
    LogGrowsStraight(s.events[app], result.auditEvent, s.events[app] + [result.auditEvent]);
    TargetsStayMoved(s.commands, app, id, result, s.commands[(app, id) := result]);
  }

  lemma TargetsStayMoved(
    commands: map<(AppId, CommandId), TransitionResult>, app: AppId, id: CommandId, result: TransitionResult,
    commands': map<(AppId, CommandId), TransitionResult>)
    requires AllMoved(app, commands) && commands' == commands[(app, id) := result]
    requires id.ForTarget? && id.targetApp == app ==> result.workflow.state == id.target
    ensures AllMoved(app, commands')
  {
    forall t: WorkflowState
      ensures MovedToTarget(app, t, commands')
    {
      assert MovedToTarget(app, t, commands);
    }
  }

  lemma CreatedIsStraight(s: Store, app: AppId, actor: Actor, id: CommandId, reason: string, now: Timestamp)
    requires StraightStore(s, app) && app !in s.workflows && !(id.ForTarget? && id.targetApp == app)
    requires Consistent(Created(s, InitialRecord(app, now), CreateEvent(app, id, actor, reason, now)))
    ensures StraightStore(Created(s, InitialRecord(app, now), CreateEvent(app, id, actor, reason, now)), app)
  {
    var event := CreateEvent(app, id, actor, reason, now);
    var result := TransitionResult(InitialRecord(app, now), event);
    TargetsStayMoved(s.commands, app, id, result, s.commands[(app, id) := result]);
    assert Straight([event], 0);
  }

  lemma OtherAppKeepsStraight(s: Store, s': Store, app: AppId)
    requires StraightStore(s, app) && Consistent(s')
    requires app in s'.events <==> app in s.events
    requires app in s.events ==> s'.events[app] == s.events[app]
    requires forall id :: (app, id) in s'.commands ==>
        (app, id) in s.commands && s'.commands[(app, id)] == s.commands[(app, id)]
    ensures StraightStore(s', app)
  {
    forall t: WorkflowState
      ensures MovedToTarget(app, t, s'.commands)
    {
      assert MovedToTarget(app, t, s.commands);
    }
  }

  lemma CommandKeepsStraight(s: Store, app: AppId, request: Request)
    requires StraightStore(s, app) && Polite(app, request) && request.CommandRequest? && request.app == app
    ensures StraightStore(Execute(s, request).0, app)
  {
    ExecuteKeepsConsistent(s, request);
    var CommandRequest(_, actor, command, now) := request;
    if Guard(command, actor).None? && (app, command.id) !in s.commands && s.Known(app) {
      var outcome := Transition(s.workflows[app], |s.events[app]| + 1, command, actor, now);
      if outcome.Ok? {
        TransitionIsStraight(s.workflows[app], |s.events[app]| + 1, command, actor, now);
        RecordedIsStraight(s, app, command.id, TransitionResult(outcome.value.0, outcome.value.1));
      }
    }
  }

  /** Polite requests keep the history straight. */
  lemma PoliteKeepsStraight(s: Store, app: AppId, request: Request)
    requires StraightStore(s, app) && Polite(app, request)
    ensures StraightStore(Execute(s, request).0, app)
  {
    ExecuteKeepsConsistent(s, request);
    if request.app != app {
      OtherAppUntouched(s, app, request);
      OtherAppKeepsStraight(s, Execute(s, request).0, app);
    } else if request.CommandRequest? {
      CommandKeepsStraight(s, app, request);
    } else if PipelineRole in request.actor.roles && app !in s.workflows {
      CreatedIsStraight(s, app, request.actor, request.id, request.reason, request.now);
    }
  }

  lemma OtherAppUntouched(s: Store, app: AppId, request: Request)
    requires request.app != app
    ensures var s' := Execute(s, request).0;
            && (app in s'.events <==> app in s.events)
            && (app in s.events ==> s'.events[app] == s.events[app])
            && (forall id :: (app, id) in s'.commands ==>
                 (app, id) in s.commands && s'.commands[(app, id)] == s.commands[(app, id)])
  {
  }

  // ---- progress only grows ----

  /** The case exists and has reached the state of this rank. */
  predicate Reached(s: Store, app: AppId, rank: nat) {
    app in s.workflows && Rank(s.workflows[app].state) >= rank
  }

  /** A polite request never takes the case back. */
  lemma ReachedStays(s: Store, app: AppId, request: Request, rank: nat)
    requires StraightStore(s, app) && Polite(app, request) && Reached(s, app, rank)
    ensures StraightStore(Execute(s, request).0, app) && Reached(Execute(s, request).0, app, rank)
  {
    PoliteKeepsStraight(s, app, request);
    ExecuteIsAppendOnly(s, request, app);
    VersionIsRank(s, app);
    VersionIsRank(Execute(s, request).0, app);
  }

  // ---- the coupling invariant ----

  /** The lasting effects of a worker are in place. */
  predicate Effective(x: Setting, world: World, w: WorkerName) {
    && (SavesArtifact(w) ==> w in world.artifacts)
    && (UsesWorkflow(w) ==> Reached(world.store, x.app, if Target(w).Some? then Rank(Target(w).value) else 0))
  }

  ghost predicate ActivityOk(x: Setting, world: World, w: WorkerName) {
    match world.activity
    case Idle => true
    case Begun => true
    case Loaded => true
    case Broken => true
    case Saved => UsesWorkflow(w) && (SavesArtifact(w) ==> w in world.artifacts)
    case Missing => UsesWorkflow(w) && (SavesArtifact(w) ==> w in world.artifacts)
    case Looked(seen) =>
      && (SavesArtifact(w) ==> w in world.artifacts)
      && Target(w).Some?
      && PipelineTarget(seen.state) == Some(Target(w).value)
      && seen.version == Rank(seen.state)
      && Reached(world.store, x.app, Rank(seen.state))
    case Finished => Effective(x, world, w)
  }

  ghost predicate CompletedEffective(x: Setting, world: World, s: ThreadState) {
    forall w :: w in s.completed ==> Effective(x, world, w)
  }

  ghost predicate Coupled(x: Setting, world: World) {
    && StraightStore(world.store, x.app)
    && (world.thread.Some? ==>
          && StateOk(x.cfg, world.thread.value)
          && CompletedEffective(x, world, world.thread.value)
          && ActivityOk(x, world, world.thread.value.current))
    && (world.thread.None? ==> world.activity.Idle?)
  }

  /** Every worker before the current one is completed. */
  lemma EarlierIsCompleted(x: Setting, s: ThreadState, v: WorkerName)
    requires ValidSetting(x) && StateOk(x.cfg, s) && Place(v) < Place(s.current)
    ensures v in s.completed
  {
    assert FIXED_ORDER[Place(v)] == v;
    var k := |s.completed|;
    if s.pending != [] {
      assert FIXED_ORDER[k] == s.current;
      assert Place(FIXED_ORDER[k]) == k;
      assert s.completed[Place(v)] == FIXED_ORDER[Place(v)];
    } else {
      assert s.completed == FIXED_ORDER;
    }
  }

  /** A worker's inputs are there when its body begins. */
  lemma InputsArePresent(x: Setting, world: World)
    requires ValidSetting(x) && Coupled(x, world) && world.thread.Some?
    ensures Inputs(world.thread.value.current) <= world.artifacts
  {
    var s := world.thread.value;
    forall v | v in Inputs(s.current)
      ensures v in world.artifacts
    {
      EarlierIsCompleted(x, s, v);
      assert Effective(x, world, v);
    }
  }

  /** Rank every worker finds the workflow at, once it exists. */
  function RankBefore(w: WorkerName): nat {
    if Target(w).Some? then Rank(Target(w).value) - 1 else 0
  }

  /** The completed workers have brought the case to the state just before the current worker's target. */
  lemma JustBeforeTarget(x: Setting, world: World)
    requires ValidSetting(x) && Coupled(x, world) && world.thread.Some? && UsesWorkflow(world.thread.value.current)
    ensures world.thread.value.current != DocumentProcessing ==>
              Reached(world.store, x.app, RankBefore(world.thread.value.current))
  {
    var s := world.thread.value;
    match s.current
    case DocumentProcessing =>
    case FinancialAnalysis => EarlierIsEffective(x, world, DocumentProcessing);
    case Eligibility => EarlierIsEffective(x, world, FinancialAnalysis);
    case Suggestion => EarlierIsEffective(x, world, Eligibility);
    case HumanReview => EarlierIsEffective(x, world, Suggestion);
  }

  lemma EarlierIsEffective(x: Setting, world: World, v: WorkerName)
    requires ValidSetting(x) && Coupled(x, world) && world.thread.Some? && Place(v) < Place(world.thread.value.current)
    ensures Effective(x, world, v)
  {
    EarlierIsCompleted(x, world.thread.value, v);
  }

  // ---- preservation ----

  /** A polite request keeps the coupling. */
  lemma RequestKeepsCoupling(x: Setting, world: World, request: Request)
    requires Coupled(x, world) && Polite(x.app, request)
    ensures Coupled(x, world.(store := Execute(world.store, request).0))
  {
    var world' := world.(store := Execute(world.store, request).0);
    PoliteKeepsStraight(world.store, x.app, request);
    if world.thread.Some? {
      forall w | Effective(x, world, w)
        ensures Effective(x, world', w)
      {
        EffectiveStays(x, world, request, w);
      }
      if world.activity.Looked? {
        ReachedStays(world.store, x.app, request, Rank(world.activity.seen.state));
      }
    }
  }

  lemma EffectiveStays(x: Setting, world: World, request: Request, w: WorkerName)
    requires StraightStore(world.store, x.app) && Polite(x.app, request) && Effective(x, world, w)
    ensures Effective(x, world.(store := Execute(world.store, request).0), w)
  {
    if UsesWorkflow(w) {
      ReachedStays(world.store, x.app, request, if Target(w).Some? then Rank(Target(w).value) else 0);
    }
  }

  lemma LoadKeepsCoupling(x: Setting, world: World)
    requires ValidSetting(x) && Coupled(x, world) && world.thread.Some? && world.activity.Begun?
    ensures Coupled(x, BodyStep(x, world, world.thread.value, LoadInputs))
    ensures BodyStep(x, world, world.thread.value, LoadInputs).activity.Loaded?
  {
    InputsArePresent(x, world);
    ActivityChange(x, world, world.thread.value, Loaded);
  }

  lemma SaveKeepsCoupling(x: Setting, world: World)
    requires ValidSetting(x) && Coupled(x, world) && world.thread.Some? && world.activity.Loaded?
    ensures Coupled(x, BodyStep(x, world, world.thread.value, SaveOutput))
  {
    var world' := BodyStep(x, world, world.thread.value, SaveOutput);
    forall w | w in world.thread.value.completed
      ensures Effective(x, world', w)
    {
      assert Effective(x, world, w);
    }
  }

  lemma LookKeepsCoupling(x: Setting, world: World)
    requires ValidSetting(x) && Coupled(x, world) && world.thread.Some? && world.activity.Saved?
    ensures Coupled(x, BodyStep(x, world, world.thread.value, Look))
  {
    if x.app in world.store.workflows {
      LookedAtRecord(x, world, world.thread.value);
    } else {
      ActivityChange(x, world, world.thread.value, Missing);
    }
  }

  /** What a look at the record itself leads to. */
  lemma LookedRight(x: Setting, world: World, w: WorkerName)
    requires x.app in world.store.workflows && UsesWorkflow(w) && (SavesArtifact(w) ==> w in world.artifacts)
    requires world.activity == AfterLook(w, world.store.workflows[x.app])
    requires world.store.workflows[x.app].version == Rank(world.store.workflows[x.app].state)
    requires w != DocumentProcessing ==> Reached(world.store, x.app, RankBefore(w))
    ensures ActivityOk(x, world, w)
  {
  }

  lemma OwnRequestsArePolite(
    x: Setting, w: WorkerName, target: WorkflowState, seen: WorkflowRecord, payload: SuggestionPayload, now: Timestamp)
    ensures Polite(x.app, EnsureRequest(x.app, w, x.actor, now))
    ensures Polite(x.app, SubmissionOf(x, target, seen, payload, now))
  {
  }

  /** A created case is the initial record. */
  lemma CreatedAnswer(s: Store, request: Request)
    requires request.CreateRequest? && Execute(s, request).1.Ok?
    ensures request.app in Execute(s, request).0.workflows
    ensures Execute(s, request).1.value.workflow == Execute(s, request).0.workflows[request.app]
  {
  }

  /** The world after a create, read off the store. */
  function CreatedWorld(x: Setting, world: World, s: ThreadState, now: Timestamp): World {
    var (store, response) := Execute(world.store, EnsureRequest(x.app, s.current, x.actor, now));
    World(store, world.thread, world.artifacts,
          if response.Ok? && x.app in store.workflows then AfterLook(s.current, store.workflows[x.app]) else Broken)
  }

  lemma CreateLeads(x: Setting, world: World, s: ThreadState, now: Timestamp)
    requires world.activity.Missing?
    ensures BodyStep(x, world, s, CreateMissing(now)) == CreatedWorld(x, world, s, now)
  {
    if Execute(world.store, EnsureRequest(x.app, s.current, x.actor, now)).1.Ok? {
      CreatedAnswer(world.store, EnsureRequest(x.app, s.current, x.actor, now));
    }
  }

  lemma CreateKeepsCoupling(x: Setting, world: World, now: Timestamp)
    requires ValidSetting(x) && Coupled(x, world) && world.thread.Some? && world.activity.Missing?
    ensures Coupled(x, BodyStep(x, world, world.thread.value, CreateMissing(now)))
  {
    var s := world.thread.value;
    var request := EnsureRequest(x.app, s.current, x.actor, now);
    OwnRequestsArePolite(x, s.current, Intake, InitialRecord(x.app, now), EmptyPayload, now);
    RequestKeepsCoupling(x, world, request);
    var between := world.(store := Execute(world.store, request).0);
    CreateLeads(x, world, s, now);
    if Execute(world.store, request).1.Ok? {
      CreatedAnswer(world.store, request);
      LookedAtRecord(x, between, s);
    } else {
      ActivityChange(x, between, s, Broken);
    }
  }

  lemma LookedAtRecord(x: Setting, world: World, s: ThreadState)
    requires ValidSetting(x) && Coupled(x, world) && world.thread == Some(s) && x.app in world.store.workflows
    requires world.activity.Missing? || world.activity.Saved?
    ensures Coupled(x, world.(activity := AfterLook(s.current, world.store.workflows[x.app])))
  {
    VersionIsRank(world.store, x.app);
    JustBeforeTarget(x, world);
    LookedRight(x, world.(activity := AfterLook(s.current, world.store.workflows[x.app])), s.current);
    ActivityChange(x, world, s, AfterLook(s.current, world.store.workflows[x.app]));
  }

  /** Changing the activity to one that is right keeps the coupling. */
  lemma ActivityChange(x: Setting, world: World, s: ThreadState, activity: Activity)
    requires Coupled(x, world) && world.thread == Some(s)
    requires ActivityOk(x, world.(activity := activity), s.current)
    ensures Coupled(x, world.(activity := activity))
  {
    var world' := world.(activity := activity);
    forall w | Effective(x, world, w)
      ensures Effective(x, world', w)
    {
    }
  }

  /**
   * A submission is never refused as an illegal jump: it is accepted, and the case has
   * then reached the target, or it conflicts because someone else moved the case since
   * the look. It is accepted exactly when the version still matches or an earlier
   * submission of this thread was recorded.
   */
  lemma SubmissionNeverJumps(x: Setting, world: World, payload: SuggestionPayload, now: Timestamp)
    requires ValidSetting(x) && Coupled(x, world) && world.thread.Some? && world.activity.Looked?
    ensures Target(world.thread.value.current).Some?
    ensures var target := Target(world.thread.value.current).value;
            var seen := world.activity.seen;
            var (store, response) := Execute(world.store, SubmissionOf(x, target, seen, payload, now));
            && x.app in world.store.workflows
            && PipelineTarget(seen.state) == Some(target)
            && (response.Ok? ==> Reached(store, x.app, Rank(target)))
            && (response.Err? ==> response == Err(Conflict))
            && (response.Ok? <==> world.store.workflows[x.app].version == seen.version
                                  || (x.app, ForTarget(x.app, target)) in world.store.commands)
  {
    var w := world.thread.value.current;
    var target, seen := Target(w).value, world.activity.seen;
    VersionIsRank(world.store, x.app);
    if (x.app, ForTarget(x.app, target)) in world.store.commands {
      RecordedTargetIsReached(world.store, x.app, target);
      RecordedSubmission(world.store, x.app, target, seen.version, SuggestionFor(target, payload), x.actor, now);
    } else {
      SameRankSameState(world.store.workflows[x.app].state, seen.state);
      FreshSubmission(world.store, x.app, target, seen.version, SuggestionFor(target, payload), x.actor, now);
    }
  }

  lemma SameRankSameState(a: WorkflowState, b: WorkflowState)
    ensures Rank(a) == Rank(b) <==> a == b
  {
  }

  lemma SubmitLeads(x: Setting, world: World, s: ThreadState, payload: SuggestionPayload, now: Timestamp)
    requires world.activity.Looked? && Target(s.current).Some?
    ensures var (store, response) :=
        Execute(world.store, SubmissionOf(x, Target(s.current).value, world.activity.seen, payload, now));
            BodyStep(x, world, s, Submit(payload, now))
              == World(store, world.thread, world.artifacts, if response.Ok? then Finished else Broken)
  {
  }

  lemma SubmitKeepsCoupling(x: Setting, world: World, payload: SuggestionPayload, now: Timestamp)
    requires ValidSetting(x) && Coupled(x, world) && world.thread.Some? && world.activity.Looked?
    ensures Coupled(x, BodyStep(x, world, world.thread.value, Submit(payload, now)))
  {
    var s := world.thread.value;
    SubmissionNeverJumps(x, world, payload, now);
    var target, seen := Target(s.current).value, world.activity.seen;
    var request := SubmissionOf(x, target, seen, payload, now);
    OwnRequestsArePolite(x, s.current, target, seen, payload, now);
    RequestKeepsCoupling(x, world, request);
    SubmitLeads(x, world, s, payload, now);
    ActivityChange(x, world.(store := Execute(world.store, request).0), s,
      if Execute(world.store, request).1.Ok? then Finished else Broken);
  }

  lemma BodyStepKeepsCoupling(x: Setting, world: World, step: Step)
    requires ValidSetting(x) && Coupled(x, world) && world.thread.Some?
    ensures Coupled(x, BodyStep(x, world, world.thread.value, step))
  {
    match (step, world.activity)
    case (LoadInputs, Begun) => LoadKeepsCoupling(x, world);
    case (SaveOutput, Loaded) => SaveKeepsCoupling(x, world);
    case (Look, Saved) => LookKeepsCoupling(x, world);
    case (CreateMissing(now), Missing) => CreateKeepsCoupling(x, world, now);
    case (Submit(payload, now), Looked(seen)) => SubmitKeepsCoupling(x, world, payload, now);
    case _ =>
  }

  /** A worker is completed by a step only if its body returned. */
  lemma StepCompletesCurrent(cfg: GraphConfig, s: ThreadState, a: Attempt)
    requires RunWorker(cfg, s, a).Next?
    ensures var s' := RunWorker(cfg, s, a).state;
            || s'.completed == s.completed
            || (s'.completed == s.completed + [s.current] && AttemptEnding(cfg, s.current, a).Returns?
                 && !Exhausted(cfg, s, s.current))
  {
  }

  /** A checkpoint that completes the current worker only after its body finished keeps the coupling. */
  lemma CheckpointRight(x: Setting, world: World, s: ThreadState, s': ThreadState)
    requires Coupled(x, world) && world.thread == Some(s) && StateOk(x.cfg, s')
    requires s'.completed == s.completed || (s'.completed == s.completed + [s.current] && world.activity.Finished?)
    ensures Coupled(x, world.(thread := Some(s'), activity := Idle))
  {
    var world' := world.(thread := Some(s'), activity := Idle);
    forall w | w in s'.completed
      ensures Effective(x, world', w)
    {
      assert Effective(x, world, w);
    }
  }

  lemma AfterStepRight(x: Setting, world: World, s: ThreadState, a: Attempt)
    requires ValidSetting(x) && StateOk(x.cfg, s) && MayCheckpoint(x, world, s, a)
    ensures var s' := AfterStep(s, RunWorker(x.cfg, s, a));
            && StateOk(x.cfg, s')
            && (s'.completed == s.completed || (s'.completed == s.completed + [s.current] && world.activity.Finished?))
  {
    if RunWorker(x.cfg, s, a).Next? {
      RunWorkerKeepsState(x.cfg, s, a);
      StepCompletesCurrent(x.cfg, s, a);
    }
  }

  lemma CheckpointKeepsCoupling(x: Setting, world: World, a: Attempt)
    requires ValidSetting(x) && Coupled(x, world) && world.thread.Some?
    requires MayCheckpoint(x, world, world.thread.value, a)
    ensures Coupled(x, ThreadStep(x, world, world.thread.value, Checkpoint(a)))
  {
    var s := world.thread.value;
    AfterStepRight(x, world, s, a);
    CheckpointRight(x, world, s, AfterStep(s, RunWorker(x.cfg, s, a)));
  }

  lemma StatusChangeKeepsCoupling(x: Setting, world: World, s': ThreadState)
    requires Coupled(x, world) && world.thread.Some? && world.activity.Idle? && StateOk(x.cfg, s')
    requires s'.completed == world.thread.value.completed && s'.current == world.thread.value.current
    ensures Coupled(x, world.(thread := Some(s')))
  {
    var world' := world.(thread := Some(s'));
    forall w | w in s'.completed
      ensures Effective(x, world', w)
    {
      assert Effective(x, world, w);
    }
  }

  lemma MarkedStateOk(cfg: GraphConfig, s: ThreadState, op: Op)
    requires StateOk(cfg, s)
    requires MayMark(op)
    ensures StateOk(cfg, Marked(s, op))
  {
  }

  lemma ThreadStepKeepsCoupling(x: Setting, world: World, step: Step)
    requires ValidSetting(x) && Coupled(x, world) && world.thread.Some? && !step.SendBackThread?
    ensures Coupled(x, ThreadStep(x, world, world.thread.value, step))
  {
    var s := world.thread.value;
    match step
    case ResumeThread =>
      if world.activity.Idle? && CanResume(s) {
        StatusChangeKeepsCoupling(x, world, ResumeState(s));
      }
    case MarkThread(op) =>
      if world.activity.Idle? && MayMark(op) {
        MarkedStateOk(x.cfg, s, op);
        StatusChangeKeepsCoupling(x, world, Marked(s, op));
      }
    case BeginWorker =>
      ActivityChange(x, world, s, Begun);
    case Checkpoint(a) =>
      if MayCheckpoint(x, world, s, a) {
        CheckpointKeepsCoupling(x, world, a);
      }
    case _ => BodyStepKeepsCoupling(x, world, step);
  }

  /** Every step, whatever fails and whoever else is polite, keeps the coupling. */
  lemma TakeKeepsCoupling(x: Setting, world: World, step: Step)
    requires ValidSetting(x) && Coupled(x, world) && PoliteStep(x.app, step)
    ensures Coupled(x, Take(x, world, step))
  {
    match step
    case Outside(request) => RequestKeepsCoupling(x, world, request);
    case StartThread =>
      if world.thread.None? {
        InitialStateOk(x.cfg, x.app);
      }
    case _ =>
      if world.thread.Some? {
        ThreadStepKeepsCoupling(x, world, step);
      }
  }

  lemma {:induction false} EveryRunIsCoupled(x: Setting, steps: seq<Step>)
    requires ValidSetting(x) && PoliteSteps(x.app, steps)
    ensures Coupled(x, RunSteps(x, steps))
  {
    if steps != [] {
      EveryRunIsCoupled(x, steps[..|steps| - 1]);
      TakeKeepsCoupling(x, RunSteps(x, steps[..|steps| - 1]), steps[|steps| - 1]);
    }
  }

  // ---- what the coupling gives over every run ----

  /** The workflow is never behind a completed worker, and the worker's artifact is stored. */
  lemma WorkflowIsNeverBehind(x: Setting, steps: seq<Step>, w: WorkerName)
    requires ValidSetting(x) && PoliteSteps(x.app, steps)
    requires RunSteps(x, steps).thread.Some? && w in RunSteps(x, steps).thread.value.completed
    ensures var world := RunSteps(x, steps);
            && (SavesArtifact(w) ==> w in world.artifacts)
            && x.app in world.store.workflows
            && (Target(w).Some? ==> Rank(world.store.workflows[x.app].state) >= Rank(Target(w).value))
  {
    EveryRunIsCoupled(x, steps);
    var world := RunSteps(x, steps);
    var s := world.thread.value;
    assert Effective(x, world, w);
    assert s.completed[0] == FIXED_ORDER[0] == DocumentProcessing;
    assert Effective(x, world, DocumentProcessing);
  }

  lemma ReviewCompletedLast(x: Setting, s: ThreadState)
    requires ValidSetting(x) && StateOk(x.cfg, s) && s.status.WaitingForReview?
    ensures HumanReview in s.completed
  {
    assert s.completed == FIXED_ORDER;
    assert s.completed[6] == HumanReview;
  }

  lemma AwaitingOrLater(state: WorkflowState)
    requires Rank(state) >= Rank(AwaitingHuman)
    ensures state in {AwaitingHuman, HumanDecided, PrecedentWritten}
  {
  }

  /** A thread that waits for review has a workflow that awaits, or already has, a human decision. */
  lemma ReviewMeansAwaitingHuman(x: Setting, steps: seq<Step>)
    requires ValidSetting(x) && PoliteSteps(x.app, steps)
    requires RunSteps(x, steps).thread.Some? && RunSteps(x, steps).thread.value.status.WaitingForReview?
    ensures var world := RunSteps(x, steps);
            x.app in world.store.workflows
              && world.store.workflows[x.app].state in {AwaitingHuman, HumanDecided, PrecedentWritten}
  {
    EveryRunIsCoupled(x, steps);
    var world := RunSteps(x, steps);
    ReviewCompletedLast(x, world.thread.value);
    assert Effective(x, world, HumanReview);
    AwaitingOrLater(world.store.workflows[x.app].state);
  }

  /** No advance is ever attempted from a state that does not lead to its target. */
  lemma NoIllegalJump(x: Setting, steps: seq<Step>, payload: SuggestionPayload, now: Timestamp)
    requires ValidSetting(x) && PoliteSteps(x.app, steps)
    requires RunSteps(x, steps).thread.Some? && RunSteps(x, steps).activity.Looked?
    ensures var world := RunSteps(x, steps);
            var w := world.thread.value.current;
            && Target(w).Some?
            && var (store, response) :=
                 Execute(world.store, SubmissionOf(x, Target(w).value, world.activity.seen, payload, now));
            && (response.Ok? ==> Reached(store, x.app, Rank(Target(w).value)))
            && (response.Err? ==>
                  response == Err(Conflict) && world.store.workflows[x.app].version != world.activity.seen.version)
  {
    EveryRunIsCoupled(x, steps);
    SubmissionNeverJumps(x, RunSteps(x, steps), payload, now);
  }

  /** Each workflow state is entered at most once, in rank order, and so is audited at most once. */
  lemma TransitionsAreAuditedOnce(x: Setting, steps: seq<Step>, i: nat)
    requires ValidSetting(x) && PoliteSteps(x.app, steps)
    requires x.app in RunSteps(x, steps).store.events && i < |RunSteps(x, steps).store.events[x.app]|
    ensures var store := RunSteps(x, steps).store;
            && Rank(store.events[x.app][i].toState) == i
            && x.app in store.workflows
            && |store.events[x.app]| == Rank(store.workflows[x.app].state) + 1
  {
    EveryRunIsCoupled(x, steps);
    var store := RunSteps(x, steps).store;
    assert x.app in store.workflows;
    VersionIsRank(store, x.app);
    assert Straight(store.events[x.app], i);
  }

  /** A begun body never breaks for want of an input. */
  lemma BodiesFindTheirInputs(x: Setting, steps: seq<Step>)
    requires ValidSetting(x) && PoliteSteps(x.app, steps)
    requires RunSteps(x, steps).thread.Some? && RunSteps(x, steps).activity.Begun?
    ensures Take(x, RunSteps(x, steps), LoadInputs).activity.Loaded?
  {
    EveryRunIsCoupled(x, steps);
    LoadKeepsCoupling(x, RunSteps(x, steps));
  }

  /**
   * Politeness is needed: once a client has used a derived identifier for something
   * else, the worker's advance is answered with that and the case stays behind.
   */
  lemma ForeignUseOfDerivedIdentifier(app: AppId, client: Actor, actor: Actor, reason: string, now: Timestamp)
    requires PipelineRole in client.roles && PipelineRole in actor.roles
    ensures var request := CreateRequest(app, client, ForTarget(app, Extracted), reason, now);
            var s := Execute(EMPTY_STORE, request).0;
            && !Polite(app, request)
            && Advanced(s, app, FinancialAnalysis, Extracted, None, actor, now) == (s, Ok(InitialRecord(app, now)))
            && !Reached(s, app, Rank(Extracted))
  {
  }
}
