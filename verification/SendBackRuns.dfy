/**
 * Send-backs on the graph itself: the second pass as steps of the worker bodies on the
 * rewound checkpoint, when it reaches review, and what becomes of a thread whose
 * send-back is refused.
 */
module SendBackRuns {
  import opened Collections
  import opened Wrappers
  import opened MatchingSchema
  import opened WorkflowSchema
  import opened WorkflowService
  import opened WorkflowRepository
  import opened AuditLog
  import opened AgentSchema
  import opened AgentGraph
  import opened GraphInvariants
  import opened GraphTheorems
  import opened AgentWorkers
  import opened WorkflowCoupling
  import opened SendBack
  import opened ReviewArtifacts

  // ---- continuations ----

  function Onwards(x: Setting, world: World, more: seq<Step>): World
    requires x.cfg.order != []
    decreases |more|
  {
    if more == [] then world else Onwards(x, Take(x, world, more[0]), more[1..])
  }

  lemma {:induction false} OnwardsTwice(x: Setting, world: World, a: seq<Step>, b: seq<Step>)
    requires x.cfg.order != []
    ensures Onwards(x, world, a + b) == Onwards(x, Onwards(x, world, a), b)
    decreases |a|
  {
    if a == [] {
      assert a + b == b;
    } else {
      assert (a + b)[0] == a[0] && (a + b)[1..] == a[1..] + b;
      OnwardsTwice(x, Take(x, world, a[0]), a[1..], b);
    }
  }

  /** A continued run is a run. */
  lemma {:induction false} RunOnwards(x: Setting, steps: seq<Step>, more: seq<Step>)
    requires x.cfg.order != []
    ensures Onwards(x, RunSteps(x, steps), more) == RunSteps(x, steps + more)
    decreases |more|
  {
    if more == [] {
      assert steps + more == steps;
    } else {
      assert (steps + [more[0]])[..|steps|] == steps;
      assert steps + more == (steps + [more[0]]) + more[1..];
      RunOnwards(x, steps + [more[0]], more[1..]);
    }
  }

  lemma OneOnwards(x: Setting, world: World, a: Step)
    requires x.cfg.order != []
    ensures Onwards(x, world, [a]) == Take(x, world, a)
  {
    assert [a][1..] == [];
  }

  lemma ThreeOnwards(x: Setting, world: World, a: Step, b: Step, c: Step)
    requires x.cfg.order != []
    ensures Onwards(x, world, [a, b, c]) == Take(x, Take(x, Take(x, world, a), b), c)
  {
    OnwardsTwice(x, world, [a], [b, c]);
    OnwardsTwice(x, Take(x, world, a), [b], [c]);
    assert [a] + [b, c] == [a, b, c] && [b] + [c] == [b, c];
    OneOnwards(x, world, a);
    OneOnwards(x, Take(x, world, a), b);
    OneOnwards(x, Take(x, Take(x, world, a), b), c);
  }

  // ---- one body without interference ----

  const PAYLOAD := OpaquePayload(0)
  const REFERENCE := EvidenceReference(DscrMetric, "1", Citation("doc", 1, BoundingBox(0.0, 0.0, 1.0, 1.0)))

  /** A body that succeeds; the financial worker's comes with evidence. */
  function Delivers(w: WorkerName): Attempt {
    var evidence := if w == FinancialAnalysis then Some([REFERENCE]) else None;
    Attempt([], Returns(WorkerResult(w, 0, None, evidence, None, None, None, [])),
            TOOL_NOT_PERMITTED, 0.0)
  }

  const LOADING: seq<Step> := [BeginWorker, LoadInputs, SaveOutput]
  const CALLING: seq<Step> := [Look, CreateMissing(0), Submit(PAYLOAD, 0)]

  /** The thread stands before the body of its current worker, which has an attempt left and its inputs. */
  predicate Set(x: Setting, world: World) {
    && world.thread.Some? && world.activity.Idle?
    && var s := world.thread.value;
       && StateOk(x.cfg, s) && s.status.Running? && s.pending != [] && !Exhausted(x.cfg, s, s.current)
       && Inputs(s.current) <= world.artifacts && (s.current == WorkerName.Guardrails ==> s.evidence != [])
  }

  function WithOutput(artifacts: set<WorkerName>, w: WorkerName): set<WorkerName> {
    if SavesArtifact(w) then artifacts + {w} else artifacts
  }

  lemma BodyLoads(x: Setting, world: World)
    requires x.cfg.order != [] && Set(x, world)
    ensures var w := world.thread.value.current;
            Onwards(x, world, LOADING)
            == world.(artifacts := WithOutput(world.artifacts, w),
                      activity := if UsesWorkflow(w) then Saved else Finished)
  {
    ThreeOnwards(x, world, BeginWorker, LoadInputs, SaveOutput);
  }

  /** What the calls of a body that saved its artifact leave. */
  function Called(x: Setting, world: World, w: WorkerName): World {
    var (store, ok) := WorkerCalls(world.store, x.app, w, PAYLOAD, x.actor, 0);
    world.(store := store, activity := if ok then Finished else Broken)
  }

  lemma LookFinds(x: Setting, world: World, s: ThreadState)
    requires x.cfg.order != [] && world.thread == Some(s) && world.activity.Saved? && UsesWorkflow(s.current)
    ensures var w1 := Take(x, Take(x, world, Look), CreateMissing(0));
            var (store, answer) := Ensured(world.store, x.app, s.current, x.actor, 0);
            w1 == world.(store := store, activity := if answer.Ok? then AfterLook(s.current, answer.value) else Broken)
  {
  }

  lemma SubmitCalls(x: Setting, world: World, s: ThreadState)
    requires x.cfg.order != [] && world.thread == Some(s) && world.activity.Saved? && UsesWorkflow(s.current)
    ensures Take(x, Take(x, Take(x, world, Look), CreateMissing(0)), Submit(PAYLOAD, 0)) == Called(x, world, s.current)
  {
    LookFinds(x, world, s);
  }

  lemma BodyCalls(x: Setting, world: World)
    requires x.cfg.order != [] && world.thread.Some?
    requires world.activity == (if UsesWorkflow(world.thread.value.current) then Saved else Finished)
    ensures Onwards(x, world, CALLING) == Called(x, world, world.thread.value.current)
  {
    var s := world.thread.value;
    ThreeOnwards(x, world, Look, CreateMissing(0), Submit(PAYLOAD, 0));
    if UsesWorkflow(s.current) {
      SubmitCalls(x, world, s);
    }
  }

  function BodyOf(w: WorkerName): seq<Step> {
    LOADING + CALLING + [Checkpoint(Delivers(w))]
  }

  /** The checkpoint after a delivered step of the current worker. */
  predicate Delivered(s: ThreadState, s': ThreadState) {
    && s'.completed == s.completed + [s.current] && s.pending != [] && s'.pending == s.pending[1..]
    && s'.status == (if s'.pending != [] then Running else WaitingForReview)
    && (forall w: WorkerName :: s'.AttemptsOf(w) == s.AttemptsOf(w) + (if w == s.current then 1 else 0))
    && s'.evidence == (if s.current == FinancialAnalysis then [REFERENCE] else s.evidence)
  }

  lemma DeliveredStep(x: Setting, s: ThreadState)
    requires ValidSetting(x) && StateOk(x.cfg, s) && s.pending != [] && !Exhausted(x.cfg, s, s.current)
    ensures var r := RunWorker(x.cfg, s, Delivers(s.current));
            && r.Next? && StateOk(x.cfg, r.state) && Delivered(s, r.state)
            && AttemptEnding(x.cfg, s.current, Delivers(s.current)) == Delivers(s.current).ending
  {
    var script := (w: WorkerName) => Delivers(w);
    assert Passes(x.cfg, s, s.current, script);
    PassingStep(x.cfg, s, script);
    StepAccounts(x.cfg, s, Delivers(s.current));
    StepCompletesCurrent(x.cfg, s, Delivers(s.current));
  }

  lemma MayDeliver(x: Setting, world: World, s: ThreadState)
    requires s.status.Running? && world.activity.Finished? && !Exhausted(x.cfg, s, s.current)
    requires s.current == WorkerName.Guardrails ==> s.evidence != []
    requires AttemptEnding(x.cfg, s.current, Delivers(s.current)) == Delivers(s.current).ending
    ensures MayCheckpoint(x, world, s, Delivers(s.current))
  {
  }

  lemma BodyReturns(x: Setting, world: World, s: ThreadState)
    requires ValidSetting(x) && StateOk(x.cfg, s) && s.pending != [] && !Exhausted(x.cfg, s, s.current)
    requires world.thread == Some(s) && s.status.Running? && world.activity.Finished?
    requires s.current == WorkerName.Guardrails ==> s.evidence != []
    ensures var world' := Take(x, world, Checkpoint(Delivers(s.current)));
            && world'.thread.Some? && StateOk(x.cfg, world'.thread.value) && Delivered(s, world'.thread.value)
            && world' == World(world.store, world'.thread, world.artifacts, Idle)
  {
    DeliveredStep(x, s);
    MayDeliver(x, world, s);
  }

  lemma BodyUnfolds(x: Setting, world: World, w: WorkerName)
    requires x.cfg.order != []
    ensures Onwards(x, world, BodyOf(w))
        == Take(x, Onwards(x, Onwards(x, world, LOADING), CALLING), Checkpoint(Delivers(w)))
  {
    OnwardsTwice(x, world, LOADING + CALLING, [Checkpoint(Delivers(w))]);
    OnwardsTwice(x, world, LOADING, CALLING);
    OneOnwards(x, Onwards(x, Onwards(x, world, LOADING), CALLING), Checkpoint(Delivers(w)));
  }

  /** What an undisturbed body leaves: the delivered checkpoint, the saved artifact and the workflow calls. */
  lemma BodyRuns(x: Setting, world: World)
    requires ValidSetting(x) && Set(x, world)
    requires WorkerCalls(world.store, x.app, world.thread.value.current, PAYLOAD, x.actor, 0).1
    ensures var s, world' := world.thread.value, Onwards(x, world, BodyOf(world.thread.value.current));
            && world'.thread.Some? && world'.activity.Idle?
            && StateOk(x.cfg, world'.thread.value) && Delivered(s, world'.thread.value)
            && world'.store == WorkerCalls(world.store, x.app, s.current, PAYLOAD, x.actor, 0).0
            && world'.artifacts == WithOutput(world.artifacts, s.current)
  {
    var s := world.thread.value;
    var loaded := Onwards(x, world, LOADING);
    BodyLoads(x, world);
    BodyCalls(x, loaded);
    BodyReturns(x, Called(x, loaded, s.current), s);
    BodyUnfolds(x, world, s.current);
  }

  // ---- one worker after another ----

  function PassOf(workers: seq<WorkerName>): seq<Step>
    decreases |workers|
  {
    if workers == [] then [] else BodyOf(workers[0]) + PassOf(workers[1..])
  }

  /** The completed workers' artifacts and evidence are there. */
  predicate Furnished(s: ThreadState, artifacts: set<WorkerName>) {
    && (forall w :: w in s.completed && SavesArtifact(w) ==> w in artifacts)
    && (FinancialAnalysis in s.completed ==> s.evidence != [])
  }

  /** The thread can run its next n workers, whose workflow calls succeed. */
  predicate PassReady(x: Setting, world: World, n: nat) {
    && world.thread.Some? && world.activity.Idle?
    && var s := world.thread.value;
       && StateOk(x.cfg, s) && Furnished(s, world.artifacts) && n <= |s.pending|
       && (n > 0 ==> s.status.Running?)
       && (forall i :: 0 <= i < n ==> !Exhausted(x.cfg, s, s.pending[i]))
       && SecondPass(world.store, x.app, s.pending[..n], PAYLOAD, x.actor, 0).1
  }

  /** The thread after its next n workers. */
  predicate PassedThread(s: ThreadState, s': ThreadState, n: nat) {
    && n <= |s.pending| && s'.completed == s.completed + s.pending[..n] && s'.pending == s.pending[n..]
    && (forall w :: w !in s.pending[..n] ==> s'.AttemptsOf(w) == s.AttemptsOf(w))
    && (n > 0 ==> s'.status == if s'.pending != [] then Running else WaitingForReview)
  }

  lemma ReadyIsSet(x: Setting, world: World, n: nat)
    requires ValidSetting(x) && PassReady(x, world, n) && n > 0
    ensures Set(x, world)
  {
    var s := world.thread.value;
    forall v | v in Inputs(s.current)
      ensures v in world.artifacts
    {
      EarlierIsCompleted(x, s, v);
    }
    if s.current == WorkerName.Guardrails {
      EarlierIsCompleted(x, s, FinancialAnalysis);
    }
  }

  lemma StillReady(x: Setting, world: World, world': World, n: nat)
    requires ValidSetting(x) && PassReady(x, world, n) && n > 0 && world'.thread.Some? && world'.activity.Idle?
    requires StateOk(x.cfg, world'.thread.value) && Delivered(world.thread.value, world'.thread.value)
    requires world'.store == WorkerCalls(world.store, x.app, world.thread.value.current, PAYLOAD, x.actor, 0).0
    requires world'.artifacts == WithOutput(world.artifacts, world.thread.value.current)
    ensures PassReady(x, world', n - 1)
    ensures SecondPass(world.store, x.app, world.thread.value.pending[..n], PAYLOAD, x.actor, 0)
         == SecondPass(world'.store, x.app, world'.thread.value.pending[..n - 1], PAYLOAD, x.actor, 0)
  {
    var s, s' := world.thread.value, world'.thread.value;
    assert s.pending[..n][0] == s.current && s.pending[..n][1..] == s'.pending[..n - 1];
    PendingAreDistinct(x.cfg, s);
    forall i | 0 <= i < n - 1
      ensures !Exhausted(x.cfg, s', s'.pending[i])
    {
      assert s'.pending[i] == s.pending[i + 1] && s'.pending[i] in s.pending[1..];
    }
  }

  lemma PassedOneMore(s: ThreadState, s1: ThreadState, s': ThreadState, n: nat)
    requires 0 < n <= |s.pending| && s.current == s.pending[0] && Delivered(s, s1) && PassedThread(s1, s', n - 1)
    requires n == 1 ==> s' == s1
    ensures PassedThread(s, s', n)
  {
    assert s.pending[..n] == [s.current] + s1.pending[..n - 1];
    assert s.pending[n..] == s1.pending[n - 1..];
  }

  /** An undisturbed pass of the next n workers gets through, and its workflow calls are the second pass's. */
  lemma {:induction false} PassRuns(x: Setting, world: World, n: nat)
    requires ValidSetting(x) && PassReady(x, world, n)
    ensures var s, world' := world.thread.value, Onwards(x, world, PassOf(world.thread.value.pending[..n]));
            && world'.thread.Some? && world'.activity.Idle?
            && StateOk(x.cfg, world'.thread.value) && Furnished(world'.thread.value, world'.artifacts)
            && PassedThread(s, world'.thread.value, n) && (n == 0 ==> world' == world)
            && world'.store == SecondPass(world.store, x.app, s.pending[..n], PAYLOAD, x.actor, 0).0
    decreases n
  {
    if n > 0 {
      var s := world.thread.value;
      var workers := s.pending[..n];
      var world1 := Onwards(x, world, BodyOf(s.current));
      ReadyIsSet(x, world, n);
      BodyRuns(x, world);
      StillReady(x, world, world1, n);
      assert workers[0] == s.current && workers[1..] == world1.thread.value.pending[..n - 1];
      OnwardsTwice(x, world, BodyOf(s.current), PassOf(workers[1..]));
      PassRuns(x, world1, n - 1);
      PassedOneMore(s, world1.thread.value, Onwards(x, world, PassOf(workers)).thread.value, n);
    }
  }

  // ---- a case whose derived identifiers are used up ----

  /** The case is before its human review, and every derived identifier is recorded. */
  predicate Stranded(s: Store, app: AppId) {
    s.Known(app) && Rank(s.workflows[app].state) < Rank(AwaitingHuman) && AllUsedAfter(s, app, Intake)
  }

  lemma RequestLeavesCase(s: Store, app: AppId, request: Request)
    requires Stranded(s, app) && WorkersOnly(app, request)
    ensures Stranded(Execute(s, request).0, app) && Execute(s, request).0.workflows[app] == s.workflows[app]
  {
    if request.app == app && request.CommandRequest? && request.command.operation.Advance? {
      var target := request.command.operation.target;
      if PipelineTarget(s.workflows[app].state) == Some(target) {
        assert Used(s, app, target);
      }
    }
  }

  /** Nobody reopens the case, and its advances are its workers'. */
  predicate WorkersAsk(app: AppId, steps: seq<Step>) {
    forall i :: 0 <= i < |steps| ==> (steps[i].Outside? ==> WorkersOnly(app, steps[i].request))
  }

  lemma StepLeavesCase(x: Setting, world: World, step: Step)
    requires x.cfg.order != [] && Stranded(world.store, x.app)
    requires step.Outside? ==> WorkersOnly(x.app, step.request)
    ensures var world' := Take(x, world, step);
            Stranded(world'.store, x.app) && world'.store.workflows[x.app] == world.store.workflows[x.app]
  {
    StoreChangesByRequest(x, world, step);
    if RequestOf(x, world, step).Some? {
      RequestLeavesCase(world.store, x.app, RequestOf(x, world, step).value);
    }
  }

  /** Whatever the thread does, a stranded case keeps its record. */
  lemma {:induction false} StrandedStays(x: Setting, world: World, more: seq<Step>)
    requires x.cfg.order != [] && Stranded(world.store, x.app) && WorkersAsk(x.app, more)
    ensures var world' := Onwards(x, world, more);
            Stranded(world'.store, x.app) && world'.store.workflows[x.app] == world.store.workflows[x.app]
    decreases |more|
  {
    if more != [] {
      StepLeavesCase(x, world, more[0]);
      StrandedStays(x, Take(x, world, more[0]), more[1..]);
    }
  }

  // ---- an exhausted worker ----

  /** Worker v is still to run and has no attempt left. */
  predicate Blocked(x: Setting, world: World, v: WorkerName) {
    && world.thread.Some? && StateOk(x.cfg, world.thread.value)
    && v in world.thread.value.pending && Exhausted(x.cfg, world.thread.value, v)
  }

  lemma CheckpointKeepsBlocked(x: Setting, s: ThreadState, a: Attempt, v: WorkerName)
    requires ValidSetting(x) && StateOk(x.cfg, s) && v in s.pending && Exhausted(x.cfg, s, v)
    ensures var s' := WorkflowCoupling.AfterStep(s, RunWorker(x.cfg, s, a));
            v in s'.pending && Exhausted(x.cfg, s', v)
  {
    var r := RunWorker(x.cfg, s, a);
    if r.Next? {
      StepAccounts(x.cfg, s, a);
      RunWorkerKeepsState(x.cfg, s, a);
      StepCompletesCurrent(x.cfg, s, a);
      if r.state.completed != s.completed {
        assert v != s.current && s.pending[0] == s.current;
        SuccessMovesOne(x.cfg, s);
      }
    }
  }

  lemma StepKeepsBlocked(x: Setting, world: World, step: Step, v: WorkerName)
    requires ValidSetting(x) && Blocked(x, world, v) && !step.SendBackThread?
    ensures Blocked(x, Take(x, world, step), v)
  {
    TakeStateOk(x, world, step);
    if step.Checkpoint? && MayCheckpoint(x, world, world.thread.value, step.attempt) {
      CheckpointKeepsBlocked(x, world.thread.value, step.attempt, v);
    }
  }

  predicate NoSendBack(steps: seq<Step>) {
    forall i :: 0 <= i < |steps| ==> !steps[i].SendBackThread?
  }

  lemma {:induction false} BlockedStays(x: Setting, world: World, more: seq<Step>, v: WorkerName)
    requires ValidSetting(x) && Blocked(x, world, v) && NoSendBack(more)
    ensures Blocked(x, Onwards(x, world, more), v) && !InReview(Onwards(x, world, more))
    decreases |more|
  {
    if more != [] {
      StepKeepsBlocked(x, world, more[0], v);
      BlockedStays(x, Take(x, world, more[0]), more[1..], v);
    }
  }

  // ---- the case is sent back ----

  /**
   * What the interface does after a send-back decision: reopen the case, then have the
   * runtime send the thread back.
   */
  function SentBackRun(steps: seq<Step>, request: Request, w: WorkerName): seq<Step> {
    steps + [Outside(request), SendBackThread(w)]
  }

  /** A first pass in which only the workers advanced the case is in review, and a fresh reopening is accepted. */
  predicate Reopenable(x: Setting, steps: seq<Step>, request: Request, stage: RestartStage) {
    && ValidSetting(x) && WorkersAdvance(x.app, steps) && InReview(RunSteps(x, steps))
    && request.CommandRequest? && request.app == x.app && request.command.operation == Reopen(stage)
    && (x.app, request.command.id) !in RunSteps(x, steps).store.commands
    && Execute(RunSteps(x, steps).store, request).1.Ok?
  }

  lemma ReviewIsIdle(x: Setting, steps: seq<Step>)
    requires ValidSetting(x) && InReview(RunSteps(x, steps))
    ensures RunSteps(x, steps).activity.Idle?
  {
    EveryRunHolds(x, steps);
  }

  lemma SentBackSteps(x: Setting, world: World, request: Request, w: WorkerName)
    requires ValidSetting(x) && InReview(world) && world.activity.Idle? && w != HumanReview
    ensures Place(w) < |x.cfg.order|
    ensures Onwards(x, world, [Outside(request), SendBackThread(w)])
         == World(Execute(world.store, request).0, Some(RewindState(x.cfg, world.thread.value, Place(w))),
                  Before(world.artifacts, w), Idle)
  {
    PlaceInOrder(x, w);
    OnwardsTwice(x, world, [Outside(request)], [SendBackThread(w)]);
    assert [Outside(request)] + [SendBackThread(w)] == [Outside(request), SendBackThread(w)];
    OneOnwards(x, world, Outside(request));
    OneOnwards(x, Take(x, world, Outside(request)), SendBackThread(w));
  }

  lemma SentBackWorld(x: Setting, steps: seq<Step>, request: Request, stage: RestartStage)
    requires Reopenable(x, steps, request, stage)
    ensures !stage.Supervisor? && Place(StageWorker(stage)) < |x.cfg.order|
    ensures var before, w := RunSteps(x, steps), StageWorker(stage);
            RunSteps(x, SentBackRun(steps, request, w))
            == World(Execute(before.store, request).0, Some(RewindState(x.cfg, before.thread.value, Place(w))),
                     Before(before.artifacts, w), Idle)
  {
    AcceptedReopenWasDecided(RunSteps(x, steps).store, x.app, request, stage);
    var w := StageWorker(stage);
    ReviewIsIdle(x, steps);
    SentBackSteps(x, RunSteps(x, steps), request, w);
    RunOnwards(x, steps, [Outside(request), SendBackThread(w)]);
  }

  lemma SentBackStore(x: Setting, steps: seq<Step>, request: Request, stage: RestartStage)
    requires Reopenable(x, steps, request, stage) && !stage.Supervisor?
    ensures var s := Execute(RunSteps(x, steps).store, request).0;
            Stranded(s, x.app) && s.workflows[x.app].state == RestartState(stage)
  {
    var s := RunSteps(x, steps).store;
    RunUsesIdentifiers(x, steps);
    AcceptedReopenWasDecided(s, x.app, request, stage);
    ReopenRestoresState(s, x.app, request, stage);
    forall t | Rank(Intake) < Rank(t) <= Rank(AwaitingHuman)
      ensures Used(Execute(s, request).0, x.app, t)
    {
      assert Used(s, x.app, t);
    }
  }

  /**
   * After the send-back no step moves the case, until someone else advances or reopens
   * it: no human can decide it again.
   */
  lemma SentBackCaseStays(x: Setting, steps: seq<Step>, request: Request, stage: RestartStage, more: seq<Step>)
    requires Reopenable(x, steps, request, stage) && WorkersAsk(x.app, more)
    ensures !stage.Supervisor?
    ensures var store := RunSteps(x, SentBackRun(steps, request, StageWorker(stage)) + more).store;
            && x.app in store.workflows
            && store.workflows[x.app] == Execute(RunSteps(x, steps).store, request).0.workflows[x.app]
            && store.workflows[x.app].state == RestartState(stage)
  {
    SentBackWorld(x, steps, request, stage);
    SentBackStore(x, steps, request, stage);
    var sent := SentBackRun(steps, request, StageWorker(stage));
    RunOnwards(x, sent, more);
    StrandedStays(x, RunSteps(x, sent), more);
  }

  lemma RewoundIsFurnished(x: Setting, steps: seq<Step>, w: WorkerName)
    requires ValidSetting(x) && WorkersAdvance(x.app, steps) && InReview(RunSteps(x, steps)) && w != HumanReview
    ensures Place(w) < |x.cfg.order|
    ensures var before := RunSteps(x, steps);
            var s' := RewindState(x.cfg, before.thread.value, Place(w));
            StateOk(x.cfg, s') && s'.pending == FIXED_ORDER[Place(w)..] && Furnished(s', Before(before.artifacts, w))
  {
    var before := RunSteps(x, steps);
    EveryRunIsCoupled(x, steps);
    ReviewHasArtifactsExactly(x, steps, FinancialAnalysis);
    PlaceInOrder(x, w);
    PlaceInOrder(x, FinancialAnalysis);
    RewindKeepsState(x.cfg, before.thread.value, Place(w));
    KeptWorkers(w, FinancialAnalysis);
    forall v | v in FIXED_ORDER[..Place(w)] && SavesArtifact(v)
      ensures v in Before(before.artifacts, w)
    {
      KeptWorkers(w, v);
      FixedPlaces(v);
      assert before.thread.value.completed == FIXED_ORDER;
      assert Effective(x, before, v);
    }
  }

  /** A continuation in which only the workers advance the case, without a further send-back, reaches review. */
  ghost predicate CanReview(x: Setting, run: seq<Step>)
    requires x.cfg.order != []
  {
    exists more :: WorkersAdvance(x.app, more) && InReview(RunSteps(x, run + more))
  }

  /** Every worker from w on has an attempt left. */
  predicate NoneExhausted(x: Setting, s: ThreadState, w: WorkerName) {
    forall v :: Place(v) >= Place(w) ==> !Exhausted(x.cfg, s, v)
  }

  lemma PendingAfter(w: WorkerName, v: WorkerName)
    requires Place(v) >= Place(w)
    ensures Place(w) < |FIXED_ORDER| && v in FIXED_ORDER[Place(w)..]
  {
    FixedPlaces(v);
    assert FIXED_ORDER[Place(w)..][Place(v) - Place(w)] == v;
  }

  lemma ExhaustedStopsSecondPass(
    x: Setting, steps: seq<Step>, request: Request, stage: RestartStage, more: seq<Step>, v: WorkerName)
    requires Reopenable(x, steps, request, stage) && WorkersAdvance(x.app, more)
    requires !stage.Supervisor? && Place(v) >= Place(StageWorker(stage))
    requires Exhausted(x.cfg, RunSteps(x, steps).thread.value, v)
    ensures !InReview(RunSteps(x, SentBackRun(steps, request, StageWorker(stage)) + more))
  {
    var w := StageWorker(stage);
    var sent := SentBackRun(steps, request, w);
    SentBackWorld(x, steps, request, stage);
    RewoundIsFurnished(x, steps, w);
    PendingAfter(w, v);
    RunOnwards(x, sent, more);
    BlockedStays(x, RunSteps(x, sent), more, v);
  }

  lemma {:induction false} PassOfIsQuiet(workers: seq<WorkerName>)
    ensures Quiet(PassOf(workers))
    decreases |workers|
  {
    if workers != [] {
      PassOfIsQuiet(workers[1..]);
    }
  }

  /** Steps of the thread alone: no request from outside and no send-back. */
  predicate Quiet(steps: seq<Step>) {
    forall i :: 0 <= i < |steps| ==> !steps[i].Outside? && !steps[i].SendBackThread?
  }

  lemma WholePass(x: Setting, world: World, workers: seq<WorkerName>)
    requires ValidSetting(x) && world.thread.Some? && world.thread.value.pending == workers != []
    requires PassReady(x, world, |workers|)
    ensures InReview(Onwards(x, world, PassOf(workers)))
  {
    assert workers[..|workers|] == workers;
    PassRuns(x, world, |workers|);
  }

  lemma OrderedAfter(w: WorkerName, i: nat)
    requires Place(w) + i < 7
    ensures Place(FIXED_ORDER[Place(w) + i]) == Place(w) + i
  {
  }

  lemma ReadyToPass(x: Setting, world: World, w: WorkerName, workers: seq<WorkerName>)
    requires world.thread.Some? && world.activity.Idle? && world.thread.value.status.Running?
    requires StateOk(x.cfg, world.thread.value) && Furnished(world.thread.value, world.artifacts)
    requires workers == FIXED_ORDER[Place(w)..] && world.thread.value.pending == workers
    requires NoneExhausted(x, world.thread.value, w) && SecondPass(world.store, x.app, workers, PAYLOAD, x.actor, 0).1
    ensures PassReady(x, world, |workers|)
  {
    assert workers[..|workers|] == workers;
    forall i | 0 <= i < |workers|
      ensures !Exhausted(x.cfg, world.thread.value, workers[i])
    {
      OrderedAfter(w, i);
    }
  }

  /** The rewound thread with attempts left can run its pass. */
  lemma AttemptsBringSecondPass(x: Setting, steps: seq<Step>, request: Request, stage: RestartStage)
    requires Reopenable(x, steps, request, stage)
    requires !stage.Supervisor? && NoneExhausted(x, RunSteps(x, steps).thread.value, StageWorker(stage))
    ensures CanReview(x, SentBackRun(steps, request, StageWorker(stage)))
  {
    var w := StageWorker(stage);
    var sent, workers := SentBackRun(steps, request, w), FIXED_ORDER[Place(w)..];
    SentBackWorld(x, steps, request, stage);
    RewoundIsFurnished(x, steps, w);
    SecondPassSucceeds(x, steps, request, stage);
    SentBackIsReady(x, RunSteps(x, steps), Execute(RunSteps(x, steps).store, request).0, w, workers);
    WholePass(x, RunSteps(x, sent), workers);
    QuietPassReviews(x, sent, workers);
  }

  lemma SecondPassSucceeds(x: Setting, steps: seq<Step>, request: Request, stage: RestartStage)
    requires Reopenable(x, steps, request, stage) && !stage.Supervisor?
    ensures var reopened := Execute(RunSteps(x, steps).store, request).0;
            SecondPass(reopened, x.app, FIXED_ORDER[Place(StageWorker(stage))..], PAYLOAD, x.actor, 0).1
  {
    SendBackStrandsTheCase(x, steps, request, stage, PAYLOAD, 0);
  }

  lemma SentBackIsReady(x: Setting, before: World, store: Store, w: WorkerName, workers: seq<WorkerName>)
    requires before.thread.Some? && Place(w) < |x.cfg.order| && workers == FIXED_ORDER[Place(w)..] != []
    requires SecondPass(store, x.app, workers, PAYLOAD, x.actor, 0).1 && NoneExhausted(x, before.thread.value, w)
    requires var s' := RewindState(x.cfg, before.thread.value, Place(w));
             StateOk(x.cfg, s') && s'.pending == workers && Furnished(s', Before(before.artifacts, w))
    ensures var world := World(store, Some(RewindState(x.cfg, before.thread.value, Place(w))),
      Before(before.artifacts, w), Idle);
            world.thread.value.pending == workers && PassReady(x, world, |workers|)
  {
    var world := World(store, Some(RewindState(x.cfg, before.thread.value, Place(w))), Before(before.artifacts, w),
      Idle);
    ReadyToPass(x, world, w, workers);
  }

  lemma QuietPassReviews(x: Setting, run: seq<Step>, workers: seq<WorkerName>)
    requires x.cfg.order != [] && InReview(Onwards(x, RunSteps(x, run), PassOf(workers)))
    ensures CanReview(x, run)
  {
    PassOfIsQuiet(workers);
    RunOnwards(x, run, PassOf(workers));
    assert WorkersAdvance(x.app, PassOf(workers));
  }

  /**
   * The second pass on the graph itself, after every first pass in which only the
   * workers advanced the case: some continuation brings the thread to review again
   * exactly when no restarted worker has used up its attempts, and in every such
   * continuation the case is where the reopening left it.
   */
  lemma SendBackReachesReviewExactly(x: Setting, steps: seq<Step>, request: Request, stage: RestartStage)
    requires Reopenable(x, steps, request, stage)
    ensures !stage.Supervisor?
    ensures CanReview(x, SentBackRun(steps, request, StageWorker(stage)))
       <==> NoneExhausted(x, RunSteps(x, steps).thread.value, StageWorker(stage))
  {
    SentBackWorld(x, steps, request, stage);
    var sent := SentBackRun(steps, request, StageWorker(stage));
    if NoneExhausted(x, RunSteps(x, steps).thread.value, StageWorker(stage)) {
      AttemptsBringSecondPass(x, steps, request, stage);
    } else {
      var v :| Place(v) >= Place(StageWorker(stage)) && Exhausted(x.cfg, RunSteps(x, steps).thread.value, v);
      forall more | WorkersAdvance(x.app, more)
        ensures !InReview(RunSteps(x, sent + more))
      {
        ExhaustedStopsSecondPass(x, steps, request, stage, more, v);
      }
    }
  }

  // ---- the configured single attempt ----

  predicate CompletedTried(world: World) {
    world.thread.Some? ==> forall w :: w in world.thread.value.completed ==> world.thread.value.AttemptsOf(w) > 0
  }

  lemma CheckpointTries(x: Setting, s: ThreadState, a: Attempt, w: WorkerName)
    requires w in s.completed ==> s.AttemptsOf(w) > 0
    ensures var s' := WorkflowCoupling.AfterStep(s, RunWorker(x.cfg, s, a));
            w in s'.completed ==> s'.AttemptsOf(w) > 0
  {
    StepAccounts(x.cfg, s, a);
    if RunWorker(x.cfg, s, a).Next? {
      StepCompletesCurrent(x.cfg, s, a);
    }
  }

  lemma StepTries(x: Setting, world: World, step: Step)
    requires x.cfg.order != [] && CompletedTried(world) && !step.SendBackThread?
    ensures CompletedTried(Take(x, world, step))
  {
    if world.thread.Some? && step.Checkpoint? && MayCheckpoint(x, world, world.thread.value, step.attempt) {
      forall w
        ensures w in Take(x, world, step).thread.value.completed ==> Take(x, world, step).thread.value.AttemptsOf(w) > 0
      {
        CheckpointTries(x, world.thread.value, step.attempt, w);
      }
    }
  }

  lemma {:induction false} RunTries(x: Setting, steps: seq<Step>)
    requires x.cfg.order != [] && NoSendBack(steps)
    ensures CompletedTried(RunSteps(x, steps))
  {
    if steps != [] {
      RunTries(x, steps[..|steps| - 1]);
      StepTries(x, RunSteps(x, steps[..|steps| - 1]), steps[|steps| - 1]);
    }
  }

  lemma ReviewTriedLast(x: Setting, steps: seq<Step>)
    requires ValidSetting(x) && WorkersAdvance(x.app, steps) && InReview(RunSteps(x, steps))
    ensures RunSteps(x, steps).thread.value.AttemptsOf(HumanReview) > 0
  {
    RunTries(x, steps);
    EveryRunHolds(x, steps);
    assert FIXED_ORDER[6] == HumanReview;
  }

  /** With one attempt for the last worker, as configured, no continuation of a send-back reaches review. */
  lemma SingleAttemptNeverReviewsAgain(x: Setting, steps: seq<Step>, request: Request, stage: RestartStage)
    requires Reopenable(x, steps, request, stage) && AttemptLimit(x.cfg, HumanReview) == Some(1)
    ensures !stage.Supervisor? && !CanReview(x, SentBackRun(steps, request, StageWorker(stage)))
  {
    SendBackReachesReviewExactly(x, steps, request, stage);
    ReviewTriedLast(x, steps);
    FixedPlaces(StageWorker(stage));
    assert Exhausted(x.cfg, RunSteps(x, steps).thread.value, HumanReview);
  }

  // ---- a refused send-back has already removed the artifacts ----

  const TIMED_OUT := Attempt([], TimesOut, TOOL_NOT_PERMITTED, 0.0)

  /** The last worker advances the case to the human and then times out. */
  function TimedOutRun(): seq<Step> {
    [StartThread] + PassOf(FIXED_ORDER[..6]) + (LOADING + CALLING + [Checkpoint(TIMED_OUT)])
  }

  predicate SpareAttempts(cfg: GraphConfig) {
    && (forall w :: AttemptLimit(cfg, w).Some? ==> AttemptLimit(cfg, w).value >= 1)
    && (AttemptLimit(cfg, HumanReview).Some? ==> AttemptLimit(cfg, HumanReview).value >= 2)
  }

  /** A fresh pass advances the case as far as its workers require. */
  lemma {:induction false} FreshPass(s: Store, app: AppId, k: nat, j: nat, actor: Actor)
    requires k <= j <= 7 && s.Known(app) && PipelineRole in actor.roles
    requires s.workflows[app].state == RequiredState(FIXED_ORDER[..k]) && NoneUsedAfter(s, app, s.workflows[app].state)
    ensures var (s', ok) := SecondPass(s, app, FIXED_ORDER[k..j], PAYLOAD, actor, 0);
            && ok && s'.Known(app) && s'.workflows[app].state == RequiredState(FIXED_ORDER[..j])
            && NoneUsedAfter(s', app, s'.workflows[app].state)
    decreases j - k
  {
    if k < j {
      var w := FIXED_ORDER[k];
      RequiredStep(k);
      assert FIXED_ORDER[k..j][0] == w && FIXED_ORDER[k..j][1..] == FIXED_ORDER[k + 1..j];
      var s' := WorkerCalls(s, app, w, PAYLOAD, actor, 0).0;
      if Target(w).None? {
        WrongCallsStay(s, app, w, PAYLOAD, actor, 0);
      } else {
        FreshCallsMove(s, app, w, PAYLOAD, actor, 0);
        NoneUsedStep(s, s', app, s.workflows[app].state, Target(w).value);
      }
      FreshPass(s', app, k + 1, j, actor);
    }
  }

  lemma FirstPassCalls(app: AppId, actor: Actor)
    requires PipelineRole in actor.roles
    ensures var (s', ok) := SecondPass(EMPTY_STORE, app, FIXED_ORDER[..6], PAYLOAD, actor, 0);
            ok && s'.Known(app) && s'.workflows[app].state == AiSuggested && !Used(s', app, AwaitingHuman)
  {
    var s1 := WorkerCalls(EMPTY_STORE, app, DocumentProcessing, PAYLOAD, actor, 0).0;
    RequiredAfter(1);
    RequiredAfter(6);
    assert FIXED_ORDER[..6][0] == DocumentProcessing && FIXED_ORDER[..6][1..] == FIXED_ORDER[1..6];
    FreshPass(s1, app, 1, 6, actor);
  }

  /** The thread waits for its last worker, which has been tried n times. */
  predicate BeforeLast(x: Setting, world: World, n: nat) {
    && world.thread.Some? && world.activity.Idle? && StateOk(x.cfg, world.thread.value)
    && world.thread.value.pending == [HumanReview] && world.thread.value.AttemptsOf(HumanReview) == n
  }

  lemma StartedIsReady(x: Setting)
    requires ValidSetting(x) && SpareAttempts(x.cfg)
    ensures PassReady(x, World(EMPTY_STORE, Some(InitialState(x.app, x.cfg.order)), {}, Idle), 6)
  {
    InitialStateOk(x.cfg, x.app);
    FirstPassCalls(x.app, x.actor);
  }

  /** Six of seven workers have run. */
  lemma SixPassed(x: Setting, s: ThreadState, s': ThreadState)
    requires ValidSetting(x) && s.pending == FIXED_ORDER && PassedThread(s, s', 6)
    ensures s'.pending == [HumanReview] && s'.status.Running? && s'.AttemptsOf(HumanReview) == s.AttemptsOf(HumanReview)
  {
    assert FIXED_ORDER[6..] == [HumanReview];
    assert HumanReview !in FIXED_ORDER[..6];
  }

  lemma FirstSixRun(x: Setting)
    requires ValidSetting(x) && SpareAttempts(x.cfg)
    ensures var world := Onwards(x, EMPTY_WORLD, [StartThread] + PassOf(FIXED_ORDER[..6]));
            && BeforeLast(x, world, 0) && world.thread.value.status.Running?
            && world.store == SecondPass(EMPTY_STORE, x.app, FIXED_ORDER[..6], PAYLOAD, x.actor, 0).0
  {
    var world := World(EMPTY_STORE, Some(InitialState(x.app, x.cfg.order)), {}, Idle);
    StartedIsReady(x);
    OneOnwards(x, EMPTY_WORLD, StartThread);
    OnwardsTwice(x, EMPTY_WORLD, [StartThread], PassOf(FIXED_ORDER[..6]));
    PassRuns(x, world, 6);
    SixPassed(x, world.thread.value, Onwards(x, world, PassOf(FIXED_ORDER[..6])).thread.value);
  }

  lemma TimedOutStep(x: Setting, world: World)
    requires ValidSetting(x) && SpareAttempts(x.cfg) && world.thread.Some? && world.activity.Finished?
    requires BeforeLast(x, world.(activity := Idle), 0) && world.thread.value.status.Running?
    ensures var world' := Take(x, world, Checkpoint(TIMED_OUT));
            BeforeLast(x, world', 1) && world'.thread.value.status.FailedRetryable? && world'.store == world.store
  {
    assert AttemptEnding(x.cfg, HumanReview, TIMED_OUT) == TimesOut;
  }

  lemma LastTimesOut(x: Setting, world: World)
    requires ValidSetting(x) && SpareAttempts(x.cfg) && BeforeLast(x, world, 0) && world.thread.value.status.Running?
    requires WorkerCalls(world.store, x.app, HumanReview, PAYLOAD, x.actor, 0).1
    ensures var world' := Onwards(x, world, LOADING + CALLING + [Checkpoint(TIMED_OUT)]);
            && BeforeLast(x, world', 1) && world'.thread.value.status.FailedRetryable?
            && world'.store == WorkerCalls(world.store, x.app, HumanReview, PAYLOAD, x.actor, 0).0
  {
    var loaded := Onwards(x, world, LOADING);
    BodyLoads(x, world);
    BodyCalls(x, loaded);
    TimedOutStep(x, Called(x, loaded, HumanReview));
    OnwardsTwice(x, world, LOADING + CALLING, [Checkpoint(TIMED_OUT)]);
    OnwardsTwice(x, world, LOADING, CALLING);
    OneOnwards(x, Called(x, loaded, HumanReview), Checkpoint(TIMED_OUT));
  }

  lemma TimedOutRunIsQuiet()
    ensures Quiet(TimedOutRun())
  {
    PassOfIsQuiet(FIXED_ORDER[..6]);
  }

  // ---- identifiers a quiet run has used ----

  predicate OwnIdentifiers(s: Store) {
    forall key :: key in s.commands ==> key.1.ForWorker? || key.1.ForTarget?
  }

  lemma {:induction false} QuietRunOwnsIdentifiers(x: Setting, steps: seq<Step>)
    requires x.cfg.order != [] && Quiet(steps)
    ensures OwnIdentifiers(RunSteps(x, steps).store)
  {
    if steps != [] {
      var earlier, last := steps[..|steps| - 1], steps[|steps| - 1];
      QuietRunOwnsIdentifiers(x, earlier);
      StoreChangesByRequest(x, RunSteps(x, earlier), last);
      var request := RequestOf(x, RunSteps(x, earlier), last);
      if request.Some? {
        ExecuteAddsKey(RunSteps(x, earlier).store, request.value);
      }
    }
  }

  lemma ExecuteAddsKey(s: Store, request: Request)
    ensures forall key :: key in Execute(s, request).0.commands ==> key in s.commands || key == request.CommandKey()
  {
  }

  /** The parts of the run put together. */
  lemma TimedOutRunIs(x: Setting)
    requires x.cfg.order != []
    ensures RunSteps(x, TimedOutRun())
         == Onwards(x, Onwards(x, EMPTY_WORLD, [StartThread] + PassOf(FIXED_ORDER[..6])),
                    LOADING + CALLING + [Checkpoint(TIMED_OUT)])
  {
    OnwardsTwice(x, EMPTY_WORLD, [StartThread] + PassOf(FIXED_ORDER[..6]), LOADING + CALLING + [Checkpoint(TIMED_OUT)]);
    assert [] + TimedOutRun() == TimedOutRun();
    RunOnwards(x, [], TimedOutRun());
  }

  lemma TimedOutThread(x: Setting)
    requires ValidSetting(x) && SpareAttempts(x.cfg)
    ensures var world := RunSteps(x, TimedOutRun());
            && BeforeLast(x, world, 1) && world.thread.value.status.FailedRetryable?
            && world.store.Known(x.app) && world.store.workflows[x.app].state == AwaitingHuman
  {
    var world := Onwards(x, EMPTY_WORLD, [StartThread] + PassOf(FIXED_ORDER[..6]));
    FirstSixRun(x);
    FirstPassCalls(x.app, x.actor);
    FreshCallsMove(world.store, x.app, HumanReview, PAYLOAD, x.actor, 0);
    LastTimesOut(x, world);
    TimedOutRunIs(x);
  }

  lemma TimedOutStore(x: Setting, s: Store)
    requires ValidSetting(x) && s == RunSteps(x, TimedOutRun()).store
    requires s.Known(x.app) && s.workflows[x.app].state == AwaitingHuman
    ensures s.workflows[x.app].version == 4 && OwnIdentifiers(s) && AllUsedAfter(s, x.app, Intake)
  {
    TimedOutRunIsQuiet();
    QuietRunOwnsIdentifiers(x, TimedOutRun());
    EveryRunIsCoupled(x, TimedOutRun());
    VersionIsRank(s, x.app);
    RunUsesIdentifiers(x, TimedOutRun());
  }

  // ---- the send-back that is refused ----

  const SENT_BACK_REASON := "check the rent roll"

  function DecideRequest(app: AppId, reviewer: Actor): Request {
    CommandRequest(app, reviewer, Command(Client(0), 4, SENT_BACK_REASON, Decide(SendBack, None, [], [])), 0)
  }

  function ReopenAsked(app: AppId, reviewer: Actor): Request {
    ReopenRequest(app, reviewer, Client(0), 5, RestartEligibility, SENT_BACK_REASON, 0)
  }

  /**
   * The reviewer decides to send the case back to eligibility; its thread, not in review,
   * refuses to be rewound and is resumed.
   */
  function AskedBack(app: AppId, reviewer: Actor): seq<Step> {
    [Outside(DecideRequest(app, reviewer)),
     Outside(ReopenAsked(app, reviewer)),
     SendBackThread(Eligibility), ResumeThread]
  }

  lemma DecidedAndReopened(s: Store, app: AppId, reviewer: Actor)
    requires s.Known(app) && s.workflows[app].state == AwaitingHuman && s.workflows[app].version == 4
    requires OwnIdentifiers(s)
    requires AllUsedAfter(s, app, Intake) && HumanReviewerRole in reviewer.roles
    ensures var s1 := Execute(s, DecideRequest(app, reviewer)).0;
            var s2 := Execute(s1, ReopenAsked(app, reviewer)).0;
            Stranded(s2, app) && s2.workflows[app].state == Extracted
  {
    var s1 := Execute(s, DecideRequest(app, reviewer)).0;
    var request := ReopenAsked(app, reviewer);
    assert (app, Client(0)) !in s.commands && (app, ForReopen(app, Client(0))) !in s.commands;
    assert s1.Known(app) && s1.workflows[app].state == HumanDecided && s1.workflows[app].version == 5;
    ExecuteAddsKey(s, DecideRequest(app, reviewer));
    ReopenAcceptedExactly(s1, app, reviewer, Client(0), 5, RestartEligibility, SENT_BACK_REASON, 0);
    ReopenRestoresState(s1, app, request, RestartEligibility);
    forall t | Rank(Intake) < Rank(t) <= Rank(AwaitingHuman)
      ensures Used(Execute(s1, request).0, app, t)
    {
      assert Used(s, app, t) && Used(s1, app, t);
    }
  }

  lemma AskedBackLeads(x: Setting, world: World, reviewer: Actor)
    requires ValidSetting(x) && BeforeLast(x, world, 1) && world.thread.value.status.FailedRetryable?
    ensures var s1 := Execute(world.store, DecideRequest(x.app, reviewer)).0;
            var s2 := Execute(s1, ReopenAsked(x.app, reviewer)).0;
            Onwards(x, world, AskedBack(x.app, reviewer))
            == World(s2, Some(ResumeState(world.thread.value)), Before(world.artifacts, Eligibility), Idle)
  {
    var steps := AskedBack(x.app, reviewer);
    assert steps == [steps[0], steps[1], steps[2]] + [ResumeThread];
    OnwardsTwice(x, world, [steps[0], steps[1], steps[2]], [ResumeThread]);
    ThreeOnwards(x, world, steps[0], steps[1], steps[2]);
    PlaceInOrder(x, Eligibility);
    OneOnwards(x, Take(x, Take(x, Take(x, world, steps[0]), steps[1]), steps[2]), ResumeThread);
  }

  lemma LastRunsAgain(x: Setting, world: World)
    requires ValidSetting(x) && SpareAttempts(x.cfg) && BeforeLast(x, world, 1) && world.thread.value.status.Running?
    requires Stranded(world.store, x.app)
    ensures var world' := Onwards(x, world, BodyOf(HumanReview));
            InReview(world') && world'.store == world.store && world'.artifacts == world.artifacts
  {
    assert Used(world.store, x.app, AwaitingHuman);
    UsedCallsStay(world.store, x.app, HumanReview, PAYLOAD, x.actor, 0);
    BodyRuns(x, world);
  }

  function RefusedRun(app: AppId, reviewer: Actor): seq<Step> {
    TimedOutRun() + AskedBack(app, reviewer) + BodyOf(HumanReview)
  }

  /**
   * An explicit run that ends in review without the artifacts of eligibility and of the
   * workers after it. The last worker advances the case to the human and times out; the
   * reviewer sends the case back to eligibility; the case is reopened and the artifacts
   * are removed before the rewind is refused, as the thread is not in review; and the
   * resumed thread runs only its last worker. The case is still where it was reopened.
   */
  lemma RefusedSendBackLosesArtifacts(x: Setting, reviewer: Actor, w: WorkerName)
    requires ValidSetting(x) && SpareAttempts(x.cfg) && HumanReviewerRole in reviewer.roles
    requires SavesArtifact(w) && Place(w) >= Place(Eligibility)
    ensures var run := RefusedRun(x.app, reviewer);
            && InReview(RunSteps(x, run))
            && w !in RunSteps(x, run).artifacts && w in Lost(x, run)
            && Stranded(RunSteps(x, run).store, x.app) && RunSteps(x, run).store.workflows[x.app].state == Extracted
  {
    var first := RunSteps(x, TimedOutRun());
    TimedOutThread(x);
    TimedOutStore(x, first.store);
    AskedBackLeads(x, first, reviewer);
    DecidedAndReopened(first.store, x.app, reviewer);
    RunOnwards(x, TimedOutRun(), AskedBack(x.app, reviewer));
    var resumed := RunSteps(x, TimedOutRun() + AskedBack(x.app, reviewer));
    LastRunsAgain(x, resumed);
    RunOnwards(x, TimedOutRun() + AskedBack(x.app, reviewer), BodyOf(HumanReview));
    ReviewHasArtifactsExactly(x, RefusedRun(x.app, reviewer), w);
  }
}
