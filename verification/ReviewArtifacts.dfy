/**
 * Which artifacts a thread in review has, over every run of starts, resumes, marks,
 * worker bodies and send-backs of the fixed workers. A send-back invalidates artifacts
 * before the rewind looks at the status; what a refused one took away is lost until it
 * is saved again.
 */
module ReviewArtifacts {
  import opened Collections
  import opened Wrappers
  import opened MatchingSchema
  import opened WorkflowSchema
  import opened WorkflowService
  import opened AgentSchema
  import opened AgentGraph
  import opened GraphInvariants
  import opened AgentWorkers
  import opened WorkflowCoupling
  import GraphHistory
  import GraphTheorems
  import Guard = Guardrails
  import Retrieval

  /** The current worker is about to save its artifact. */
  predicate Saves(world: World, step: Step) {
    step.SaveOutput? && world.activity.Loaded? && world.thread.Some? && SavesArtifact(world.thread.value.current)
  }

  predicate SendsBack(world: World, step: Step) {
    step.SendBackThread? && step.restart != HumanReview && world.thread.Some?
  }

  /** The send-back invalidates, and its rewind is then refused. */
  predicate RefusedSendBack(world: World, step: Step) {
    SendsBack(world, step) && !CanRewind(world.thread.value)
  }

  /** What a step takes to or from the lost artifacts. */
  function LostAfter(world: World, lost: set<WorkerName>, step: Step): set<WorkerName> {
    if Saves(world, step) then lost - {world.thread.value.current}
    else if RefusedSendBack(world, step) then lost + (world.artifacts - Before(world.artifacts, step.restart))
    else if SendsBack(world, step) then Before(lost, step.restart)
    else lost
  }

  /** The artifacts that a refused send-back removed, not saved again and not invalidated by an accepted one since. */
  function Lost(x: Setting, steps: seq<Step>): set<WorkerName>
    requires x.cfg.order != []
  {
    if steps == [] then {}
    else
      var earlier := steps[..|steps| - 1];
      LostAfter(RunSteps(x, earlier), Lost(x, earlier), steps[|steps| - 1])
  }

  // ---- the invariant ----

  /** With a worker's artifact there is that of the worker before it. */
  predicate PrefixClosed(saved: set<WorkerName>) {
    && (FinancialAnalysis in saved ==> DocumentProcessing in saved)
    && (Eligibility in saved ==> FinancialAnalysis in saved)
    && (PrecedentRetrieval in saved ==> Eligibility in saved)
    && (Suggestion in saved ==> PrecedentRetrieval in saved)
  }

  predicate Past(activity: Activity) {
    !activity.Idle? && !activity.Begun? && !activity.Broken?
  }

  /** saved are the artifacts stored or lost. */
  predicate ThreadHolds(s: ThreadState, activity: Activity, saved: set<WorkerName>) {
    && (!activity.Idle? ==> s.status.Running?)
    && (Past(activity) ==> Inputs(s.current) <= saved)
    && (Guardrails in s.completed ==> Suggestion in saved && s.evidence != [])
  }

  predicate Holds(world: World, lost: set<WorkerName>) {
    && world.artifacts !! lost
    && PrefixClosed(world.artifacts + lost)
    && (world.thread.None? ==> world.activity.Idle?)
    && (world.thread.Some? ==> ThreadHolds(world.thread.value, world.activity, world.artifacts + lost))
  }

  predicate ThreadOk(x: Setting, world: World) {
    world.thread.Some? ==> StateOk(x.cfg, world.thread.value)
  }

  /** A saving worker whose inputs are there has all its predecessors there. */
  lemma SavingKeepsClosed(saved: set<WorkerName>, w: WorkerName)
    requires PrefixClosed(saved) && Inputs(w) <= saved && SavesArtifact(w)
    ensures PrefixClosed(saved + {w})
  {
    match w
    case DocumentProcessing =>
    case FinancialAnalysis => assert DocumentProcessing in Inputs(w);
    case Eligibility => assert FinancialAnalysis in Inputs(w);
    case PrecedentRetrieval => assert Eligibility in Inputs(w);
    case Suggestion => assert PrecedentRetrieval in Inputs(w);
  }

  lemma BeforeKeepsClosed(saved: set<WorkerName>, w: WorkerName)
    requires PrefixClosed(saved)
    ensures PrefixClosed(Before(saved, w))
  {
  }

  lemma SaveHolds(x: Setting, world: World, lost: set<WorkerName>)
    requires Holds(world, lost) && world.thread.Some? && world.activity.Loaded?
    ensures var w := world.thread.value.current;
            Holds(BodyStep(x, world, world.thread.value, SaveOutput), if SavesArtifact(w) then lost - {w} else lost)
  {
    var s := world.thread.value;
    var world', saved := BodyStep(x, world, s, SaveOutput), world.artifacts + lost;
    if SavesArtifact(s.current) {
      SavingKeepsClosed(saved, s.current);
      assert world'.artifacts + (lost - {s.current}) == saved + {s.current};
    } else {
      assert world'.artifacts + lost == saved;
    }
  }

  /** A step of a body other than saving moves the activity only, or the store. */
  lemma OtherBodyStepHolds(x: Setting, world: World, lost: set<WorkerName>, step: Step)
    requires Holds(world, lost) && world.thread.Some? && !(step.SaveOutput? && world.activity.Loaded?)
    ensures Holds(BodyStep(x, world, world.thread.value, step), lost)
  {
    var world' := BodyStep(x, world, world.thread.value, step);
    assert world'.artifacts == world.artifacts && world'.thread == world.thread;
    assert world'.activity != world.activity ==>
      Past(world.activity) || Inputs(world.thread.value.current) <= world.artifacts || world'.activity.Broken?;
  }

  lemma CheckpointEvidence(x: Setting, world: World, s: ThreadState, a: Attempt)
    requires ValidSetting(x) && StateOk(x.cfg, s) && MayCheckpoint(x, world, s, a)
    ensures var s' := WorkflowCoupling.AfterStep(s, RunWorker(x.cfg, s, a));
            && (s.current != FinancialAnalysis ==> s'.evidence == s.evidence)
            && (s'.completed != s.completed && s.current == Guardrails ==> s.evidence != [])
  {
    if RunWorker(x.cfg, s, a).Next? {
      StepCompletesCurrent(x.cfg, s, a);
    }
  }

  /** Once the guardrails are completed the financial worker does not run again in this pass. */
  lemma GuardedPassIsPastFinancials(x: Setting, s: ThreadState)
    requires ValidSetting(x) && StateOk(x.cfg, s) && Guardrails in s.completed
    ensures s.current == HumanReview
  {
    var i :| 0 <= i < |s.completed| && s.completed[i] == Guardrails;
    assert FIXED_ORDER[i] == Guardrails && Place(FIXED_ORDER[i]) == i;
    if s.pending != [] {
      assert FIXED_ORDER[|s.completed|] == s.current;
      assert |s.completed| == 6;
    }
  }

  lemma CheckpointHolds(x: Setting, world: World, lost: set<WorkerName>, a: Attempt)
    requires ValidSetting(x) && ThreadOk(x, world) && Holds(world, lost) && world.thread.Some?
    requires MayCheckpoint(x, world, world.thread.value, a)
    ensures Holds(ThreadStep(x, world, world.thread.value, Checkpoint(a)), lost)
  {
    var s := world.thread.value;
    var s' := WorkflowCoupling.AfterStep(s, RunWorker(x.cfg, s, a));
    AfterStepRight(x, world, s, a);
    CheckpointEvidence(x, world, s, a);
    if Guardrails in s.completed {
      GuardedPassIsPastFinancials(x, s);
    } else if Guardrails in s'.completed {
      assert s.current == Guardrails && Suggestion in Inputs(Guardrails);
    }
  }

  lemma PlaceInOrder(x: Setting, w: WorkerName)
    requires ValidSetting(x)
    ensures IndexOf(x.cfg.order, w) == Place(w) < |x.cfg.order|
  {
    FixedIndices();
    FixedPlaces(w);
  }

  lemma UnguardedBefore(w: WorkerName)
    requires w != HumanReview
    ensures Place(w) < |FIXED_ORDER| && Guardrails !in FIXED_ORDER[..Place(w)]
  {
    FixedPlaces(w);
    forall i | 0 <= i < Place(w)
      ensures FIXED_ORDER[i] != Guardrails
    {
      assert Place(FIXED_ORDER[i]) == i;
    }
  }

  /** An invalidation moves nothing out of what is stored or lost, when what it removes counts as lost. */
  lemma InvalidatedAreLost(artifacts: set<WorkerName>, lost: set<WorkerName>, w: WorkerName)
    requires artifacts !! lost
    ensures Before(artifacts, w) !! lost + (artifacts - Before(artifacts, w))
    ensures Before(artifacts, w) + (lost + (artifacts - Before(artifacts, w))) == artifacts + lost
    ensures Before(artifacts, w) !! Before(lost, w)
    ensures Before(artifacts, w) + Before(lost, w) == Before(artifacts + lost, w)
  {
  }

  lemma RefusedHolds(world: World, lost: set<WorkerName>, w: WorkerName, world': World)
    requires Holds(world, lost) && world.thread.Some? && world' == world.(artifacts := Before(world.artifacts, w))
    ensures Holds(world', lost + (world.artifacts - Before(world.artifacts, w)))
  {
    InvalidatedAreLost(world.artifacts, lost, w);
  }

  lemma AcceptedHolds(world: World, lost: set<WorkerName>, w: WorkerName, s': ThreadState, world': World)
    requires Holds(world, lost) && world.thread.Some? && CanRewind(world.thread.value) && Guardrails !in s'.completed
    requires world' == world.(artifacts := Before(world.artifacts, w), thread := Some(s'))
    ensures Holds(world', Before(lost, w))
  {
    InvalidatedAreLost(world.artifacts, lost, w);
    BeforeKeepsClosed(world.artifacts + lost, w);
  }

  lemma LostBySendBack(world: World, lost: set<WorkerName>, w: WorkerName)
    requires world.thread.Some? && w != HumanReview
    ensures LostAfter(world, lost, SendBackThread(w))
         == if CanRewind(world.thread.value) then Before(lost, w)
            else lost + (world.artifacts - Before(world.artifacts, w))
  {
  }

  /** A send-back in terms of the order's places. */
  lemma SendBackLeads(x: Setting, world: World, s: ThreadState, w: WorkerName) returns (s': ThreadState)
    requires ValidSetting(x) && w != HumanReview && world.thread == Some(s)
    ensures SendThreadBack(x, world, s, w) == world.(artifacts := Before(world.artifacts, w), thread := Some(s'))
    ensures CanRewind(s) ==>
              Place(w) < |x.cfg.order| && s' == RewindState(x.cfg, s, Place(w)) && Guardrails !in s'.completed
    ensures !CanRewind(s) ==> s' == s
  {
    PlaceInOrder(x, w);
    UnguardedBefore(w);
    s' := if CanRewind(s) then RewindState(x.cfg, s, Place(w)) else s;
  }

  lemma SendBackHolds(x: Setting, world: World, lost: set<WorkerName>, w: WorkerName, world': World)
    requires ValidSetting(x) && Holds(world, lost) && world.thread.Some? && w != HumanReview
    requires world' == SendThreadBack(x, world, world.thread.value, w)
    ensures Holds(world', LostAfter(world, lost, SendBackThread(w)))
  {
    var s' := SendBackLeads(x, world, world.thread.value, w);
    LostBySendBack(world, lost, w);
    if CanRewind(world.thread.value) {
      AcceptedHolds(world, lost, w, s', world');
    } else {
      RefusedHolds(world, lost, w, world');
    }
  }

  /** Resuming and marking change the checkpoint's status only, and only while no body runs. */
  lemma StatusChangeHolds(world: World, lost: set<WorkerName>, s': ThreadState)
    requires Holds(world, lost) && world.thread.Some? && world.activity.Idle?
    requires s'.completed == world.thread.value.completed && s'.evidence == world.thread.value.evidence
    ensures Holds(world.(thread := Some(s')), lost)
  {
  }

  lemma BeginHolds(world: World, lost: set<WorkerName>)
    requires Holds(world, lost) && world.thread.Some? && world.thread.value.status.Running?
    ensures Holds(world.(activity := Begun), lost)
  {
  }

  lemma OtherStepHolds(x: Setting, world: World, lost: set<WorkerName>, step: Step)
    requires ValidSetting(x) && ThreadOk(x, world) && Holds(world, lost) && world.thread.Some?
    requires step.ResumeThread? || step.MarkThread? || step.BeginWorker? || step.Checkpoint?
    ensures Holds(ThreadStep(x, world, world.thread.value, step), lost)
  {
    var s := world.thread.value;
    match step
    case Checkpoint(a) =>
      if MayCheckpoint(x, world, s, a) {
        CheckpointHolds(x, world, lost, a);
      }
    case MarkThread(op) =>
      if world.activity.Idle? && MayMark(op) {
        StatusChangeHolds(world, lost, Marked(s, op));
      }
    case ResumeThread =>
      if world.activity.Idle? && CanResume(s) {
        StatusChangeHolds(world, lost, ResumeState(s));
      }
    case _ =>
      if s.status.Running? {
        BeginHolds(world, lost);
      }
  }

  lemma NothingLostBy(world: World, lost: set<WorkerName>, step: Step)
    requires !step.SendBackThread? && !step.SaveOutput?
    ensures LostAfter(world, lost, step) == lost
  {
  }

  lemma ThreadStepHolds(x: Setting, world: World, lost: set<WorkerName>, step: Step)
    requires ValidSetting(x) && ThreadOk(x, world) && Holds(world, lost) && world.thread.Some?
    ensures Holds(ThreadStep(x, world, world.thread.value, step), LostAfter(world, lost, step))
  {
    if step.SendBackThread? {
      if step.restart != HumanReview {
        SendBackHolds(x, world, lost, step.restart, SendThreadBack(x, world, world.thread.value, step.restart));
      }
    } else if step.SaveOutput? && world.activity.Loaded? {
      SaveHolds(x, world, lost);
    } else if step.ResumeThread? || step.MarkThread? || step.BeginWorker? || step.Checkpoint? {
      NothingLostBy(world, lost, step);
      OtherStepHolds(x, world, lost, step);
    } else {
      OtherBodyStepHolds(x, world, lost, step);
    }
  }

  lemma TakeHolds(x: Setting, world: World, lost: set<WorkerName>, step: Step)
    requires ValidSetting(x) && ThreadOk(x, world) && Holds(world, lost)
    ensures Holds(Take(x, world, step), LostAfter(world, lost, step))
  {
    if !step.Outside? && !step.StartThread? && world.thread.Some? {
      ThreadStepHolds(x, world, lost, step);
    }
  }

  lemma SendBackStateOk(x: Setting, world: World, w: WorkerName)
    requires ValidSetting(x) && ThreadOk(x, world) && world.thread.Some? && w != HumanReview
    ensures ThreadOk(x, SendThreadBack(x, world, world.thread.value, w))
  {
    var s' := SendBackLeads(x, world, world.thread.value, w);
    if CanRewind(world.thread.value) {
      RewindKeepsState(x.cfg, world.thread.value, Place(w));
    }
  }

  lemma ThreadStepStateOk(x: Setting, world: World, step: Step)
    requires ValidSetting(x) && ThreadOk(x, world) && world.thread.Some? && !step.SendBackThread?
    ensures ThreadOk(x, ThreadStep(x, world, world.thread.value, step))
  {
    if step.MarkThread? {
      if MayMark(step.op) {
        MarkedStateOk(x.cfg, world.thread.value, step.op);
      }
    } else if step.Checkpoint? {
      if MayCheckpoint(x, world, world.thread.value, step.attempt) {
        AfterStepRight(x, world, world.thread.value, step.attempt);
      }
    } else if !step.ResumeThread? && !step.BeginWorker? {
      assert BodyStep(x, world, world.thread.value, step).thread == world.thread;
    }
  }

  lemma TakeStateOk(x: Setting, world: World, step: Step)
    requires ValidSetting(x) && ThreadOk(x, world)
    ensures ThreadOk(x, Take(x, world, step))
  {
    if step.StartThread? {
      InitialStateOk(x.cfg, x.app);
    } else if world.thread.Some? && !step.Outside? {
      if !step.SendBackThread? {
        ThreadStepStateOk(x, world, step);
      } else if step.restart != HumanReview {
        SendBackStateOk(x, world, step.restart);
      }
    }
  }

  lemma {:induction false} EveryRunHolds(x: Setting, steps: seq<Step>)
    requires ValidSetting(x)
    ensures ThreadOk(x, RunSteps(x, steps)) && Holds(RunSteps(x, steps), Lost(x, steps))
  {
    if steps != [] {
      var earlier := steps[..|steps| - 1];
      EveryRunHolds(x, earlier);
      TakeStateOk(x, RunSteps(x, earlier), steps[|steps| - 1]);
      TakeHolds(x, RunSteps(x, earlier), Lost(x, earlier), steps[|steps| - 1]);
    }
  }

  // ---- over every run ----

  predicate InReview(world: World) {
    world.thread.Some? && world.thread.value.status.WaitingForReview?
  }

  lemma ReviewIsGuarded(x: Setting, s: ThreadState)
    requires ValidSetting(x) && StateOk(x.cfg, s) && s.status.WaitingForReview?
    ensures Guardrails in s.completed
  {
    assert s.completed == FIXED_ORDER;
    assert s.completed[5] == Guardrails;
  }

  /**
   * Over every run: a thread in review has cited evidence, and of each worker that saves
   * one it has the artifact exactly unless a refused send-back removed it and it was not
   * saved again. Whatever was rewound and skipped, a pass that got through the guardrails
   * had the artifacts of eligibility and of every other worker.
   */
  lemma ReviewHasArtifactsExactly(x: Setting, steps: seq<Step>, w: WorkerName)
    requires ValidSetting(x) && InReview(RunSteps(x, steps)) && SavesArtifact(w)
    ensures w in RunSteps(x, steps).artifacts <==> w !in Lost(x, steps)
    ensures RunSteps(x, steps).thread.value.evidence != []
  {
    EveryRunHolds(x, steps);
    ReviewIsGuarded(x, RunSteps(x, steps).thread.value);
    AllBefore(RunSteps(x, steps).artifacts + Lost(x, steps), w);
  }

  lemma AllBefore(saved: set<WorkerName>, w: WorkerName)
    requires PrefixClosed(saved) && Suggestion in saved && SavesArtifact(w)
    ensures w in saved
  {
  }

  /** No send-back of the run is refused. */
  predicate NoRefusal(x: Setting, steps: seq<Step>)
    requires x.cfg.order != []
  {
    forall i :: 0 <= i < |steps| ==> !RefusedSendBack(RunSteps(x, steps[..i]), steps[i])
  }

  lemma {:induction false} NothingLost(x: Setting, steps: seq<Step>)
    requires x.cfg.order != [] && NoRefusal(x, steps)
    ensures Lost(x, steps) == {}
  {
    if steps != [] {
      var n := |steps| - 1;
      assert forall i :: 0 <= i < n ==> steps[..n][..i] == steps[..i];
      NothingLost(x, steps[..n]);
      assert !RefusedSendBack(RunSteps(x, steps[..n]), steps[n]);
    }
  }

  /** Over every run without a refused send-back a thread in review has the eligibility artifact, and all others. */
  lemma ReviewHasEligibilityArtifact(x: Setting, steps: seq<Step>, w: WorkerName)
    requires ValidSetting(x) && NoRefusal(x, steps) && InReview(RunSteps(x, steps)) && SavesArtifact(w)
    ensures w in RunSteps(x, steps).artifacts
  {
    NothingLost(x, steps);
    ReviewHasArtifactsExactly(x, steps, w);
  }

  // ---- the guard at a forward rewind ----

  lemma NothingToCite(
    g: Guard.Guard, s: ThreadState, a: BorrowerApplication, r: RetrievalResult, b: SuggestionBundle,
    resolution: Guard.Resolution)
    requires s.evidence == []
    ensures Guard.Verdict(g, s, a, r, b, resolution).Some?
  {
  }

  /**
   * Where the graph has counted skipped workers as completed, the guard finds no cited
   * evidence, whatever artifacts it loads, and its refusal stops the thread short of
   * review.
   */
  lemma GuardStopsForwardRewind(
    cfg: GraphConfig, app: AppId, script: WorkerName -> Attempt, g: Guard.Guard, a: BorrowerApplication,
    r: RetrievalResult, b: SuggestionBundle, resolution: Guard.Resolution)
    requires ValidConfig(cfg) && GuardedOrder(cfg.order) && GraphHistory.PositiveLimits(cfg) && cfg.order == FIXED_ORDER
    ensures var m := RunOps(cfg, [(Start(app, GraphHistory.Stuck), 0)]);
            && m.thread.Some? && RewindRefusal(cfg, m, WorkerName.Guardrails).None?
            && GraphHistory.SkippedToGuardrails(Rewound(cfg, m, WorkerName.Guardrails, 0).thread.value)
            && var s, attempt := Rewound(cfg, m, WorkerName.Guardrails, 0).thread.value, script(WorkerName.Guardrails);
               var verdict := Guard.Verdict(g, s, a, r, b, resolution);
               && verdict.Some?
               && (attempt.ending == Raises(verdict.value) && attempt.tools == [] ==>
                     !GraphTheorems.ReachesReview(cfg, m, WorkerName.Guardrails, script, 0))
  {
    var m := RunOps(cfg, [(Start(app, GraphHistory.Stuck), 0)]);
    GraphHistory.ForwardRewindCountsSkipped(cfg, app);
    var s := Rewound(cfg, m, WorkerName.Guardrails, 0).thread.value;
    NothingToCite(g, s, a, r, b, resolution);
    RefusedGuardStops(cfg, m, script);
  }

  lemma RefusedGuardStops(cfg: GraphConfig, m: Memory, script: WorkerName -> Attempt)
    requires ValidConfig(cfg) && cfg.order == FIXED_ORDER && m.thread.Some? && StateOk(cfg, m.thread.value)
    requires m.row.Some?
    requires RewindRefusal(cfg, m, WorkerName.Guardrails).None?
    ensures script(WorkerName.Guardrails).ending.Raises? && script(WorkerName.Guardrails).tools == [] ==>
              !GraphTheorems.ReachesReview(cfg, m, WorkerName.Guardrails, script, 0)
  {
    GraphTheorems.RewindReachesReview(cfg, m, WorkerName.Guardrails, script, 0);
    FixedIndices();
    assert FIXED_ORDER[5..][0] == WorkerName.Guardrails;
  }
}
