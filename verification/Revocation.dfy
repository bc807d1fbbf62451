/**
 * Which revocations of a stored precedent last: a precedent that a reviewer revoked or
 * superseded can be stored again, active, by a write-back that is still to come.
 */
module Revocation {
  import opened Wrappers
  import opened Decimals
  import opened MatchingSchema
  import opened Facts
  import opened RulesEngine
  import opened Assembler
  import opened Bundles
  import opened WorkflowSchema
  import opened WorkflowService
  import opened WorkflowRepository
  import opened AuditLog
  import opened PrecedentStore
  import opened Writeback

  // ---- continuations ----

  function Onwards(cfg: WritebackConfig, s: System, more: seq<Action>): System
    decreases |more|
  {
    if more == [] then s else Onwards(cfg, Step(cfg, s, more[0]), more[1..])
  }

  lemma {:induction false} OnwardsTwice(cfg: WritebackConfig, s: System, a: seq<Action>, b: seq<Action>)
    ensures Onwards(cfg, s, a + b) == Onwards(cfg, Onwards(cfg, s, a), b)
    decreases |a|
  {
    if a == [] {
      assert a + b == b;
    } else {
      assert (a + b)[0] == a[0] && (a + b)[1..] == a[1..] + b;
      OnwardsTwice(cfg, Step(cfg, s, a[0]), a[1..], b);
    }
  }

  /** A continued run is a run. */
  lemma {:induction false} RunOnwards(cfg: WritebackConfig, seeded: Points, actions: seq<Action>, more: seq<Action>)
    ensures Onwards(cfg, RunActions(cfg, seeded, actions), more) == RunActions(cfg, seeded, actions + more)
    decreases |more|
  {
    if more == [] {
      assert actions + more == actions;
    } else {
      assert (actions + [more[0]])[..|actions|] == actions;
      assert actions + more == (actions + [more[0]]) + more[1..];
      RunOnwards(cfg, seeded, actions + [more[0]], more[1..]);
    }
  }

  predicate Inactive(s: System, app: AppId) {
    PointId(app) in s.points && s.points[PointId(app)].lifecycle != Active
  }

  /** Anything but a manual activation of this precedent. */
  predicate Leaves(app: AppId, action: Action) {
    Proper(action) && !(action.ChangeLifecycle? && action.caseId == app && action.status == Active)
  }

  predicate AllLeave(app: AppId, more: seq<Action>) {
    forall i :: 0 <= i < |more| ==> Leaves(app, more[i])
  }

  /** Nothing but a manual activation ever makes the precedent active again. */
  ghost predicate Survives(cfg: WritebackConfig, s: System, app: AppId) {
    forall more :: AllLeave(app, more) ==> Inactive(Onwards(cfg, s, more), app)
  }

  // ---- the condition ----

  /** Some decision on some suggestion has a plan for this application. */
  ghost predicate Plannable(cfg: WritebackConfig, app: AppId) {
    exists suggestion, d :: Plan(cfg, app, suggestion, d).Ok?
  }

  /** The case admits no write-back any more: none is possible, it is written, or its settled decision has no plan. */
  ghost predicate Closed(cfg: WritebackConfig, s: Store, app: AppId) {
    || !Plannable(cfg, app)
    || (SettledIn(s, app) && (s.workflows[app].state == PrecedentWritten || PlanOf(cfg, s, app).Err?))
  }

  /** A writer that got past its checks and can still store its copy. */
  predicate CanStore(s: System, app: AppId, c: WriterId) {
    var p := PhaseOf(s, c);
    || (p.Begun? && p.w.app == app)
    || (p.Built? && p.w.app == app && Begin(s.outbox, p.w.id, app, PayloadHash(p.precedent)).Some?)
  }

  ghost predicate Safe(cfg: WritebackConfig, s: System, app: AppId) {
    Closed(cfg, s.store, app) && forall c :: c in s.writers ==> !CanStore(s, app, c)
  }

  // ---- a safe revocation lasts ----

  lemma ClosedStays(cfg: WritebackConfig, s: Store, app: AppId, request: Request)
    requires Closed(cfg, s, app)
    ensures Closed(cfg, Execute(s, request).0, app)
  {
    if Plannable(cfg, app) {
      SettledIsFrozen(s, app, request);
    }
  }

  /** Nothing is prepared for a closed case. */
  lemma ClosedPreparesNothing(cfg: WritebackConfig, s: Store, app: AppId, version: nat)
    requires Closed(cfg, s, app) && app in s.workflows
    ensures Prepare(cfg, app, s.workflows[app], version).Err?
  {
    var r := s.workflows[app];
    if !Plannable(cfg, app) && r.decision.Some? {
      assert Plan(cfg, app, r.suggestion, r.decision.value).Err?;
    }
  }

  lemma RefusedStays(
    outbox: Outbox, id: CommandId, app: AppId, hash: PayloadHash, other: CommandId, otherApp: AppId,
    otherHash: PayloadHash)
    requires Begin(outbox, id, app, hash).None?
    ensures Begin(outbox, other, otherApp, otherHash).Some? ==>
              Begin(Begin(outbox, other, otherApp, otherHash).value, id, app, hash).None?
    ensures forall status :: Begin(SetStatus(outbox, other, status), id, app, hash).None?
  {
  }

  /** The parts of a step that matter here: which writers can store, and the point. */
  ghost predicate StillSafe(s: System, s': System, app: AppId) {
    && (PointId(app) in s'.points && PointId(app) in s.points && s'.points[PointId(app)] == s.points[PointId(app)])
    && forall c :: c in s'.writers ==> !CanStore(s', app, c)
  }

  lemma MoveIsSafe(s: System, app: AppId, c: WriterId, p: Phase, store: Store)
    requires Inactive(s, app) && forall d :: d in s.writers ==> !CanStore(s, app, d)
    requires (p.Built? || p.Begun?) ==> p.w.app != app
    ensures StillSafe(s, Move(s.(store := store), c, p), app)
  {
    var s' := Move(s.(store := store), c, p);
    forall d | d in s'.writers
      ensures !CanStore(s', app, d)
    {
      if d != c {
        assert d in s.writers && PhaseOf(s', d) == PhaseOf(s, d);
      }
    }
  }

  lemma OutboxIsSafe(s: System, app: AppId, c: WriterId, p: Phase, outbox: Outbox)
    requires Inactive(s, app) && forall d :: d in s.writers ==> !CanStore(s, app, d)
    requires (p.Built? || p.Begun?) ==> p.w.app != app
    requires forall id, hash :: Begin(s.outbox, id, app, hash).None? ==> Begin(outbox, id, app, hash).None?
    ensures StillSafe(s, Move(s.(outbox := outbox), c, p), app)
  {
    var s' := Move(s.(outbox := outbox), c, p);
    forall d | d in s'.writers
      ensures !CanStore(s', app, d)
    {
      if d != c {
        assert d in s.writers && PhaseOf(s', d) == PhaseOf(s, d) && !CanStore(s, app, d);
      }
    }
  }

  lemma LookIsSafe(cfg: WritebackConfig, s: System, app: AppId, c: WriterId, w: WriteRequest, now: Timestamp)
    requires Inactive(s, app) && Safe(cfg, s, app)
    ensures StillSafe(s, Look(cfg, s, c, w, now), app) && Closed(cfg, Look(cfg, s, c, w, now).store, app)
  {
    var s' := Look(cfg, s, c, w, now);
    if w.app in s.store.workflows {
      var record := s.store.workflows[w.app];
      if record.state == PrecedentWritten && record.receipt.Some? {
        ClosedStays(cfg, s.store, app, MarkRequest(w, record.receipt.value, now));
      } else if w.app == app {
        ClosedPreparesNothing(cfg, s.store, app, w.version);
      }
    }
    assert s' == Move(s.(store := s'.store), c, PhaseOf(s', c));
    MoveIsSafe(s, app, c, PhaseOf(s', c), s'.store);
  }

  lemma BuiltIsSafe(cfg: WritebackConfig, s: System, app: AppId, c: WriterId, now: Timestamp)
    requires Inactive(s, app) && Safe(cfg, s, app) && PhaseOf(s, c).Built?
    ensures StillSafe(s, Writeback.Advance(cfg, s, c, now), app)
  {
    var p := PhaseOf(s, c);
    assert c in s.writers && !CanStore(s, app, c);
    var begun := Begin(s.outbox, p.w.id, p.w.app, PayloadHash(p.precedent));
    if begun.None? {
      MoveIsSafe(s, app, c, Answered(p.w, false), s.store);
      assert s.(store := s.store) == s;
    } else {
      forall id, hash | Begin(s.outbox, id, app, hash).None?
        ensures Begin(begun.value, id, app, hash).None?
      {
        RefusedStays(s.outbox, id, app, hash, p.w.id, p.w.app, PayloadHash(p.precedent));
      }
      OutboxIsSafe(s, app, c, Begun(p.w, p.precedent), begun.value);
    }
  }

  lemma StatusIsSafe(s: System, app: AppId, c: WriterId, p: Phase, id: CommandId, status: OutboxStatus)
    requires Inactive(s, app) && forall d :: d in s.writers ==> !CanStore(s, app, d)
    requires !p.Built? && !p.Begun?
    ensures StillSafe(s, Move(s.(outbox := SetStatus(s.outbox, id, status)), c, p), app)
  {
    forall other, hash | Begin(s.outbox, other, app, hash).None?
      ensures Begin(SetStatus(s.outbox, id, status), other, app, hash).None?
    {
      RefusedStays(s.outbox, other, app, hash, id, app, hash);
    }
    OutboxIsSafe(s, app, c, p, SetStatus(s.outbox, id, status));
  }

  lemma UpsertIsSafe(s: System, app: AppId, c: WriterId, p: Phase)
    requires Inactive(s, app) && p.Begun? && p.w.app != app && p.precedent.caseId == p.w.app
    requires forall d :: d in s.writers ==> !CanStore(s, app, d)
    ensures StillSafe(s, Move(s.(points := s.points[PointId(p.precedent.caseId) := p.precedent]), c,
        Upserted(p.w, p.precedent)), app)
  {
    var s' := Move(s.(points := s.points[PointId(p.precedent.caseId) := p.precedent]), c, Upserted(p.w, p.precedent));
    forall d | d in s'.writers
      ensures !CanStore(s', app, d)
    {
      if d != c {
        assert d in s.writers && PhaseOf(s', d) == PhaseOf(s, d) && !CanStore(s, app, d);
      }
    }
  }

  /** A writer on its way to the collection. */
  lemma EarlyAdvanceIsSafe(cfg: WritebackConfig, s: System, app: AppId, c: WriterId, now: Timestamp)
    requires Inactive(s, app) && Safe(cfg, s, app)
    requires (PhaseOf(s, c).Requested? || PhaseOf(s, c).Built? || PhaseOf(s, c).Begun?)
    requires c in s.writers ==> PhaseOk(cfg, s, s.writers[c])
    ensures StillSafe(s, Writeback.Advance(cfg, s, c, now), app)
    ensures Closed(cfg, Writeback.Advance(cfg, s, c, now).store, app)
  {
    var p := PhaseOf(s, c);
    match p
    case Requested(w) => LookIsSafe(cfg, s, app, c, w, now);
    case Built(_, _) => BuiltIsSafe(cfg, s, app, c, now);
    case Begun(_, _) =>
      assert !CanStore(s, app, c);
      UpsertIsSafe(s, app, c, p);
    case _ =>
  }

  lemma AdvanceIsSafe(cfg: WritebackConfig, s: System, app: AppId, c: WriterId, now: Timestamp)
    requires Inactive(s, app) && Safe(cfg, s, app)
    requires c in s.writers ==> PhaseOk(cfg, s, s.writers[c])
    ensures StillSafe(s, Writeback.Advance(cfg, s, c, now), app)
    ensures Closed(cfg, Writeback.Advance(cfg, s, c, now).store, app)
  {
    var p := PhaseOf(s, c);
    assert s.(store := s.store) == s;
    match p
    case Idle =>
    case Upserted(w, precedent) =>
      MoveIsSafe(s, app, c,
        if ReadsAs(s.points, PointId(precedent.caseId), precedent) then Confirmed(w, precedent) else Failing(w),
        s.store);
    case Confirmed(w, precedent) =>
      StatusIsSafe(s, app, c, Noted(w, precedent), w.id, Completed(ReceiptFor(precedent)));
    case Noted(w, precedent) =>
      var request := MarkRequest(w, ReceiptFor(precedent), now);
      ClosedStays(cfg, s.store, app, request);
      MoveIsSafe(s, app, c, Answered(w, Execute(s.store, request).1.Ok?), Execute(s.store, request).0);
    case Failing(w) => StatusIsSafe(s, app, c, Answered(w, false), w.id, Failed);
    case Rereading(w, receipt) => MoveIsSafe(s, app, c, Answered(w, Confirms(s.points, receipt)), s.store);
    case Answered(_, _) => MoveIsSafe(s, app, c, Idle, s.store);
    case _ => EarlyAdvanceIsSafe(cfg, s, app, c, now);
  }

  lemma SameWritersAreSafe(s: System, s': System, app: AppId)
    requires forall c :: c in s.writers ==> !CanStore(s, app, c)
    requires s'.writers == s.writers && s'.outbox == s.outbox
    ensures forall c :: c in s'.writers ==> !CanStore(s', app, c)
  {
    forall c | c in s'.writers
      ensures !CanStore(s', app, c)
    {
      assert !CanStore(s, app, c);
    }
  }

  lemma ChangeIsSafe(s: System, app: AppId, caseId: CaseId, status: PrecedentStatus)
    requires Inactive(s, app) && (caseId != app || status != Active)
    ensures Inactive(s.(points := WithLifecycle(s.points, caseId, status)), app)
  {
  }

  /** A step of a writer, or of nobody. */
  lemma SubmitIsSafe(cfg: WritebackConfig, s: System, app: AppId, action: Action)
    requires Inactive(s, app) && Safe(cfg, s, app) && (action.Submit? || action.Fail? || action.Crash?)
    ensures Inactive(Step(cfg, s, action), app) && Safe(cfg, Step(cfg, s, action), app)
  {
    assert s.(store := s.store) == s;
    match action
    case Submit(c, w) =>
      MoveIsSafe(s, app, c, if PipelineRole in w.actor.roles then Requested(w) else Answered(w, false), s.store);
    case Fail(c) =>
      if PhaseOf(s, c).Begun? || PhaseOf(s, c).Upserted? {
        MoveIsSafe(s, app, c, Failing(PhaseOf(s, c).w), s.store);
      }
    case Crash(c) => MoveIsSafe(s, app, c, Idle, s.store);
  }

  lemma SafeStep(cfg: WritebackConfig, seeded: Points, s: System, app: AppId, action: Action)
    requires Inv(cfg, seeded, s) && Inactive(s, app) && Safe(cfg, s, app) && Leaves(app, action)
    ensures Inactive(Step(cfg, s, action), app) && Safe(cfg, Step(cfg, s, action), app)
  {
    match action
    case Proceed(c, now) => AdvanceIsSafe(cfg, s, app, c, now);
    case UseWorkflow(request) =>
      ClosedStays(cfg, s.store, app, request);
      SameWritersAreSafe(s, Step(cfg, s, action), app);
    case ChangeLifecycle(caseId, status) =>
      ChangeIsSafe(s, app, caseId, status);
      SameWritersAreSafe(s, Step(cfg, s, action), app);
    case _ => SubmitIsSafe(cfg, s, app, action);
  }

  ghost predicate SafeState(cfg: WritebackConfig, seeded: Points, app: AppId, s: System) {
    Inv(cfg, seeded, s) && Inactive(s, app) && Safe(cfg, s, app)
  }

  lemma SafeStateStays(cfg: WritebackConfig, seeded: Points, app: AppId, s: System, action: Action)
    requires SafeState(cfg, seeded, app, s) && Leaves(app, action)
    ensures SafeState(cfg, seeded, app, Step(cfg, s, action))
  {
    SafeStep(cfg, seeded, s, app, action);
    StepKeepsInv(cfg, seeded, s, action);
  }

  /** What every action of a continuation keeps holds after it. */
  lemma {:induction false} OnwardsKeeps(cfg: WritebackConfig, s: System, more: seq<Action>, P: System -> bool)
    requires P(s) && forall x, i :: 0 <= i < |more| && P(x) ==> P(Step(cfg, x, more[i]))
    ensures P(Onwards(cfg, s, more))
    decreases |more|
  {
    if more != [] {
      assert forall i :: 0 <= i < |more[1..]| ==> more[1..][i] == more[i + 1];
      OnwardsKeeps(cfg, Step(cfg, s, more[0]), more[1..], P);
    }
  }

  lemma SafeOnwards(cfg: WritebackConfig, seeded: Points, app: AppId, s: System, more: seq<Action>)
    requires SafeState(cfg, seeded, app, s) && AllLeave(app, more)
    ensures SafeState(cfg, seeded, app, Onwards(cfg, s, more))
  {
    forall x, i | 0 <= i < |more| && SafeState(cfg, seeded, app, x)
      ensures SafeState(cfg, seeded, app, Step(cfg, x, more[i]))
    {
      SafeStateStays(cfg, seeded, app, x, more[i]);
    }
    OnwardsKeeps(cfg, s, more, x => SafeState(cfg, seeded, app, x));
  }

  // ---- an unsafe one can be lost ----

  lemma {:induction false} Above(used: set<nat>) returns (n: nat)
    ensures forall x :: x in used ==> x < n
  {
    if used == {} {
      n := 0;
    } else {
      var x :| x in used;
      var m := Above(used - {x});
      n := if x < m then m else x + 1;
      forall y | y in used
        ensures y < n
      {
        assert y == x || y in used - {x};
      }
    }
  }

  function Uuids(ids: set<CommandId>): set<nat> {
    set id | id in ids && id.Client? :: id.uuid
  }

  lemma FreshAmong(ids: set<CommandId>) returns (id: CommandId)
    ensures id.Client? && id !in ids
  {
    var n := Above(Uuids(ids));
    id := Client(n);
    forall other | other in ids
      ensures other != id
    {
      if other.Client? {
        assert other.uuid in Uuids(ids);
      }
    }
  }

  function CommandIds(s: Store): set<CommandId> {
    set key | key in s.commands :: key.1
  }

  /** An identifier no command and no outbox row uses yet. */
  lemma FreshId(s: Store, outbox: Outbox, app: AppId) returns (id: CommandId)
    ensures (app, id) !in s.commands && id !in outbox
  {
    id := FreshAmong(CommandIds(s) + outbox.Keys);
    forall key | key in s.commands
      ensures key.1 != id
    {
      assert key.1 in CommandIds(s);
    }
  }

  const ANYONE := Actor("anyone", "Anyone", {PipelineRole, HumanReviewerRole})

  predicate Stored(s: System, app: AppId) {
    PointId(app) in s.points && s.points[PointId(app)].lifecycle == Active
  }

  /** The case is decided with a plan, so a write-back can begin. */
  predicate Ready(cfg: WritebackConfig, s: Store, app: AppId) {
    SettledIn(s, app) && s.workflows[app].state == HumanDecided && PlanOf(cfg, s, app).Ok?
  }

  /** A write-back of a decided case, as far as the upsert. */
  function FourSteps(c: WriterId, w: WriteRequest): seq<Action> {
    [Submit(c, w), Proceed(c, 0), Proceed(c, 0), Proceed(c, 0)]
  }

  function WriteFor(s: Store, app: AppId, id: CommandId): WriteRequest
    requires app in s.workflows
  {
    WriteRequest(app, id, s.workflows[app].version, "", ANYONE)
  }

  lemma OneOnwards(cfg: WritebackConfig, s: System, a: Action)
    ensures Onwards(cfg, s, [a]) == Step(cfg, s, a)
  {
    assert [a][1..] == [];
  }

  lemma TwoOnwards(cfg: WritebackConfig, s: System, a: Action, b: Action)
    ensures Onwards(cfg, s, [a, b]) == Step(cfg, Step(cfg, s, a), b)
  {
    OnwardsTwice(cfg, s, [a], [b]);
    assert [a] + [b] == [a, b];
    OneOnwards(cfg, s, a);
    OneOnwards(cfg, Step(cfg, s, a), b);
  }

  /** What a stored copy leaves alone. */
  ghost predicate StoredBy(s: System, s': System, app: AppId, c: WriterId, id: CommandId) {
    && Stored(s', app) && PhaseOf(s', c).Upserted? && s'.points[PointId(app)] == PhaseOf(s', c).precedent
    && s'.store == s.store && s'.touched == s.touched
    && (forall d :: d in s'.writers ==> d == c || (d in s.writers && s'.writers[d] == s.writers[d]))
    && (forall other :: other in s'.outbox ==> other == id || other in s.outbox)
  }

  lemma BuiltStores(cfg: WritebackConfig, s: System, c: WriterId)
    requires var p := PhaseOf(s, c);
             && p.Built? && p.precedent.caseId == p.w.app && p.precedent.lifecycle == Active
             && Begin(s.outbox, p.w.id, p.w.app, PayloadHash(p.precedent)).Some?
    ensures StoredBy(s, Onwards(cfg, s, [Proceed(c, 0), Proceed(c, 0)]), PhaseOf(s, c).w.app, c, PhaseOf(s, c).w.id)
    ensures PhaseOf(Onwards(cfg, s, [Proceed(c, 0), Proceed(c, 0)]), c).precedent == PhaseOf(s, c).precedent
  {
    var p := PhaseOf(s, c);
    var s1 := Step(cfg, s, Proceed(c, 0));
    assert PhaseOf(s1, c) == Begun(p.w, p.precedent);
    TwoOnwards(cfg, s, Proceed(c, 0), Proceed(c, 0));
  }

  lemma ReadyPrepares(cfg: WritebackConfig, s: Store, app: AppId)
    requires Ready(cfg, s, app)
    ensures Prepare(cfg, app, s.workflows[app], s.workflows[app].version) == PlanOf(cfg, s, app)
    ensures s.workflows[app].state == HumanDecided && PlanOf(cfg, s, app).Ok?
  {
  }

  lemma LookBuilds(cfg: WritebackConfig, s: System, c: WriterId, w: WriteRequest, precedent: DecidedLoanCase)
    requires w.app in s.store.workflows && s.store.workflows[w.app].state == HumanDecided
    requires Prepare(cfg, w.app, s.store.workflows[w.app], w.version) == Ok(precedent)
    ensures Look(cfg, s, c, w, 0) == Move(s, c, Built(w, precedent))
  {
  }

  lemma SubmitThenLook(cfg: WritebackConfig, s: System, c: WriterId, w: WriteRequest)
    requires PhaseOf(s, c).Idle? && PipelineRole in w.actor.roles
    ensures Onwards(cfg, s, [Submit(c, w), Proceed(c, 0)]) == Look(cfg, Move(s, c, Requested(w)), c, w, 0)
  {
    assert Step(cfg, s, Submit(c, w)) == Move(s, c, Requested(w));
    TwoOnwards(cfg, s, Submit(c, w), Proceed(c, 0));
  }

  lemma WriterBuilds(cfg: WritebackConfig, s: System, app: AppId, c: WriterId, id: CommandId)
    requires Ready(cfg, s.store, app) && PhaseOf(s, c).Idle?
    ensures var w := WriteFor(s.store, app, id);
            Onwards(cfg, s, [Submit(c, w), Proceed(c, 0)]) == Move(s, c, Built(w, PlanOf(cfg, s.store, app).value))
  {
    var w := WriteFor(s.store, app, id);
    ReadyPrepares(cfg, s.store, app);
    SubmitThenLook(cfg, s, c, w);
    LookBuilds(cfg, Move(s, c, Requested(w)), c, w, PlanOf(cfg, s.store, app).value);
  }

  lemma FourStepsOnwards(cfg: WritebackConfig, s: System, c: WriterId, w: WriteRequest)
    ensures Onwards(cfg, s, FourSteps(c, w))
         == Onwards(cfg, Onwards(cfg, s, [Submit(c, w), Proceed(c, 0)]), [Proceed(c, 0), Proceed(c, 0)])
  {
    OnwardsTwice(cfg, s, [Submit(c, w), Proceed(c, 0)], [Proceed(c, 0), Proceed(c, 0)]);
    assert [Submit(c, w), Proceed(c, 0)] + [Proceed(c, 0), Proceed(c, 0)] == FourSteps(c, w);
  }

  lemma ReadyCase(cfg: WritebackConfig, s: Store, app: AppId)
    requires Ready(cfg, s, app)
    ensures PlanOf(cfg, s, app).value.caseId == app && PlanOf(cfg, s, app).value.lifecycle == Active
  {
    PlannedCase(cfg, app, s.workflows[app].suggestion, s.workflows[app].decision.value);
  }

  /** Whatever has happened to the point, a write-back of a decided case stores it active. */
  lemma WriterStores(cfg: WritebackConfig, s: System, app: AppId, c: WriterId, id: CommandId)
    requires Ready(cfg, s.store, app) && PhaseOf(s, c).Idle? && id !in s.outbox
    ensures var s' := Onwards(cfg, s, FourSteps(c, WriteFor(s.store, app, id)));
            StoredBy(s, s', app, c, id) && s'.points[PointId(app)] == PlanOf(cfg, s.store, app).value
  {
    var w, precedent := WriteFor(s.store, app, id), PlanOf(cfg, s.store, app).value;
    ReadyCase(cfg, s.store, app);
    WriterBuilds(cfg, s, app, c, id);
    BuiltStoresCopy(cfg, s, app, c, w, precedent);
    FourStepsOnwards(cfg, s, c, w);
  }

  lemma BuiltStoresCopy(
    cfg: WritebackConfig, s: System, app: AppId, c: WriterId, w: WriteRequest, precedent: DecidedLoanCase)
    requires w.app == app && precedent.caseId == app && precedent.lifecycle == Active && w.id !in s.outbox
    ensures var s' := Onwards(cfg, Move(s, c, Built(w, precedent)), [Proceed(c, 0), Proceed(c, 0)]);
            StoredBy(s, s', app, c, w.id) && s'.points[PointId(app)] == precedent
  {
    BuiltStores(cfg, Move(s, c, Built(w, precedent)), c);
  }

  /** A writer that can store holds the active case of its application. */
  lemma StorerHoldsCase(cfg: WritebackConfig, s: System, app: AppId, c: WriterId)
    requires CanStore(s, app, c) && PhaseOk(cfg, s, PhaseOf(s, c))
    ensures PhaseOf(s, c).precedent.caseId == app && PhaseOf(s, c).precedent.lifecycle == Active
  {
    PlannedCase(cfg, app, s.store.workflows[app].suggestion, s.store.workflows[app].decision.value);
  }

  lemma LateWriterStores(cfg: WritebackConfig, s: System, app: AppId, c: WriterId) returns (more: seq<Action>)
    requires CanStore(s, app, c) && PhaseOf(s, c).precedent.caseId == app && PhaseOf(s, c).precedent.lifecycle == Active
    ensures AllLeave(app, more) && Stored(Onwards(cfg, s, more), app)
  {
    var p := PhaseOf(s, c);
    if p.Begun? {
      more := [Proceed(c, 0)];
      OneOnwards(cfg, s, Proceed(c, 0));
    } else {
      more := [Proceed(c, 0), Proceed(c, 0)];
      BuiltStores(cfg, s, c);
    }
  }

  // ---- every open case can be decided ----

  const FUNDER: FunderId := "funder"

  function AdvisedApplication(app: AppId): (a: BorrowerApplication)
    requires app != ""
    ensures ValidApplication(a) && a.applicationId == app
    ensures a.financeContext == FINANCE_CONTEXT && a.operationsContext == OPERATIONS_CONTEXT
  {
    SampleIsFormed(Metadata(app, TermLoan, 1.0), FromInt(1));
    FormApplication(Metadata(app, TermLoan, 1.0), SampleEvidence(FromInt(1))).value
  }

  const PASSED := RuleCheck(Industry, true)
  const ADVISED_CANDIDATE :=
    AdvisoryCandidate(FUNDER, FUNDER, [PASSED, PASSED, PASSED, PASSED, PASSED, PASSED, PASSED, PASSED], [], true)

  function BundleFor(a: BorrowerApplication): (bundle: SuggestionBundle)
    ensures IsCandidate(bundle, FUNDER) && ValidParts(bundle) && ValidPartition(bundle) && bundle.application == a
  {
    var bundle := SuggestionBundle(a, [ADVISED_CANDIDATE], [], []);
    assert bundle.candidates[0] in bundle.candidates;
    bundle
  }

  /** A bundle, and a decision about it. */
  datatype Advice = Advice(bundle: SuggestionBundle, decision: HumanDecisionRecord)

  /** The decision about the bundle has a plan for this application. */
  predicate Advises(cfg: WritebackConfig, b: Advice, app: AppId) {
    Plan(cfg, app, Some(BundlePayload(b.bundle)), b.decision).Ok?
  }

  lemma AdviceExists(cfg: WritebackConfig, app: AppId) returns (b: Advice)
    requires Plannable(cfg, app)
    ensures Advises(cfg, b, app) && Decisive(b)
  {
    var suggestion, d :| Plan(cfg, app, suggestion, d).Ok?;
    b := Advice(suggestion.value.bundle, d);
    PlannedIsValid(cfg, b, app);
  }

  const PLAIN_REASON := "meets the policy"
  const PLAIN_DECISION := HumanDecisionRecord(Approve, Some(FUNDER), PLAIN_REASON, [], [], "anyone", "Anyone", 0)

  /** The settings are valid, and redaction leaves something of plain texts without blowing them up. */
  predicate PlainRedaction(cfg: WritebackConfig) {
    && ValidSettings(cfg) && ValidText(Strip(cfg.redact(PLAIN_REASON)))
    && ValidText(Strip(cfg.redact(FINANCE_CONTEXT))) && ValidText(Strip(cfg.redact(OPERATIONS_CONTEXT)))
  }

  lemma FunderIsPlain()
    ensures Strip(FUNDER) == FUNDER
  {
  }

  /**
   * With a redaction that keeps plain texts, an application can be written back exactly
   * when it is named like a case.
   */
  lemma PlannableExactly(cfg: WritebackConfig, app: AppId)
    requires PlainRedaction(cfg)
    ensures Plannable(cfg, app) <==> ValidCaseId(app)
  {
    if Plannable(cfg, app) {
      var suggestion, d :| Plan(cfg, app, suggestion, d).Ok?;
      PlannedCase(cfg, app, suggestion, d);
    }
    if ValidCaseId(app) {
      var a := AdvisedApplication(app);
      FunderIsPlain();
      BuiltIsValidExactly(cfg, a, PLAIN_DECISION);
      assert Plan(cfg, app, Some(BundlePayload(BundleFor(a))), PLAIN_DECISION).Ok?;
    }
  }

  predicate Advised(r: WorkflowRecord, b: Advice) {
    r.suggestion == Some(BundlePayload(b.bundle))
  }

  /** An operation that brings an open case closer to a decision with a plan. */
  function NextOperation(r: WorkflowRecord, b: Advice): Operation {
    match r.state
    case Intake => Operation.Advance(Extracted, None)
    case Extracted => Operation.Advance(RuleGated, None)
    case RuleGated => Operation.Advance(AiSuggested, Some(BundlePayload(b.bundle)))
    case AiSuggested => Operation.Advance(AwaitingHuman, None)
    case AwaitingHuman => if Advised(r, b) then DecideAs(b.decision) else Decide(SendBack, None, [], [])
    case _ => Reopen(RestartSuggestion)
  }

  function DecideAs(d: HumanDecisionRecord): Operation {
    Decide(d.action, d.funderId, d.conditions, d.overrides)
  }

  /** The reason that goes with it. */
  function NextReason(r: WorkflowRecord, b: Advice): string {
    if r.state == AwaitingHuman && Advised(r, b) then b.decision.reason else PLAIN_REASON
  }

  /** Operations left until the case is decided. */
  function Distance(s: Store, app: AppId, b: Advice): nat {
    if app !in s.workflows then 10
    else
      var r := s.workflows[app];
      match r.state
      case Intake => 5
      case Extracted => 4
      case RuleGated => 3
      case AiSuggested => if Advised(r, b) then 2 else 9
      case AwaitingHuman => if Advised(r, b) then 1 else 8
      case _ => 7
  }

  /** A consistent store, seen from one application. */
  predicate Regular(s: Store, app: AppId) {
    app in s.workflows ==>
      && s.Known(app) && s.workflows[app].applicationId == app
      && (s.workflows[app].decision.Some? <==> s.workflows[app].state in {HumanDecided, PrecedentWritten})
      && (s.workflows[app].state == PrecedentWritten ==> Settled(s.workflows[app]))
  }

  lemma ConsistentIsRegular(s: Store, app: AppId)
    requires Consistent(s)
    ensures Regular(s, app)
  {
    if app in s.workflows {
      assert CaseOk(s, app);
      assert LogOk(app, s.workflows[app], s.events[app]);
    }
  }

  function NextRequest(s: Store, app: AppId, id: CommandId, b: Advice): Request
    requires Regular(s, app)
  {
    if app !in s.workflows then CreateRequest(app, ANYONE, id, PLAIN_REASON, 0)
    else
      var r := s.workflows[app];
      CommandRequest(app, ANYONE, Command(id, r.version, NextReason(r, b), NextOperation(r, b)), 0)
  }

  /** The same decision, whoever took it and whenever. */
  predicate SameDecision(d: HumanDecisionRecord, e: HumanDecisionRecord) {
    d.action == e.action && d.funderId == e.funderId && d.reason == e.reason && d.conditions == e.conditions
      && d.overrides == e.overrides
  }

  lemma SameDecisionIsPlanned(
    cfg: WritebackConfig, app: AppId, suggestion: Option<SuggestionPayload>, d: HumanDecisionRecord,
    e: HumanDecisionRecord)
    requires SameDecision(d, e) && Plan(cfg, app, suggestion, e).Ok?
    ensures Plan(cfg, app, suggestion, d).Ok?
    ensures Plan(cfg, app, suggestion, d).value.decision.overrides == RedactOverrides(cfg, e.overrides)
  {
    var a := suggestion.value.bundle.application;
    BuiltIsValidExactly(cfg, a, d);
    BuiltIsValidExactly(cfg, a, e);
  }

  /** The workflow accepts the decision, which settles the case. */
  predicate Decisive(b: Advice) {
    ValidDecision(DecideAs(b.decision)) && b.decision.action != SendBack
  }

  lemma PlannedIsValid(cfg: WritebackConfig, b: Advice, app: AppId)
    requires Advises(cfg, b, app)
    ensures Decisive(b)
  {
    BuiltIsValidExactly(cfg, b.bundle.application, b.decision);
  }

  /** The next operation took effect. */
  predicate Progressed(r: WorkflowRecord, r': WorkflowRecord, b: Advice) {
    && r'.applicationId == r.applicationId && r'.version == r.version + 1
    && match r.state
       case Intake => r'.state == Extracted
       case Extracted => r'.state == RuleGated
       case RuleGated => r'.state == AiSuggested && Advised(r', b)
       case AiSuggested => r'.state == AwaitingHuman && r'.suggestion == r.suggestion
       case AwaitingHuman =>
         && r'.state == HumanDecided && r'.suggestion == r.suggestion && r'.decision.Some?
         && (if Advised(r, b) then SameDecision(r'.decision.value, b.decision)
              else r'.decision.value.action == SendBack)
       case _ => r'.state == RuleGated
  }

  lemma NextIsGuarded(s: Store, app: AppId, id: CommandId, b: Advice)
    requires Decisive(b) && app in s.workflows && Regular(s, app) && !SettledIn(s, app)
    ensures var r, command := s.workflows[app], NextRequest(s, app, id, b).command;
            Guard(command, ANYONE).None? && command.expectedVersion == r.version && Demanded(r, command.operation)
  {
  }

  lemma NextProgresses(s: Store, app: AppId, id: CommandId, sequence: nat, b: Advice)
    requires Decisive(b) && app in s.workflows && Regular(s, app) && !SettledIn(s, app)
    ensures var command := NextRequest(s, app, id, b).command;
            && Guard(command, ANYONE).None? && Transition(s.workflows[app], sequence, command, ANYONE, 0).Ok?
            && Progressed(s.workflows[app], Transition(s.workflows[app], sequence, command, ANYONE, 0).value.0, b)
  {
    NextIsGuarded(s, app, id, b);
    TransitionAcceptedExactly(s.workflows[app], sequence, NextRequest(s, app, id, b).command, ANYONE, 0);
  }

  lemma NextIsAccepted(s: Store, app: AppId, id: CommandId, b: Advice)
    requires Decisive(b) && app in s.workflows && Regular(s, app) && !SettledIn(s, app) && (app, id) !in s.commands
    ensures var s' := Execute(s, NextRequest(s, app, id, b)).0;
            && app in s'.workflows && Progressed(s.workflows[app], s'.workflows[app], b)
            && forall key :: key in s'.commands ==> key in s.commands || key == (app, id)
  {
    NextProgresses(s, app, id, |s.events[app]| + 1, b);
  }

  /** Ready, with the overrides of this advice. */
  predicate ReadyAs(cfg: WritebackConfig, s: Store, app: AppId, b: Advice) {
    Ready(cfg, s, app) && PlanOf(cfg, s, app).value.decision.overrides == RedactOverrides(cfg, b.decision.overrides)
  }

  lemma DecidedIsReady(cfg: WritebackConfig, s: Store, app: AppId, b: Advice)
    requires Advises(cfg, b, app)
    requires app in s.workflows && s.workflows[app].applicationId == app
    requires var r := s.workflows[app];
             && r.state == HumanDecided && Advised(r, b) && r.decision.Some?
             && SameDecision(r.decision.value, b.decision)
    ensures ReadyAs(cfg, s, app, b)
  {
    SameDecisionIsPlanned(cfg, app, s.workflows[app].suggestion, s.workflows[app].decision.value, b.decision);
  }

  /** The next operation is the decision. */
  predicate Deciding(s: Store, app: AppId, b: Advice) {
    app in s.workflows && s.workflows[app].state == AwaitingHuman && Advised(s.workflows[app], b)
  }

  lemma NextDecides(cfg: WritebackConfig, s: Store, app: AppId, id: CommandId, b: Advice)
    requires Advises(cfg, b, app) && Decisive(b) && Deciding(s, app, b)
    requires Regular(s, app) && !SettledIn(s, app) && (app, id) !in s.commands
    ensures Ready(cfg, Execute(s, NextRequest(s, app, id, b)).0, app)
  {
    NextIsAccepted(s, app, id, b);
    DecidedIsReady(cfg, Execute(s, NextRequest(s, app, id, b)).0, app, b);
  }

  lemma NextIsCloser(s: Store, app: AppId, id: CommandId, b: Advice)
    requires Decisive(b) && !Deciding(s, app, b)
    requires Regular(s, app) && !SettledIn(s, app) && (app, id) !in s.commands
    ensures var s' := Execute(s, NextRequest(s, app, id, b)).0;
            !SettledIn(s', app) && Distance(s', app, b) < Distance(s, app, b)
  {
    if app in s.workflows {
      NextIsAccepted(s, app, id, b);
    }
  }

  /** The next operation is accepted and brings an open case closer to a decision, or decides it. */
  lemma NextGetsCloser(cfg: WritebackConfig, s: Store, app: AppId, id: CommandId, b: Advice)
    requires Advises(cfg, b, app) && Decisive(b)
    requires Regular(s, app) && !SettledIn(s, app) && (app, id) !in s.commands
    ensures var s' := Execute(s, NextRequest(s, app, id, b)).0;
            Ready(cfg, s', app) || (!SettledIn(s', app) && Distance(s', app, b) < Distance(s, app, b))
  {
    if Deciding(s, app, b) {
      NextDecides(cfg, s, app, id, b);
    } else {
      NextIsCloser(s, app, id, b);
    }
  }

  lemma NextLeavesMarking(s: Store, app: AppId, id: CommandId, b: Advice)
    requires Regular(s, app)
    ensures LeavesMarking(NextRequest(s, app, id, b))
  {
  }

  function AsActions(requests: seq<Request>): (actions: seq<Action>)
    ensures |actions| == |requests|
  {
    seq(|requests|, i requires 0 <= i < |requests| => UseWorkflow(requests[i]))
  }

  predicate AllLeaveMarking(requests: seq<Request>) {
    forall i :: 0 <= i < |requests| ==> LeavesMarking(requests[i])
  }

  lemma {:induction false} ServedOnwards(cfg: WritebackConfig, s: System, requests: seq<Request>)
    ensures Onwards(cfg, s, AsActions(requests)) == s.(store := Served(s.store, requests))
    decreases |requests|
  {
    if requests != [] {
      assert AsActions(requests)[1..] == AsActions(requests[1..]);
      ServedOnwards(cfg, s.(store := Execute(s.store, requests[0]).0), requests[1..]);
    }
  }

  lemma FreshCommand(s: Store, app: AppId) returns (id: CommandId)
    ensures (app, id) !in s.commands
  {
    id := FreshId(s, map[], app);
  }

  /** One operation towards the decision. */
  lemma OpenCaseMoves(cfg: WritebackConfig, s: Store, app: AppId, b: Advice) returns (request: Request, s': Store)
    requires Advises(cfg, b, app) && Decisive(b)
    requires Consistent(s) && !SettledIn(s, app)
    ensures s' == Execute(s, request).0 && Consistent(s') && LeavesMarking(request)
    ensures Ready(cfg, s', app) || (!SettledIn(s', app) && Distance(s', app, b) < Distance(s, app, b))
  {
    var id := FreshCommand(s, app);
    ConsistentIsRegular(s, app);
    request := NextRequest(s, app, id, b);
    s' := Execute(s, request).0;
    NextLeavesMarking(s, app, id, b);
    NextGetsCloser(cfg, s, app, id, b);
    ExecuteKeepsConsistent(s, request);
  }

  lemma PrependServed(s: Store, request: Request, rest: seq<Request>)
    requires LeavesMarking(request) && AllLeaveMarking(rest)
    ensures Served(s, [request] + rest) == Served(Execute(s, request).0, rest) && AllLeaveMarking([request] + rest)
  {
    assert ([request] + rest)[1..] == rest;
  }

  /** Every open case can be led to a decision with a plan by using the workflow alone. */
  lemma {:induction false} OpenCaseCanBeDecided(
    cfg: WritebackConfig, s: Store, app: AppId, b: Advice) returns (requests: seq<Request>)
    requires Advises(cfg, b, app) && Decisive(b)
    requires Consistent(s) && !SettledIn(s, app)
    ensures AllLeaveMarking(requests) && Ready(cfg, Served(s, requests), app)
    decreases Distance(s, app, b)
  {
    var request, s' := OpenCaseMoves(cfg, s, app, b);
    var rest: seq<Request> := [];
    if !Ready(cfg, s', app) {
      rest := OpenCaseCanBeDecided(cfg, s', app, b);
    }
    PrependServed(s, request, rest);
    requests := [request] + rest;
  }

  lemma IdleWriter(s: System) returns (c: WriterId)
    ensures PhaseOf(s, c).Idle?
  {
    c := Above(s.writers.Keys);
    assert c !in s.writers.Keys;
  }

  lemma AllLeaveTwice(app: AppId, a: seq<Action>, b: seq<Action>)
    requires AllLeave(app, a) && AllLeave(app, b)
    ensures AllLeave(app, a + b)
  {
  }

  lemma ReadyCaseCanBeStored(cfg: WritebackConfig, s: System, app: AppId) returns (more: seq<Action>)
    requires Ready(cfg, s.store, app)
    ensures AllLeave(app, more) && Stored(Onwards(cfg, s, more), app)
  {
    var c := IdleWriter(s);
    var id := FreshId(s.store, s.outbox, app);
    WriterStores(cfg, s, app, c, id);
    FourStepsLeave(app, c, WriteFor(s.store, app, id));
    more := FourSteps(c, WriteFor(s.store, app, id));
  }

  lemma RequestsLeave(app: AppId, requests: seq<Request>)
    requires AllLeaveMarking(requests)
    ensures AllLeave(app, AsActions(requests))
  {
  }

  lemma OpenCaseCanBeReady(cfg: WritebackConfig, s: System, app: AppId) returns (requests: seq<Request>)
    requires Consistent(s.store) && Plannable(cfg, app) && !SettledIn(s.store, app)
    ensures AllLeaveMarking(requests) && Ready(cfg, Onwards(cfg, s, AsActions(requests)).store, app)
  {
    var b := AdviceExists(cfg, app);
    requests := OpenCaseCanBeDecided(cfg, s.store, app, b);
    ServedOnwards(cfg, s, requests);
  }

  lemma OpenCaseCanBeStored(cfg: WritebackConfig, s: System, app: AppId) returns (more: seq<Action>)
    requires Consistent(s.store) && Plannable(cfg, app) && !SettledIn(s.store, app)
    ensures AllLeave(app, more) && Stored(Onwards(cfg, s, more), app)
  {
    var requests := OpenCaseCanBeReady(cfg, s, app);
    RequestsLeave(app, requests);
    var last := ReadyCaseCanBeStored(cfg, Onwards(cfg, s, AsActions(requests)), app);
    more := AsActions(requests) + last;
    StoredAtLast(cfg, s, app, AsActions(requests), last);
  }

  lemma StoredAtLast(cfg: WritebackConfig, s: System, app: AppId, first: seq<Action>, last: seq<Action>)
    requires AllLeave(app, first) && AllLeave(app, last) && Stored(Onwards(cfg, Onwards(cfg, s, first), last), app)
    ensures AllLeave(app, first + last) && Stored(Onwards(cfg, s, first + last), app)
  {
    OnwardsTwice(cfg, s, first, last);
    AllLeaveTwice(app, first, last);
  }

  lemma {:induction false} StoreStaysConsistent(cfg: WritebackConfig, seeded: Points, actions: seq<Action>)
    ensures Consistent(RunActions(cfg, seeded, actions).store)
  {
    if actions != [] {
      var s, action := RunActions(cfg, seeded, actions[..|actions| - 1]), actions[|actions| - 1];
      StoreStaysConsistent(cfg, seeded, actions[..|actions| - 1]);
      StepStaysConsistent(cfg, s, action);
    }
  }

  /** A writer's step leaves the store alone or sends one request. */
  lemma WriterRequest(cfg: WritebackConfig, s: System, c: WriterId, now: Timestamp) returns (request: Request)
    ensures var store := Writeback.Advance(cfg, s, c, now).store;
            store == s.store || store == Execute(s.store, request).0
  {
    var p := PhaseOf(s, c);
    if p.Noted? {
      request := MarkRequest(p.w, ReceiptFor(p.precedent), now);
    } else if p.Requested? && p.w.app in s.store.workflows && s.store.workflows[p.w.app].receipt.Some? {
      request := MarkRequest(p.w, s.store.workflows[p.w.app].receipt.value, now);
    } else {
      request := CreateRequest("", ANYONE, Client(0), "", now);
    }
  }

  lemma StepStaysConsistent(cfg: WritebackConfig, s: System, action: Action)
    requires Consistent(s.store)
    ensures Consistent(Step(cfg, s, action).store)
  {
    if action.UseWorkflow? {
      ExecuteKeepsConsistent(s.store, action.request);
    } else if action.Proceed? {
      var request := WriterRequest(cfg, s, action.writer, action.now);
      ExecuteKeepsConsistent(s.store, request);
    }
  }

  /**
   * Over every run: a revocation outlasts every continuation without a manual activation
   * exactly when no writer of the application can store its copy any more and the case
   * is written, or otherwise admits no write-back. The case being written is not enough,
   * and neither is that no writer is under way.
   */
  lemma RevocationSurvivesExactly(cfg: WritebackConfig, seeded: Points, actions: seq<Action>, app: AppId)
    requires WellFiled(seeded) && forall i :: 0 <= i < |actions| ==> Proper(actions[i])
    requires Inactive(RunActions(cfg, seeded, actions), app)
    ensures Survives(cfg, RunActions(cfg, seeded, actions), app) <==> Safe(cfg, RunActions(cfg, seeded, actions), app)
  {
    var s := RunActions(cfg, seeded, actions);
    RunKeepsInv(cfg, seeded, actions);
    if Safe(cfg, s, app) {
      forall more | AllLeave(app, more)
        ensures Inactive(Onwards(cfg, s, more), app)
      {
        SafeOnwards(cfg, seeded, app, s, more);
      }
    } else {
      var more := UnsafeCanBeStored(cfg, seeded, s, actions, app);
      assert AllLeave(app, more) && !Inactive(Onwards(cfg, s, more), app);
    }
  }

  lemma UnsafeCanBeStored(
    cfg: WritebackConfig, seeded: Points, s: System, actions: seq<Action>, app: AppId) returns (more: seq<Action>)
    requires s == RunActions(cfg, seeded, actions) && Inv(cfg, seeded, s) && !Safe(cfg, s, app)
    ensures AllLeave(app, more) && Stored(Onwards(cfg, s, more), app)
  {
    if Closed(cfg, s.store, app) {
      var c :| c in s.writers && CanStore(s, app, c);
      assert PhaseOk(cfg, s, s.writers[c]);
      StorerHoldsCase(cfg, s, app, c);
      more := LateWriterStores(cfg, s, app, c);
    } else {
      StoreStaysConsistent(cfg, seeded, actions);
      if SettledIn(s.store, app) {
        more := ReadyCaseCanBeStored(cfg, s, app);
      } else {
        more := OpenCaseCanBeStored(cfg, s, app);
      }
    }
  }

  // ---- a run that loses a revocation ----

  function Ask(app: AppId, version: nat, op: Operation, reason: string): Request {
    CommandRequest(app, ANYONE, Command(Client(version + 1), version, reason, op), 0)
  }

  /** A case from its creation to its decision. */
  function Approval(app: AppId, b: Advice): seq<Request>
  {
    [CreateRequest(app, ANYONE, Client(0), PLAIN_REASON, 0),
     Ask(app, 0, Operation.Advance(Extracted, None), PLAIN_REASON),
       Ask(app, 1, Operation.Advance(RuleGated, None), PLAIN_REASON),
     Ask(app, 2, Operation.Advance(AiSuggested, Some(BundlePayload(b.bundle))), PLAIN_REASON),
     Ask(app, 3, Operation.Advance(AwaitingHuman, None), PLAIN_REASON),
     Ask(app, 4, DecideAs(b.decision), b.decision.reason)]
  }

  function WriteAs(app: AppId, uuid: nat): WriteRequest {
    WriteRequest(app, Client(uuid), 5, "", ANYONE)
  }

  /** The first writer stores the precedent and crashes; then a reviewer revokes it. */
  function StoredAndRevoked(app: AppId, b: Advice): seq<Action>
  {
    AsActions(Approval(app, b)) + (FourSteps(1, WriteAs(app, 6)) + [Crash(1), ChangeLifecycle(app, Revoked)])
  }

  predicate UsedUpTo(s: Store, n: nat) {
    forall key :: key in s.commands ==> key.1.Client? && key.1.uuid <= n
  }

  /** The case after so many operations, each under its own identifier. */
  predicate At(s: Store, app: AppId, n: nat) {
    Regular(s, app) && app in s.workflows && s.workflows[app].version == n && UsedUpTo(s, n) && !SettledIn(s, app)
  }

  lemma AskStep(s: Store, app: AppId, n: nat, b: Advice) returns (s': Store)
    requires Consistent(s) && At(s, app, n) && Decisive(b)
    ensures s' == Execute(s, Ask(app, n, NextOperation(s.workflows[app], b), NextReason(s.workflows[app], b))).0
    ensures Consistent(s') && app in s'.workflows && Progressed(s.workflows[app], s'.workflows[app], b)
    ensures Regular(s', app) && UsedUpTo(s', n + 1)
  {
    var request := NextRequest(s, app, Client(n + 1), b);
    s' := Execute(s, request).0;
    NextIsAccepted(s, app, Client(n + 1), b);
    ExecuteKeepsConsistent(s, request);
    ConsistentIsRegular(s', app);
  }

  lemma CreateStep(app: AppId) returns (s': Store)
    ensures s' == Execute(EMPTY_STORE, CreateRequest(app, ANYONE, Client(0), PLAIN_REASON, 0)).0
    ensures Consistent(s') && At(s', app, 0) && s'.workflows[app].applicationId == app
    ensures s'.workflows[app].state == Intake
  {
    var request := CreateRequest(app, ANYONE, Client(0), PLAIN_REASON, 0);
    s' := Execute(EMPTY_STORE, request).0;
    ExecuteKeepsConsistent(EMPTY_STORE, request);
    ConsistentIsRegular(s', app);
  }

  lemma {:induction false} ServedNext(s: Store, requests: seq<Request>, n: nat)
    requires n < |requests|
    ensures Served(s, requests[..n + 1]) == Execute(Served(s, requests[..n]), requests[n]).0
    decreases n
  {
    if n == 0 {
      assert requests[..1][1..] == [];
    } else {
      var s' := Execute(s, requests[0]).0;
      ServedNext(s', requests[1..], n - 1);
      assert requests[..n][1..] == requests[1..][..n - 1] && requests[..n + 1][1..] == requests[1..][..n];
    }
  }

  lemma AskNext(run: seq<Request>, s: Store, app: AppId, n: nat, b: Advice) returns (s': Store)
    requires Consistent(s) && At(s, app, n) && Decisive(b) && n + 1 < |run| && s == Served(EMPTY_STORE, run[..n + 1])
    requires run[n + 1] == Ask(app, n, NextOperation(s.workflows[app], b), NextReason(s.workflows[app], b))
    ensures s' == Served(EMPTY_STORE, run[..n + 2])
    ensures Consistent(s') && app in s'.workflows && Progressed(s.workflows[app], s'.workflows[app], b)
    ensures Regular(s', app) && UsedUpTo(s', n + 1)
  {
    s' := AskStep(s, app, n, b);
    ServedNext(EMPTY_STORE, run, n + 1);
  }

  lemma ApprovalStarts(run: seq<Request>, app: AppId, b: Advice) returns (s: Store)
    requires run == Approval(app, b)
    ensures s == Served(EMPTY_STORE, run[..1]) && Consistent(s) && At(s, app, 0)
    ensures s.workflows[app].applicationId == app && s.workflows[app].state == Intake
  {
    s := CreateStep(app);
    ServedNext(EMPTY_STORE, run, 0);
    assert run[..0] == [];
  }

  /** The case on its way to the decision, after n operations. */
  ghost predicate OnItsWay(s: Store, app: AppId, n: nat, b: Advice) {
    && Consistent(s) && At(s, app, n) && s.workflows[app].applicationId == app
    && n <= 4 && Rank(s.workflows[app].state) == n && (n >= 3 ==> Advised(s.workflows[app], b))
  }

  lemma ApprovalAsks(app: AppId, r: WorkflowRecord, n: nat, b: Advice)
    requires r.applicationId == app && n <= 4 && Rank(r.state) == n && (n >= 3 ==> Advised(r, b))
    ensures Approval(app, b)[n + 1] == Ask(app, n, NextOperation(r, b), NextReason(r, b))
  {
  }

  lemma ProgressIsOnTheWay(r: WorkflowRecord, r': WorkflowRecord, n: nat, b: Advice)
    requires n < 4 && Rank(r.state) == n && (n >= 3 ==> Advised(r, b)) && Progressed(r, r', b)
    ensures Rank(r'.state) == n + 1 && (n >= 2 ==> Advised(r', b)) && !Settled(r')
  {
  }

  lemma OnItsWayStep(run: seq<Request>, s: Store, app: AppId, n: nat, b: Advice) returns (s': Store)
    requires n < 4 && OnItsWay(s, app, n, b) && Decisive(b) && n + 1 < |run| && s == Served(EMPTY_STORE, run[..n + 1])
    requires run[n + 1] == Ask(app, n, NextOperation(s.workflows[app], b), NextReason(s.workflows[app], b))
    ensures s' == Served(EMPTY_STORE, run[..n + 2]) && OnItsWay(s', app, n + 1, b)
  {
    s' := AskNext(run, s, app, n, b);
    ProgressIsOnTheWay(s.workflows[app], s'.workflows[app], n, b);
  }

  lemma {:induction false} OnItsWayTo(run: seq<Request>, app: AppId, n: nat, b: Advice) returns (s: Store)
    requires run == Approval(app, b) && n <= 4 && Decisive(b)
    ensures s == Served(EMPTY_STORE, run[..n + 1]) && OnItsWay(s, app, n, b)
  {
    if n == 0 {
      s := ApprovalStarts(run, app, b);
    } else {
      var before := OnItsWayTo(run, app, n - 1, b);
      ApprovalAsks(app, before.workflows[app], n - 1, b);
      s := OnItsWayStep(run, before, app, n - 1, b);
    }
  }

  lemma ApprovalIsReady(cfg: WritebackConfig, app: AppId, b: Advice)
    requires Advises(cfg, b, app)
    ensures var store := Served(EMPTY_STORE, Approval(app, b));
            ReadyAs(cfg, store, app, b) && store.workflows[app].version == 5
  {
    var run := Approval(app, b);
    PlannedIsValid(cfg, b, app);
    var s4 := OnItsWayTo(run, app, 4, b);
    ApprovalAsks(app, s4.workflows[app], 4, b);
    var s5 := LastAsk(cfg, run, s4, app, b);
    ServedAll(run, s5);
  }

  lemma ServedAll(run: seq<Request>, s: Store)
    requires |run| == 6 && s == Served(EMPTY_STORE, run[..6])
    ensures s == Served(EMPTY_STORE, run)
  {
    assert run[..6] == run;
  }

  lemma LastAsk(cfg: WritebackConfig, run: seq<Request>, s: Store, app: AppId, b: Advice) returns (s': Store)
    requires Advises(cfg, b, app) && Decisive(b)
    requires OnItsWay(s, app, 4, b) && 5 < |run| && s == Served(EMPTY_STORE, run[..5])
    requires run[5] == Ask(app, 4, NextOperation(s.workflows[app], b), NextReason(s.workflows[app], b))
    ensures s' == Served(EMPTY_STORE, run[..6]) && ReadyAs(cfg, s', app, b) && s'.workflows[app].version == 5
  {
    s' := AskNext(run, s, app, 4, b);
    DecidedIsReady(cfg, s', app, b);
  }

  /** After a crash and a revocation the writer is idle, the point inactive and everything else as it was. */
  lemma CrashAndRevoke(cfg: WritebackConfig, s: System, app: AppId, c: WriterId)
    requires Stored(s, app) && Readable(s.points[PointId(app)])
    ensures var s' := Onwards(cfg, s, [Crash(c), ChangeLifecycle(app, Revoked)]);
            && Inactive(s', app) && s'.store == s.store && s'.outbox == s.outbox && s'.writers == s.writers[c := Idle]
  {
    TwoOnwards(cfg, s, Crash(c), ChangeLifecycle(app, Revoked));
  }

  lemma FirstWriterStores(cfg: WritebackConfig, s: System, app: AppId) returns (stored: System)
    requires Ready(cfg, s.store, app) && s.store.workflows[app].version == 5 && s.writers == map[] && s.outbox == map[]
    requires Readable(PlanOf(cfg, s.store, app).value)
    ensures stored == Onwards(cfg, s, FourSteps(1, WriteAs(app, 6)))
    ensures Stored(stored, app) && Readable(stored.points[PointId(app)]) && stored.store == s.store
    ensures stored.writers.Keys <= {1} && Client(7) !in stored.outbox
  {
    WriterStores(cfg, s, app, 1, Client(6));
    stored := Onwards(cfg, s, FourSteps(1, WriteAs(app, 6)));
    OnlyWriter(s, stored, app);
  }

  lemma OnlyWriter(s: System, stored: System, app: AppId)
    requires s.writers == map[] && s.outbox == map[] && StoredBy(s, stored, app, 1, Client(6))
    ensures stored.writers.Keys <= {1} && Client(7) !in stored.outbox
  {
  }

  lemma StoredThenRevoked(cfg: WritebackConfig, s: System, app: AppId) returns (s': System)
    requires Ready(cfg, s.store, app) && s.store.workflows[app].version == 5 && s.writers == map[] && s.outbox == map[]
    requires Readable(PlanOf(cfg, s.store, app).value)
    ensures s' == Onwards(cfg, s, FourSteps(1, WriteAs(app, 6)) + [Crash(1), ChangeLifecycle(app, Revoked)])
    ensures Inactive(s', app) && s'.store == s.store && s'.writers == map[1 := Idle] && Client(7) !in s'.outbox
  {
    var stored := FirstWriterStores(cfg, s, app);
    CrashAndRevoke(cfg, stored, app, 1);
    OnwardsTwice(cfg, s, FourSteps(1, WriteAs(app, 6)), [Crash(1), ChangeLifecycle(app, Revoked)]);
    s' := Onwards(cfg, stored, [Crash(1), ChangeLifecycle(app, Revoked)]);
  }

  /**
   * A revocation that is lost although no writer was under way: the first writer stores
   * the precedent and crashes, a reviewer revokes it while the case is still decided, and
   * a second write-back, begun only afterwards, stores it active again.
   */
  lemma LateWriterUndoesRevocation(cfg: WritebackConfig, app: AppId, b: Advice)
    requires Advises(cfg, b, app) && OverridesCanBeRead(cfg, b)
    ensures var s := RunActions(cfg, map[], StoredAndRevoked(app, b));
            Inactive(s, app) && forall c :: c in s.writers ==> s.writers[c].Idle?
    ensures AllLeave(app, FourSteps(2, WriteAs(app, 7)))
    ensures Stored(RunActions(cfg, map[], StoredAndRevoked(app, b) + FourSteps(2, WriteAs(app, 7))), app)
  {
    var s := RevokedRun(cfg, app, b);
    OneIdleWriter(s);
    FourStepsLeave(app, 2, WriteAs(app, 7));
    SecondWriterStores(cfg, StoredAndRevoked(app, b), s, app);
  }

  lemma OneIdleWriter(s: System)
    requires s.writers == map[1 := Idle]
    ensures PhaseOf(s, 2).Idle? && forall c :: c in s.writers ==> s.writers[c].Idle?
  {
  }

  lemma FourStepsLeave(app: AppId, c: WriterId, w: WriteRequest)
    ensures AllLeave(app, FourSteps(c, w))
  {
  }

  lemma SecondWriterStores(cfg: WritebackConfig, run: seq<Action>, s: System, app: AppId)
    requires s == RunActions(cfg, map[], run) && PhaseOf(s, 2).Idle? && Client(7) !in s.outbox
    requires Ready(cfg, s.store, app) && s.store.workflows[app].version == 5
    ensures Stored(RunActions(cfg, map[], run + FourSteps(2, WriteAs(app, 7))), app)
  {
    WriterStores(cfg, s, app, 2, Client(7));
    RunOnwards(cfg, map[], run, FourSteps(2, WriteAs(app, 7)));
  }

  /** A precedent whose redacted overrides are valid can be read, and so revoked. */
  predicate OverridesCanBeRead(cfg: WritebackConfig, b: Advice) {
    forall o :: o in RedactOverrides(cfg, b.decision.overrides) ==> ValidOverride(o)
  }

  lemma RevokedRun(cfg: WritebackConfig, app: AppId, b: Advice) returns (s: System)
    requires Advises(cfg, b, app) && OverridesCanBeRead(cfg, b)
    ensures s == RunActions(cfg, map[], StoredAndRevoked(app, b))
    ensures Inactive(s, app) && s.writers == map[1 := Idle] && Client(7) !in s.outbox
    ensures Ready(cfg, s.store, app) && s.store.workflows[app].version == 5
  {
    var start, approval := Seeded(map[]), AsActions(Approval(app, b));
    var end := FourSteps(1, WriteAs(app, 6)) + [Crash(1), ChangeLifecycle(app, Revoked)];
    ApprovalIsReady(cfg, app, b);
    ServedOnwards(cfg, start, Approval(app, b));
    var decided := start.(store := Served(EMPTY_STORE, Approval(app, b)));
    assert Onwards(cfg, start, approval) == decided;
    s := StoredThenRevoked(cfg, decided, app);
    OnwardsTwice(cfg, start, approval, end);
    FromStart(cfg, StoredAndRevoked(app, b));
  }

  lemma FromStart(cfg: WritebackConfig, run: seq<Action>)
    ensures RunActions(cfg, map[], run) == Onwards(cfg, Seeded(map[]), run)
  {
    RunOnwards(cfg, map[], [], run);
    assert [] + run == run;
  }
}
