/**
 * Verified write-back of human decisions by any number of concurrent writers. Each
 * statement on the workflow, the outbox or the collection is a step; a writer may fail
 * or crash between any two of them, and reviewers may change precedent lifecycles and
 * use the workflow at any time.
 */
module Writeback {
  import opened Wrappers
  import opened MatchingSchema
  import opened WorkflowSchema
  import opened WorkflowService
  import opened WorkflowRepository
  import opened PrecedentStore

  type WriterId = nat

  datatype WriteRequest = WriteRequest(app: AppId, id: CommandId, version: nat, reason: string, actor: Actor)

  datatype Phase =
    | Idle
    | Requested(w: WriteRequest)
    | Built(w: WriteRequest, precedent: DecidedLoanCase)
    | Begun(w: WriteRequest, precedent: DecidedLoanCase)
    | Upserted(w: WriteRequest, precedent: DecidedLoanCase)
    | Confirmed(w: WriteRequest, precedent: DecidedLoanCase)
    | Noted(w: WriteRequest, precedent: DecidedLoanCase)     // outbox completed
    | Failing(w: WriteRequest)
    | Rereading(w: WriteRequest, receipt: PrecedentReceipt)
    | Answered(w: WriteRequest, ok: bool)

  /** touched is history: the cases whose lifecycle was ever changed by hand. */
  datatype System = System(
    store: Store, points: Points, outbox: Outbox, writers: map<WriterId, Phase>, touched: set<CaseId>)

  datatype Action =
    | Submit(writer: WriterId, write: WriteRequest)
    | Proceed(writer: WriterId, now: Timestamp)
    | Fail(writer: WriterId)
    | Crash(writer: WriterId)
    | UseWorkflow(request: Request)
    | ChangeLifecycle(caseId: CaseId, status: PrecedentStatus)

  function PhaseOf(s: System, c: WriterId): Phase {
    if c in s.writers then s.writers[c] else Idle
  }

  function MarkRequest(w: WriteRequest, receipt: PrecedentReceipt, now: Timestamp): Request {
    CommandRequest(w.app, w.actor, Command(w.id, w.version, w.reason, MarkWritten(receipt)), now)
  }

  function Move(s: System, c: WriterId, p: Phase): System {
    s.(writers := s.writers[c := p])
  }

  /** The first look at the workflow. */
  function Look(cfg: WritebackConfig, s: System, c: WriterId, w: WriteRequest, now: Timestamp): System {
    if w.app !in s.store.workflows then Move(s, c, Answered(w, false))
    else
      var record := s.store.workflows[w.app];
      if record.state == PrecedentWritten && record.receipt.Some? then
        var (store, response) := Execute(s.store, MarkRequest(w, record.receipt.value, now));
        Move(s.(store := store), c, if response.Ok? then Rereading(w, record.receipt.value) else Answered(w, false))
      else
        match Prepare(cfg, w.app, record, w.version)
        case Err(_) => Move(s, c, Answered(w, false))
        case Ok(precedent) => Move(s, c, Built(w, precedent))
  }

  function Advance(cfg: WritebackConfig, s: System, c: WriterId, now: Timestamp): System {
    match PhaseOf(s, c)
    case Idle => s
    case Requested(w) => Look(cfg, s, c, w, now)
    case Built(w, precedent) =>
      (match Begin(s.outbox, w.id, w.app, PayloadHash(precedent))
       case None => Move(s, c, Answered(w, false))
       case Some(outbox) => Move(s.(outbox := outbox), c, Begun(w, precedent)))
    case Begun(w, precedent) =>
      Move(s.(points := s.points[PointId(precedent.caseId) := precedent]), c, Upserted(w, precedent))
    case Upserted(w, precedent) =>
      var id := PointId(precedent.caseId);
      Move(s, c, if ReadsAs(s.points, id, precedent) then Confirmed(w, precedent) else Failing(w))
    case Confirmed(w, precedent) =>
      Move(s.(outbox := SetStatus(s.outbox, w.id, Completed(ReceiptFor(precedent)))), c, Noted(w, precedent))
    case Noted(w, precedent) =>
      var (store, response) := Execute(s.store, MarkRequest(w, ReceiptFor(precedent), now));
      Move(s.(store := store), c, Answered(w, response.Ok?))
    case Failing(w) =>
      Move(s.(outbox := SetStatus(s.outbox, w.id, Failed)), c, Answered(w, false))
    case Rereading(w, receipt) => Move(s, c, Answered(w, Confirms(s.points, receipt)))
    case Answered(_, _) => Move(s, c, Idle)
  }

  function Step(cfg: WritebackConfig, s: System, action: Action): System {
    match action
    case Submit(c, w) =>
      if !PhaseOf(s, c).Idle? then s
      else Move(s, c, if PipelineRole in w.actor.roles then Requested(w) else Answered(w, false))
    case Proceed(c, now) => Advance(cfg, s, c, now)
    case Fail(c) =>
      if PhaseOf(s, c).Begun? || PhaseOf(s, c).Upserted? then Move(s, c, Failing(PhaseOf(s, c).w)) else s
    case Crash(c) => Move(s, c, Idle)
    case UseWorkflow(request) => s.(store := Execute(s.store, request).0)
    case ChangeLifecycle(caseId, status) =>
      s.(points := WithLifecycle(s.points, caseId, status), touched := s.touched + {caseId})
  }

  /** A system before anything happened, over an already seeded collection. */
  function Seeded(points: Points): System {
    System(EMPTY_STORE, points, map[], map[], {})
  }

  function RunActions(cfg: WritebackConfig, seeded: Points, actions: seq<Action>): System {
    if actions == [] then Seeded(seeded)
    else Step(cfg, RunActions(cfg, seeded, actions[..|actions| - 1]), actions[|actions| - 1])
  }

  // ---- decided records are frozen ----

  /** Decided, not sent back. */
  predicate Settled(r: WorkflowRecord) {
    r.state in {HumanDecided, PrecedentWritten} && r.decision.Some? && r.decision.value.action != SendBack
  }

  predicate SettledIn(s: Store, app: AppId) {
    app in s.workflows && Settled(s.workflows[app])
  }

  /** A settled record keeps its decision and suggestion whatever is requested; it can only become written. */
  lemma SettledIsFrozen(s: Store, app: AppId, request: Request)
    requires SettledIn(s, app)
    ensures SettledIn(Execute(s, request).0, app)
    ensures var before, after := s.workflows[app], Execute(s, request).0.workflows[app];
            && after.decision == before.decision && after.suggestion == before.suggestion
            && (before.state == PrecedentWritten ==> after == before)
            && (after != before ==>
                  && after.state == PrecedentWritten && request.CommandRequest? && request.app == app
                  && request.command.operation.MarkWritten? && after.receipt == Some(request.command.operation.receipt))
  {
  }

  /** What a settled record's write-back stores. */
  function PlanOf(cfg: WritebackConfig, s: Store, app: AppId): Result<DecidedLoanCase, WriteError>
    requires SettledIn(s, app)
  {
    Plan(cfg, app, s.workflows[app].suggestion, s.workflows[app].decision.value)
  }

  predicate Plans(cfg: WritebackConfig, s: Store, app: AppId, c: DecidedLoanCase) {
    SettledIn(s, app) && PlanOf(cfg, s, app) == Ok(c)
  }

  lemma PlansStay(cfg: WritebackConfig, s: Store, app: AppId, request: Request, c: DecidedLoanCase)
    requires Plans(cfg, s, app, c)
    ensures Plans(cfg, Execute(s, request).0, app, c)
  {
    SettledIsFrozen(s, app, request);
  }

  // ---- the invariant ----

  predicate SameButLifecycle(a: DecidedLoanCase, b: DecidedLoanCase) {
    a.(lifecycle := b.lifecycle) == b
  }

  /** The point of c's application holds c, exactly so unless its lifecycle was changed by hand. */
  predicate Holds(s: System, c: DecidedLoanCase) {
    var id := PointId(c.caseId);
    && id in s.points && SameButLifecycle(s.points[id], c)
    && (c.caseId !in s.touched ==> s.points[id] == c)
  }

  predicate PhaseOk(cfg: WritebackConfig, s: System, p: Phase) {
    match p
    case Built(w, c) => Plans(cfg, s.store, w.app, c) && c.caseId == w.app
    case Begun(w, c) => Plans(cfg, s.store, w.app, c) && c.caseId == w.app
    case Upserted(w, c) => Plans(cfg, s.store, w.app, c) && c.caseId == w.app && Holds(s, c)
    case Confirmed(w, c) => Plans(cfg, s.store, w.app, c) && c.caseId == w.app && Holds(s, c) && ReadsBack(c)
    case Noted(w, c) => Plans(cfg, s.store, w.app, c) && c.caseId == w.app && Holds(s, c) && ReadsBack(c)
    case _ => true
  }

  predicate WrittenOk(cfg: WritebackConfig, s: System, app: AppId) {
    app in s.store.workflows && s.store.workflows[app].state == PrecedentWritten ==>
      && SettledIn(s.store, app)
      && PlanOf(cfg, s.store, app).Ok?
      && s.store.workflows[app].receipt == Some(ReceiptFor(PlanOf(cfg, s.store, app).value))
      && Holds(s, PlanOf(cfg, s.store, app).value) && ReadsBack(PlanOf(cfg, s.store, app).value)
  }

  predicate PointOk(cfg: WritebackConfig, s: System, seeded: Points, id: PointId)
    requires id in s.points
  {
    && s.points[id].caseId == id.pointCase
    && ((id in seeded && SameButLifecycle(s.points[id], seeded[id]))
        || (SettledIn(s.store, id.pointCase) && PlanOf(cfg, s.store, id.pointCase).Ok?
            && SameButLifecycle(s.points[id], PlanOf(cfg, s.store, id.pointCase).value)))
  }

  predicate WellFiled(points: Points) {
    forall id :: id in points ==> points[id].caseId == id.pointCase
  }

  ghost predicate Inv(cfg: WritebackConfig, seeded: Points, s: System) {
    && (forall c :: c in s.writers ==> PhaseOk(cfg, s, s.writers[c]))
    && (forall app :: app in s.store.workflows ==> WrittenOk(cfg, s, app))
    && (forall id :: id in s.points ==> PointOk(cfg, s, seeded, id))
    && SendBacksUnwritten(s.store)
  }

  /** A written record carries a decision that is no send-back. */
  predicate SendBacksUnwritten(s: Store) {
    forall app :: app in s.workflows && s.workflows[app].state == PrecedentWritten ==> Settled(s.workflows[app])
  }

  /** Other clients of the workflow do not mark cases as written; only write-backs do. */
  predicate LeavesMarking(request: Request) {
    request.CommandRequest? ==> !request.command.operation.MarkWritten?
  }

  predicate Proper(action: Action) {
    action.UseWorkflow? ==> LeavesMarking(action.request)
  }

  // ---- steps of the workflow ----

  /** A case is newly written only by its own mark command. */
  lemma NewlyWritten(s: Store, request: Request, app: AppId)
    requires app in Execute(s, request).0.workflows && Execute(s, request).0.workflows[app].state == PrecedentWritten
    requires !(app in s.workflows && s.workflows[app].state == PrecedentWritten)
    ensures SettledIn(s, app) && request.CommandRequest? && request.app == app && request.command.operation.MarkWritten?
    ensures Execute(s, request).0.workflows[app].receipt == Some(request.command.operation.receipt)
  {
  }

  lemma PhaseStays(cfg: WritebackConfig, s: System, request: Request, p: Phase)
    requires PhaseOk(cfg, s, p)
    ensures PhaseOk(cfg, s.(store := Execute(s.store, request).0), p)
  {
    if p.Built? || p.Begun? || p.Upserted? || p.Confirmed? || p.Noted? {
      PlansStay(cfg, s.store, p.w.app, request, p.precedent);
    }
  }

  lemma PointStays(cfg: WritebackConfig, s: System, seeded: Points, request: Request, id: PointId)
    requires id in s.points && PointOk(cfg, s, seeded, id)
    ensures PointOk(cfg, s.(store := Execute(s.store, request).0), seeded, id)
  {
    if SettledIn(s.store, id.pointCase) && PlanOf(cfg, s.store, id.pointCase).Ok? {
      PlansStay(cfg, s.store, id.pointCase, request, PlanOf(cfg, s.store, id.pointCase).value);
    }
  }

  /** A mark request that takes effect carries the receipt of the planned, stored case. */
  ghost predicate MarksPlanned(cfg: WritebackConfig, s: System, request: Request) {
    request.CommandRequest? && request.command.operation.MarkWritten? && SettledIn(s.store, request.app)
      && s.store.workflows[request.app].state == HumanDecided ==>
      exists c :: Plans(cfg, s.store, request.app, c) && Holds(s, c) && ReadsBack(c)
        && request.command.operation.receipt == ReceiptFor(c)
  }

  lemma WrittenStays(cfg: WritebackConfig, s: System, request: Request, app: AppId)
    requires SendBacksUnwritten(s.store) && MarksPlanned(cfg, s, request)
    requires app in s.store.workflows ==> WrittenOk(cfg, s, app)
    ensures WrittenOk(cfg, s.(store := Execute(s.store, request).0), app)
  {
    var store := Execute(s.store, request).0;
    if app in store.workflows && store.workflows[app].state == PrecedentWritten {
      if app in s.store.workflows && s.store.workflows[app].state == PrecedentWritten {
        SettledIsFrozen(s.store, app, request);
      } else {
        NewlyWritten(s.store, request, app);
        var c :| Plans(cfg, s.store, app, c) && Holds(s, c) && ReadsBack(c)
          && request.command.operation.receipt == ReceiptFor(c);
        PlansStay(cfg, s.store, app, request, c);
      }
    }
  }

  lemma UnwrittenStays(s: Store, request: Request)
    requires SendBacksUnwritten(s)
    ensures SendBacksUnwritten(Execute(s, request).0)
  {
    var store := Execute(s, request).0;
    forall app | app in store.workflows && store.workflows[app].state == PrecedentWritten
      ensures Settled(store.workflows[app])
    {
      if app in s.workflows && s.workflows[app].state == PrecedentWritten {
        SettledIsFrozen(s, app, request);
      } else {
        NewlyWritten(s, request, app);
        SettledIsFrozen(s, app, request);
      }
    }
  }

  lemma WorkflowKeepsInv(cfg: WritebackConfig, seeded: Points, s: System, request: Request)
    requires Inv(cfg, seeded, s) && MarksPlanned(cfg, s, request)
    ensures Inv(cfg, seeded, s.(store := Execute(s.store, request).0))
  {
    var s' := s.(store := Execute(s.store, request).0);
    UnwrittenStays(s.store, request);
    forall c | c in s'.writers
      ensures PhaseOk(cfg, s', s'.writers[c])
    {
      PhaseStays(cfg, s, request, s.writers[c]);
    }
    forall app | app in s'.store.workflows
      ensures WrittenOk(cfg, s', app)
    {
      WrittenStays(cfg, s, request, app);
    }
    forall id | id in s'.points
      ensures PointOk(cfg, s', seeded, id)
    {
      PointStays(cfg, s, seeded, request, id);
    }
  }

  // ---- steps of the writers ----

  lemma MoveKeepsInv(cfg: WritebackConfig, seeded: Points, s: System, c: WriterId, p: Phase)
    requires Inv(cfg, seeded, s) && PhaseOk(cfg, s, p)
    ensures Inv(cfg, seeded, Move(s, c, p))
  {
    var s' := Move(s, c, p);
    forall d | d in s'.writers
      ensures PhaseOk(cfg, s', s'.writers[d])
    {
      assert PhaseOk(cfg, s, s'.writers[d]);
    }
    forall app | app in s'.store.workflows
      ensures WrittenOk(cfg, s', app)
    {
      assert WrittenOk(cfg, s, app);
    }
    forall id | id in s'.points
      ensures PointOk(cfg, s', seeded, id)
    {
      assert PointOk(cfg, s, seeded, id);
    }
  }

  lemma OutboxKeepsInv(cfg: WritebackConfig, seeded: Points, s: System, outbox: Outbox)
    requires Inv(cfg, seeded, s)
    ensures Inv(cfg, seeded, s.(outbox := outbox))
  {
    var s' := s.(outbox := outbox);
    forall d | d in s'.writers
      ensures PhaseOk(cfg, s', s'.writers[d])
    {
      assert PhaseOk(cfg, s, s.writers[d]);
    }
    forall app | app in s'.store.workflows
      ensures WrittenOk(cfg, s', app)
    {
      assert WrittenOk(cfg, s, app);
    }
    forall id | id in s'.points
      ensures PointOk(cfg, s', seeded, id)
    {
      assert PointOk(cfg, s, seeded, id);
    }
  }

  /** An upsert leaves every other point alone, and what held before for this one holds again. */
  lemma HoldsAfterUpsert(s: System, c: DecidedLoanCase, other: DecidedLoanCase)
    requires Holds(s, other) && (other.caseId == c.caseId ==> other == c)
    ensures Holds(s.(points := s.points[PointId(c.caseId) := c]), other)
  {
  }

  lemma SamePlan(cfg: WritebackConfig, s: Store, app: AppId, a: DecidedLoanCase, b: DecidedLoanCase)
    requires Plans(cfg, s, app, a) && Plans(cfg, s, app, b)
    ensures a == b
  {
  }

  lemma UpsertKeepsPhase(cfg: WritebackConfig, s: System, app: AppId, c: DecidedLoanCase, p: Phase)
    requires Plans(cfg, s.store, app, c) && c.caseId == app && PhaseOk(cfg, s, p)
    ensures PhaseOk(cfg, s.(points := s.points[PointId(app) := c]), p)
  {
    if p.Upserted? || p.Confirmed? || p.Noted? {
      if p.w.app == app {
        SamePlan(cfg, s.store, app, c, p.precedent);
      }
      HoldsAfterUpsert(s, c, p.precedent);
    }
  }

  lemma UpsertKeepsWritten(cfg: WritebackConfig, s: System, app: AppId, c: DecidedLoanCase, other: AppId)
    requires Plans(cfg, s.store, app, c) && c.caseId == app && WrittenOk(cfg, s, other)
    ensures WrittenOk(cfg, s.(points := s.points[PointId(app) := c]), other)
  {
    if other in s.store.workflows && s.store.workflows[other].state == PrecedentWritten {
      var planned := PlanOf(cfg, s.store, other).value;
      PlannedCase(cfg, other, s.store.workflows[other].suggestion, s.store.workflows[other].decision.value);
      HoldsAfterUpsert(s, c, planned);
    }
  }

  lemma UpsertKeepsInv(cfg: WritebackConfig, seeded: Points, s: System, app: AppId, c: DecidedLoanCase)
    requires Inv(cfg, seeded, s) && Plans(cfg, s.store, app, c) && c.caseId == app
    ensures Inv(cfg, seeded, s.(points := s.points[PointId(app) := c]))
  {
    var s' := s.(points := s.points[PointId(app) := c]);
    forall d | d in s'.writers
      ensures PhaseOk(cfg, s', s'.writers[d])
    {
      UpsertKeepsPhase(cfg, s, app, c, s.writers[d]);
    }
    forall other | other in s'.store.workflows
      ensures WrittenOk(cfg, s', other)
    {
      UpsertKeepsWritten(cfg, s, app, c, other);
    }
    forall id | id in s'.points
      ensures PointOk(cfg, s', seeded, id)
    {
      if id != PointId(app) {
        assert PointOk(cfg, s, seeded, id);
      }
    }
  }

  lemma LifecycleKeepsHolds(s: System, caseId: CaseId, status: PrecedentStatus, c: DecidedLoanCase)
    requires Holds(s, c)
    ensures Holds(s.(points := WithLifecycle(s.points, caseId, status), touched := s.touched + {caseId}), c)
  {
  }

  function Touched(s: System, caseId: CaseId, status: PrecedentStatus): System {
    s.(points := WithLifecycle(s.points, caseId, status), touched := s.touched + {caseId})
  }

  lemma LifecycleKeepsPhase(cfg: WritebackConfig, s: System, caseId: CaseId, status: PrecedentStatus, p: Phase)
    requires PhaseOk(cfg, s, p)
    ensures PhaseOk(cfg, Touched(s, caseId, status), p)
  {
    if p.Upserted? || p.Confirmed? || p.Noted? {
      LifecycleKeepsHolds(s, caseId, status, p.precedent);
    }
  }

  lemma LifecycleKeepsWritten(cfg: WritebackConfig, s: System, caseId: CaseId, status: PrecedentStatus, app: AppId)
    requires WrittenOk(cfg, s, app)
    ensures WrittenOk(cfg, Touched(s, caseId, status), app)
  {
    if app in s.store.workflows && s.store.workflows[app].state == PrecedentWritten {
      LifecycleKeepsHolds(s, caseId, status, PlanOf(cfg, s.store, app).value);
    }
  }

  lemma LifecycleKeepsPoint(
    cfg: WritebackConfig, s: System, seeded: Points, caseId: CaseId, status: PrecedentStatus, id: PointId)
    requires id in s.points && PointOk(cfg, s, seeded, id)
    ensures id in Touched(s, caseId, status).points && PointOk(cfg, Touched(s, caseId, status), seeded, id)
  {
    SameCaseStays(s, caseId, status, id);
    if SettledIn(s.store, id.pointCase) && PlanOf(cfg, s.store, id.pointCase).Ok? {
      SameButLifecycleTwice(Touched(s, caseId, status).points[id], s.points[id],
        PlanOf(cfg, s.store, id.pointCase).value);
    }
    if id in seeded {
      SameButLifecycleTwice(Touched(s, caseId, status).points[id], s.points[id], seeded[id]);
    }
  }

  lemma SameCaseStays(s: System, caseId: CaseId, status: PrecedentStatus, id: PointId)
    requires id in s.points
    ensures id in Touched(s, caseId, status).points
    ensures SameButLifecycle(Touched(s, caseId, status).points[id], s.points[id])
  {
  }

  lemma SameButLifecycleTwice(a: DecidedLoanCase, b: DecidedLoanCase, c: DecidedLoanCase)
    requires SameButLifecycle(a, b)
    ensures SameButLifecycle(b, c) ==> SameButLifecycle(a, c)
    ensures a.caseId == b.caseId
  {
  }

  lemma LifecycleKeepsInv(cfg: WritebackConfig, seeded: Points, s: System, caseId: CaseId, status: PrecedentStatus)
    requires Inv(cfg, seeded, s)
    ensures Inv(cfg, seeded, Touched(s, caseId, status))
  {
    var s' := Touched(s, caseId, status);
    forall d | d in s'.writers
      ensures PhaseOk(cfg, s', s'.writers[d])
    {
      LifecycleKeepsPhase(cfg, s, caseId, status, s.writers[d]);
    }
    forall app | app in s'.store.workflows
      ensures WrittenOk(cfg, s', app)
    {
      LifecycleKeepsWritten(cfg, s, caseId, status, app);
    }
    forall id | id in s'.points
      ensures PointOk(cfg, s', seeded, id)
    {
      LifecycleKeepsPoint(cfg, s, seeded, caseId, status, id);
    }
  }

  // ---- every step ----

  lemma PreparedIsPlanned(cfg: WritebackConfig, s: Store, app: AppId, version: nat)
    requires app in s.workflows && Prepare(cfg, app, s.workflows[app], version).Ok?
    ensures Plans(cfg, s, app, Prepare(cfg, app, s.workflows[app], version).value)
    ensures Prepare(cfg, app, s.workflows[app], version).value.caseId == app
  {
    PlannedCase(cfg, app, s.workflows[app].suggestion, s.workflows[app].decision.value);
  }

  lemma LookKeepsInv(cfg: WritebackConfig, seeded: Points, s: System, c: WriterId, w: WriteRequest, now: Timestamp)
    requires Inv(cfg, seeded, s)
    ensures Inv(cfg, seeded, Look(cfg, s, c, w, now))
  {
    if w.app in s.store.workflows {
      var record := s.store.workflows[w.app];
      if record.state == PrecedentWritten && record.receipt.Some? {
        var request := MarkRequest(w, record.receipt.value, now);
        WorkflowKeepsInv(cfg, seeded, s, request);
        var response := Execute(s.store, request).1;
        MoveKeepsInv(cfg, seeded, s.(store := Execute(s.store, request).0), c,
                     if response.Ok? then Rereading(w, record.receipt.value) else Answered(w, false));
      } else if Prepare(cfg, w.app, record, w.version).Ok? {
        PreparedIsPlanned(cfg, s.store, w.app, w.version);
        MoveKeepsInv(cfg, seeded, s, c, Built(w, Prepare(cfg, w.app, record, w.version).value));
      } else {
        MoveKeepsInv(cfg, seeded, s, c, Answered(w, false));
      }
    } else {
      MoveKeepsInv(cfg, seeded, s, c, Answered(w, false));
    }
  }

  lemma MarkKeepsInv(
    cfg: WritebackConfig, seeded: Points, s: System, c: WriterId, w: WriteRequest, precedent: DecidedLoanCase,
    now: Timestamp)
    requires Inv(cfg, seeded, s) && PhaseOk(cfg, s, Noted(w, precedent))
    ensures var (store, response) := Execute(s.store, MarkRequest(w, ReceiptFor(precedent), now));
            Inv(cfg, seeded, Move(s.(store := store), c, Answered(w, response.Ok?)))
  {
    var request := MarkRequest(w, ReceiptFor(precedent), now);
    WorkflowKeepsInv(cfg, seeded, s, request);
    MoveKeepsInv(cfg, seeded, s.(store := Execute(s.store, request).0), c,
      Answered(w, Execute(s.store, request).1.Ok?));
  }

  lemma ConfirmKeepsInv(
    cfg: WritebackConfig, seeded: Points, s: System, c: WriterId, w: WriteRequest, precedent: DecidedLoanCase)
    requires Inv(cfg, seeded, s) && PhaseOk(cfg, s, Confirmed(w, precedent))
    ensures Inv(cfg, seeded, Move(s.(outbox := SetStatus(s.outbox, w.id, Completed(ReceiptFor(precedent)))), c,
        Noted(w, precedent)))
  {
    var s' := s.(outbox := SetStatus(s.outbox, w.id, Completed(ReceiptFor(precedent))));
    OutboxKeepsInv(cfg, seeded, s, s'.outbox);
    assert PhaseOk(cfg, s', Noted(w, precedent));
    MoveKeepsInv(cfg, seeded, s', c, Noted(w, precedent));
  }

  lemma BeginKeepsInv(
    cfg: WritebackConfig, seeded: Points, s: System, c: WriterId, w: WriteRequest, precedent: DecidedLoanCase,
    outbox: Outbox)
    requires Inv(cfg, seeded, s) && PhaseOk(cfg, s, Built(w, precedent))
    ensures Inv(cfg, seeded, Move(s.(outbox := outbox), c, Begun(w, precedent)))
  {
    OutboxKeepsInv(cfg, seeded, s, outbox);
    assert PhaseOk(cfg, s.(outbox := outbox), Begun(w, precedent));
    MoveKeepsInv(cfg, seeded, s.(outbox := outbox), c, Begun(w, precedent));
  }

  lemma StoreKeepsInv(
    cfg: WritebackConfig, seeded: Points, s: System, c: WriterId, w: WriteRequest, precedent: DecidedLoanCase)
    requires Inv(cfg, seeded, s) && PhaseOk(cfg, s, Begun(w, precedent))
    ensures Inv(cfg, seeded, Move(s.(points := s.points[PointId(precedent.caseId) := precedent]), c,
        Upserted(w, precedent)))
  {
    UpsertKeepsInv(cfg, seeded, s, w.app, precedent);
    MoveKeepsInv(cfg, seeded, s.(points := s.points[PointId(w.app) := precedent]), c, Upserted(w, precedent));
  }

  lemma AdvanceKeepsInv(cfg: WritebackConfig, seeded: Points, s: System, c: WriterId, now: Timestamp)
    requires Inv(cfg, seeded, s)
    ensures Inv(cfg, seeded, Advance(cfg, s, c, now))
  {
    var p := PhaseOf(s, c);
    assert PhaseOk(cfg, s, p);
    match p
    case Idle =>
    case Requested(w) => LookKeepsInv(cfg, seeded, s, c, w, now);
    case Built(w, precedent) =>
      match Begin(s.outbox, w.id, w.app, PayloadHash(precedent)) {
        case None => MoveKeepsInv(cfg, seeded, s, c, Answered(w, false));
        case Some(outbox) => BeginKeepsInv(cfg, seeded, s, c, w, precedent, outbox);
      }
    case Begun(w, precedent) => StoreKeepsInv(cfg, seeded, s, c, w, precedent);
    case Upserted(w, precedent) =>
      MoveKeepsInv(cfg, seeded, s, c,
                   if ReadsAs(s.points, PointId(precedent.caseId), precedent) then Confirmed(w, precedent)
                   else Failing(w));
    case Confirmed(w, precedent) => ConfirmKeepsInv(cfg, seeded, s, c, w, precedent);
    case Noted(w, precedent) => MarkKeepsInv(cfg, seeded, s, c, w, precedent, now);
    case Failing(w) =>
      OutboxKeepsInv(cfg, seeded, s, SetStatus(s.outbox, w.id, Failed));
      MoveKeepsInv(cfg, seeded, s.(outbox := SetStatus(s.outbox, w.id, Failed)), c, Answered(w, false));
    case Rereading(w, receipt) => MoveKeepsInv(cfg, seeded, s, c, Answered(w, Confirms(s.points, receipt)));
    case Answered(_, _) => MoveKeepsInv(cfg, seeded, s, c, Idle);
  }

  lemma StepKeepsInv(cfg: WritebackConfig, seeded: Points, s: System, action: Action)
    requires Inv(cfg, seeded, s) && Proper(action)
    ensures Inv(cfg, seeded, Step(cfg, s, action))
  {
    match action
    case Submit(c, w) =>
      MoveKeepsInv(cfg, seeded, s, c, if PipelineRole in w.actor.roles then Requested(w) else Answered(w, false));
    case Proceed(c, now) => AdvanceKeepsInv(cfg, seeded, s, c, now);
    case Fail(c) =>
      if PhaseOf(s, c).Begun? || PhaseOf(s, c).Upserted? {
        MoveKeepsInv(cfg, seeded, s, c, Failing(PhaseOf(s, c).w));
      }
    case Crash(c) => MoveKeepsInv(cfg, seeded, s, c, Idle);
    case UseWorkflow(request) => WorkflowKeepsInv(cfg, seeded, s, request);
    case ChangeLifecycle(caseId, status) => LifecycleKeepsInv(cfg, seeded, s, caseId, status);
  }

  lemma {:induction false} RunKeepsInv(cfg: WritebackConfig, seeded: Points, actions: seq<Action>)
    requires WellFiled(seeded) && forall i :: 0 <= i < |actions| ==> Proper(actions[i])
    ensures Inv(cfg, seeded, RunActions(cfg, seeded, actions))
  {
    if actions != [] {
      RunKeepsInv(cfg, seeded, actions[..|actions| - 1]);
      StepKeepsInv(cfg, seeded, RunActions(cfg, seeded, actions[..|actions| - 1]), actions[|actions| - 1]);
    }
  }

  // ---- over every run ----

  /** Every point is filed under its case's own identifier, so no application ever has two. */
  lemma OnePointPerApplication(cfg: WritebackConfig, seeded: Points, actions: seq<Action>, a: PointId, b: PointId)
    requires WellFiled(seeded) && forall i :: 0 <= i < |actions| ==> Proper(actions[i])
    requires a in RunActions(cfg, seeded, actions).points && b in RunActions(cfg, seeded, actions).points
    requires RunActions(cfg, seeded, actions).points[a].caseId == RunActions(cfg, seeded, actions).points[b].caseId
    ensures a == b
  {
    RunKeepsInv(cfg, seeded, actions);
    assert PointOk(cfg, RunActions(cfg, seeded, actions), seeded, a);
    assert PointOk(cfg, RunActions(cfg, seeded, actions), seeded, b);
  }

  /**
   * A case without a settled decision, a sent-back one above all, is never stored: its
   * point is the seeded one or absent.
   */
  lemma SendBackIsNeverStored(cfg: WritebackConfig, seeded: Points, actions: seq<Action>, app: AppId)
    requires WellFiled(seeded) && forall i :: 0 <= i < |actions| ==> Proper(actions[i])
    requires !SettledIn(RunActions(cfg, seeded, actions).store, app)
    ensures var points := RunActions(cfg, seeded, actions).points;
            PointId(app) in points ==>
              PointId(app) in seeded && SameButLifecycle(points[PointId(app)], seeded[PointId(app)])
  {
    RunKeepsInv(cfg, seeded, actions);
    var s := RunActions(cfg, seeded, actions);
    if PointId(app) in s.points {
      assert PointOk(cfg, s, seeded, PointId(app));
    }
  }

  /** All writers of an application that got past their checks hold the same precedent. */
  lemma WritersAgree(cfg: WritebackConfig, seeded: Points, actions: seq<Action>, c: WriterId, d: WriterId)
    requires WellFiled(seeded) && forall i :: 0 <= i < |actions| ==> Proper(actions[i])
    requires var s := RunActions(cfg, seeded, actions); HasPrecedent(PhaseOf(s, c)) && HasPrecedent(PhaseOf(s, d))
    requires var s := RunActions(cfg, seeded, actions); PhaseOf(s, c).w.app == PhaseOf(s, d).w.app
    ensures var s := RunActions(cfg, seeded, actions); PhaseOf(s, c).precedent == PhaseOf(s, d).precedent
  {
    RunKeepsInv(cfg, seeded, actions);
    var s := RunActions(cfg, seeded, actions);
    PhasePlans(cfg, s, PhaseOf(s, c));
    PhasePlans(cfg, s, PhaseOf(s, d));
    SamePlan(cfg, s.store, PhaseOf(s, c).w.app, PhaseOf(s, c).precedent, PhaseOf(s, d).precedent);
  }

  lemma PhasePlans(cfg: WritebackConfig, s: System, p: Phase)
    requires HasPrecedent(p) && PhaseOk(cfg, s, p)
    ensures Plans(cfg, s.store, p.w.app, p.precedent)
  {
  }

  predicate HasPrecedent(p: Phase) {
    p.Built? || p.Begun? || p.Upserted? || p.Confirmed? || p.Noted?
  }

  /**
   * A written case has a receipt, its point is stored as received up to the lifecycle,
   * and it hashes to the receipt exactly while that lifecycle is active; without a
   * manual change it always is.
   */
  lemma WrittenMatchesReceiptExactly(cfg: WritebackConfig, seeded: Points, actions: seq<Action>, app: AppId)
    requires WellFiled(seeded) && forall i :: 0 <= i < |actions| ==> Proper(actions[i])
    requires var s := RunActions(cfg, seeded, actions);
             app in s.store.workflows && s.store.workflows[app].state == PrecedentWritten
    ensures var s := RunActions(cfg, seeded, actions);
            var receipt := s.store.workflows[app].receipt;
            && receipt.Some? && receipt.value.caseId == app && receipt.value.pointId in s.points
            && (Confirms(s.points, receipt.value) <==> s.points[receipt.value.pointId].lifecycle == Active)
            && (app !in s.touched ==> Confirms(s.points, receipt.value))
            && s.store.workflows[app].decision.Some? && s.store.workflows[app].decision.value.action != SendBack
  {
    RunKeepsInv(cfg, seeded, actions);
    var s := RunActions(cfg, seeded, actions);
    assert WrittenOk(cfg, s, app);
    PlannedCase(cfg, app, s.store.workflows[app].suggestion, s.store.workflows[app].decision.value);
    HashIsLifecycle(s, PlanOf(cfg, s.store, app).value);
  }

  /**
   * A settled decision that admits no plan, such as one whose reason is only white space,
   * is recorded all the same and never written, whatever the writers do.
   */
  lemma UnplannedIsNeverWritten(cfg: WritebackConfig, seeded: Points, actions: seq<Action>, app: AppId)
    requires WellFiled(seeded) && forall i :: 0 <= i < |actions| ==> Proper(actions[i])
    requires var s := RunActions(cfg, seeded, actions).store; SettledIn(s, app) && PlanOf(cfg, s, app).Err?
    ensures RunActions(cfg, seeded, actions).store.workflows[app].state == HumanDecided
  {
    RunKeepsInv(cfg, seeded, actions);
    assert WrittenOk(cfg, RunActions(cfg, seeded, actions), app);
  }

  lemma HashIsLifecycle(s: System, c: DecidedLoanCase)
    requires Holds(s, c) && c.lifecycle == Active && ReadsBack(c)
    ensures Confirms(s.points, ReceiptFor(c)) <==> s.points[PointId(c.caseId)].lifecycle == Active
    ensures c.caseId !in s.touched ==> Confirms(s.points, ReceiptFor(c))
  {
  }

  // ---- one write from beginning to end ----

  /** What befalls one write: how its upsert goes, and a lifecycle change before it is read back. */
  datatype Circumstances = Circumstances(now: Timestamp, fate: UpsertFate, between: Option<PrecedentStatus>)

  /** The stores and the answer after one write without other writers. */
  function WriteOnce(
    cfg: WritebackConfig, store: Store, points: Points, outbox: Outbox, w: WriteRequest, x: Circumstances): (Store,
    Points, Outbox, bool)
  {
    if PipelineRole !in w.actor.roles || w.app !in store.workflows then (store, points, outbox, false)
    else
      var record := store.workflows[w.app];
      if record.state == PrecedentWritten && record.receipt.Some? then
        var (store', response) := Execute(store, MarkRequest(w, record.receipt.value, x.now));
        (store', points, outbox, response.Ok? && Confirms(points, record.receipt.value))
      else
        match Prepare(cfg, w.app, record, w.version)
        case Err(_) => (store, points, outbox, false)
        case Ok(precedent) =>
          match Begin(outbox, w.id, w.app, PayloadHash(precedent))
          case None => (store, points, outbox, false)
          case Some(begun) =>
            var points' := AfterUpsert(points, precedent, x.fate, x.between);
            if !Undisturbed(x, precedent) then (store, points', SetStatus(begun, w.id, Failed), false)
            else
              var (store', response) := Execute(store, MarkRequest(w, ReceiptFor(precedent), x.now));
              (store', points', SetStatus(begun, w.id, Completed(ReceiptFor(precedent))), response.Ok?)
  }

  /** The upsert works and what is read back is what was written. */
  predicate Undisturbed(x: Circumstances, c: DecidedLoanCase) {
    x.fate.Works? && ReadsBack(c) && (x.between.None? || x.between.value == c.lifecycle)
  }

  class PrecedentWritebackService {
    const cfg: WritebackConfig
    const workflow: InMemoryWorkflowRepository
    const store: QdrantPrecedentStore
    var outbox: Outbox

    constructor (cfg: WritebackConfig, workflow: InMemoryWorkflowRepository, store: QdrantPrecedentStore)
      ensures this.cfg == cfg && this.workflow == workflow && this.store == store && outbox == map[]
    {
      this.cfg, this.workflow, this.store := cfg, workflow, store;
      outbox := map[];
    }

    method Write(w: WriteRequest, x: Circumstances) returns (ok: bool)
      requires workflow.Valid()
      modifies this, workflow, store
      ensures workflow.Valid()
      ensures (workflow.Contents(), store.points, outbox, ok)
           == WriteOnce(cfg, old(workflow.Contents()), old(store.points), old(outbox), w, x)
    {
      if PipelineRole !in w.actor.roles {
        return false;
      }
      var current := workflow.Get(w.app);
      if current.Err? {
        return false;
      }
      var record := current.value;
      if record.state == PrecedentWritten && record.receipt.Some? {
        var repeated := Serve(workflow, MarkRequest(w, record.receipt.value, x.now));
        return repeated.Ok? && Confirms(store.points, record.receipt.value);
      }
      var prepared := Prepare(cfg, w.app, record, w.version);
      if prepared.Err? {
        return false;
      }
      var precedent := prepared.value;
      var begun := Begin(outbox, w.id, w.app, PayloadHash(precedent));
      if begun.None? {
        return false;
      }
      outbox := begun.value;
      var confirmed := store.WriteOne(precedent, x.fate, x.between);
      if !confirmed {
        outbox := SetStatus(outbox, w.id, Failed);
        return false;
      }
      outbox := SetStatus(outbox, w.id, Completed(ReceiptFor(precedent)));
      var response := Serve(workflow, MarkRequest(w, ReceiptFor(precedent), x.now));
      return response.Ok?;
    }
  }

  lemma PreparedIsSettled(cfg: WritebackConfig, app: AppId, record: WorkflowRecord, version: nat)
    requires Prepare(cfg, app, record, version).Ok?
    ensures record.state == HumanDecided && Settled(record) && record.version == version
  {
  }

  lemma MarkAccepted(s: Store, w: WriteRequest, receipt: PrecedentReceipt, now: Timestamp)
    requires s.Known(w.app) && PipelineRole in w.actor.roles
    requires var r := s.workflows[w.app]; r.state == HumanDecided && Settled(r) && r.version == w.version
    ensures var (s', response) := Execute(s, MarkRequest(w, receipt, now));
            && response.Ok?
            && (if (w.app, w.id) in s.commands then s' == s
                else
                  && w.app in s'.workflows && s'.workflows[w.app].state == PrecedentWritten
                  && s'.workflows[w.app].receipt == Some(receipt))
  {
  }

  /** The write gets as far as the collection. */
  predicate Admitted(cfg: WritebackConfig, store: Store, outbox: Outbox, w: WriteRequest)
    requires store.Known(w.app)
  {
    var prepared := Prepare(cfg, w.app, store.workflows[w.app], w.version);
    PipelineRole in w.actor.roles && prepared.Ok? && Begin(outbox, w.id, w.app, PayloadHash(prepared.value)).Some?
  }

  /**
   * From a case that is not yet written, a write leads to a written case exactly when
   * role, prepared record and outbox row admit it, the upsert works, no lifecycle change
   * comes before the reading back, and the command identifier is fresh. A disturbed write
   * leaves the case as it was and its outbox row failed; a used identifier is answered
   * with its old result and leaves the case decided, although the precedent is stored.
   */
  lemma WriteSucceedsExactly(
    cfg: WritebackConfig, store: Store, points: Points, outbox: Outbox, w: WriteRequest, x: Circumstances)
    requires store.Known(w.app) && store.workflows[w.app].state != PrecedentWritten
    ensures var (store', points', outbox', ok) := WriteOnce(cfg, store, points, outbox, w, x);
            var prepared := Prepare(cfg, w.app, store.workflows[w.app], w.version);
            var confirmed := prepared.Ok? && x.fate.Works? && ReadsBack(prepared.value)
              && (x.between.None? || x.between.value == Active);
            && w.app in store'.workflows
            && (store'.workflows[w.app].state == PrecedentWritten <==>
                  Admitted(cfg, store, outbox, w) && confirmed && (w.app, w.id) !in store.commands)
            && (store'.workflows[w.app].state == PrecedentWritten ==>
                 ok && points' == points[PointId(w.app) := prepared.value])
            && (!Admitted(cfg, store, outbox, w) ==> (store', points', outbox', ok) == (store, points, outbox, false))
            && (Admitted(cfg, store, outbox, w) && !confirmed ==>
                  !ok && store' == store && w.id in outbox' && outbox'[w.id].status == Failed)
  {
    if Admitted(cfg, store, outbox, w) {
      AdmittedOutcome(cfg, store, points, outbox, w, x, Prepare(cfg, w.app, store.workflows[w.app], w.version).value);
    } else {
      RefusedWrite(cfg, store, points, outbox, w, x);
    }
  }

  lemma RefusedWrite(
    cfg: WritebackConfig, store: Store, points: Points, outbox: Outbox, w: WriteRequest, x: Circumstances)
    requires store.Known(w.app) && store.workflows[w.app].state != PrecedentWritten && !Admitted(cfg, store, outbox, w)
    ensures WriteOnce(cfg, store, points, outbox, w, x) == (store, points, outbox, false)
  {
  }

  lemma AdmittedOutcome(
    cfg: WritebackConfig, store: Store, points: Points, outbox: Outbox, w: WriteRequest, x: Circumstances,
    precedent: DecidedLoanCase)
    requires store.Known(w.app) && store.workflows[w.app].state != PrecedentWritten && PipelineRole in w.actor.roles
    requires Prepare(cfg, w.app, store.workflows[w.app], w.version) == Ok(precedent)
    requires Begin(outbox, w.id, w.app, PayloadHash(precedent)).Some?
    ensures precedent.lifecycle == Active
    ensures var (store', points', outbox', ok) := WriteOnce(cfg, store, points, outbox, w, x);
            && w.app in store'.workflows
            && (store'.workflows[w.app].state == PrecedentWritten <==>
                  Undisturbed(x, precedent) && (w.app, w.id) !in store.commands)
            && (store'.workflows[w.app].state == PrecedentWritten ==>
                 ok && points' == points[PointId(w.app) := precedent])
            && (!Undisturbed(x, precedent) ==>
                 !ok && store' == store && w.id in outbox' && outbox'[w.id].status == Failed)
  {
    PlannedCase(cfg, w.app, store.workflows[w.app].suggestion, store.workflows[w.app].decision.value);
    AdmittedWrite(cfg, store, points, outbox, w, x, precedent);
    if Undisturbed(x, precedent) {
      MarkedOutcome(cfg, store, w, x.now, precedent);
      UndisturbedPoints(points, precedent, x);
    } else {
      FailedRow(outbox, w.id, w.app, PayloadHash(precedent));
    }
  }

  lemma FailedRow(outbox: Outbox, id: CommandId, app: AppId, hash: PayloadHash)
    requires Begin(outbox, id, app, hash).Some?
    ensures var failed := SetStatus(Begin(outbox, id, app, hash).value, id, Failed);
            id in failed && failed[id].status == Failed
  {
  }

  lemma MarkedOutcome(cfg: WritebackConfig, s: Store, w: WriteRequest, now: Timestamp, precedent: DecidedLoanCase)
    requires s.Known(w.app) && s.workflows[w.app].state != PrecedentWritten && PipelineRole in w.actor.roles
    requires Prepare(cfg, w.app, s.workflows[w.app], w.version) == Ok(precedent)
    ensures var (s', response) := Execute(s, MarkRequest(w, ReceiptFor(precedent), now));
            && response.Ok? && w.app in s'.workflows
            && (s'.workflows[w.app].state == PrecedentWritten <==> (w.app, w.id) !in s.commands)
  {
    PreparedIsSettled(cfg, w.app, s.workflows[w.app], w.version);
    MarkAccepted(s, w, ReceiptFor(precedent), now);
  }

  lemma UndisturbedPoints(points: Points, c: DecidedLoanCase, x: Circumstances)
    requires Undisturbed(x, c)
    ensures AfterUpsert(points, c, x.fate, x.between) == points[PointId(c.caseId) := c]
  {
    assert c.(lifecycle := c.lifecycle) == c;
  }

  lemma AdmittedWrite(
    cfg: WritebackConfig, store: Store, points: Points, outbox: Outbox, w: WriteRequest, x: Circumstances,
    precedent: DecidedLoanCase)
    requires store.Known(w.app) && store.workflows[w.app].state != PrecedentWritten && PipelineRole in w.actor.roles
    requires Prepare(cfg, w.app, store.workflows[w.app], w.version) == Ok(precedent)
    requires Begin(outbox, w.id, w.app, PayloadHash(precedent)).Some?
    ensures var begun := Begin(outbox, w.id, w.app, PayloadHash(precedent)).value;
            var (marked, response) := Execute(store, MarkRequest(w, ReceiptFor(precedent), x.now));
            var points' := AfterUpsert(points, precedent, x.fate, x.between);
            WriteOnce(cfg, store, points, outbox, w, x)
            == if Undisturbed(x, precedent)
               then (marked, points', SetStatus(begun, w.id, Completed(ReceiptFor(precedent))), response.Ok?)
               else (store, points', SetStatus(begun, w.id, Failed), false)
  {
  }

  /**
   * An earlier attempt of the same write never blocks its retry: its outbox row carries
   * the frozen precedent's hash.
   */
  lemma RetryIsAdmitted(
    cfg: WritebackConfig, s: Store, outbox: Outbox, w: WriteRequest, requests: seq<Request>, c: DecidedLoanCase)
    requires Plans(cfg, s, w.app, c) && Begin(outbox, w.id, w.app, PayloadHash(c)).Some?
    ensures Plans(cfg, Served(s, requests), w.app, c)
    ensures var begun := Begin(outbox, w.id, w.app, PayloadHash(c)).value;
            && Begin(begun, w.id, w.app, PayloadHash(c)) == Some(begun)
            && Begin(SetStatus(begun, w.id, Failed), w.id, w.app, PayloadHash(c)).Some?
  {
    PlansSurvive(cfg, s, w.app, c, requests);
  }

  /** The store after some more requests, first to last. */
  function Served(s: Store, requests: seq<Request>): Store
    decreases |requests|
  {
    if requests == [] then s else Served(Execute(s, requests[0]).0, requests[1..])
  }

  lemma {:induction false} PlansSurvive(
    cfg: WritebackConfig, s: Store, app: AppId, c: DecidedLoanCase, requests: seq<Request>)
    requires Plans(cfg, s, app, c)
    ensures Plans(cfg, Served(s, requests), app, c)
    decreases |requests|
  {
    if requests != [] {
      PlansStay(cfg, s, app, requests[0], c);
      PlansSurvive(cfg, Execute(s, requests[0]).0, app, c, requests[1..]);
    }
  }
}
