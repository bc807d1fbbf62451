/**
 * Concurrency leases: acquiring transactions that stamp their clock before they wait for
 * the category's advisory lock, releases, aborts and the passing of time, interleaved
 * statement by statement.
 */
module Leases {
  import opened Collections

  type ClientId = nat
  type RequestId = string
  type Time = int

  datatype Lease = Lease(category: string, expiresAt: Time)

  type Table = map<RequestId, Lease>

  /** Limits per category. */
  datatype LeaseConfig = LeaseConfig(maxConcurrent: string -> nat, leaseSeconds: nat)

  /** gone are the rows this transaction has deleted but not yet committed. */
  datatype Phase =
    | Idle
    | Waiting(id: RequestId, category: string, stamp: Time)
    | Locked(id: RequestId, category: string, stamp: Time)
    | Purged(id: RequestId, category: string, stamp: Time, gone: Table)
    | Granted(id: RequestId, category: string, stamp: Time, gone: Table)
    | Answered(granted: bool)

  datatype System = System(leases: Table, clients: map<ClientId, Phase>, clock: Time)

  datatype Action =
    | Acquire(client: ClientId, id: RequestId, category: string)
    | Proceed(client: ClientId)
    | Abort(client: ClientId)
    | Release(id: RequestId)
    | Tick(seconds: nat)

  function PhaseOf(s: System, c: ClientId): Phase {
    if c in s.clients then s.clients[c] else Idle
  }

  predicate Holds(p: Phase, category: string) {
    (p.Locked? || p.Purged? || p.Granted?) && p.category == category
  }

  predicate LockFree(s: System, c: ClientId, category: string) {
    forall d :: d in s.clients && d != c ==> !Holds(s.clients[d], category)
  }

  /** DELETE ... WHERE expires_at <= now() */
  function Expired(leases: Table, stamp: Time): Table {
    map id | id in leases && leases[id].expiresAt <= stamp :: leases[id]
  }

  /** What the transaction sees, and commits, once its deletions are taken into account. */
  function Without(leases: Table, gone: Table): Table {
    map id | id in leases && !(id in gone && gone[id] == leases[id]) :: leases[id]
  }

  function InCategory(leases: Table, category: string): set<RequestId> {
    set id | id in leases && leases[id].category == category
  }

  function Move(s: System, c: ClientId, p: Phase): System {
    s.(clients := s.clients[c := p])
  }

  function Advance(cfg: LeaseConfig, s: System, c: ClientId): System {
    match PhaseOf(s, c)
    case Idle => s
    case Waiting(id, category, stamp) => if LockFree(s, c, category) then Move(s, c, Locked(id, category, stamp)) else s
    case Locked(id, category, stamp) => Move(s, c, Purged(id, category, stamp, Expired(s.leases, stamp)))
    case Purged(id, category, stamp, gone) =>
      if |InCategory(Without(s.leases, gone), category)| >= cfg.maxConcurrent(category)
      then Move(s.(leases := Without(s.leases, gone)), c, Answered(false))
      else Move(s, c, Granted(id, category, stamp, gone))
    case Granted(id, category, stamp, gone) =>
      var left := Without(s.leases, gone);
      Move(s.(leases := if id in left then left else left[id := Lease(category, stamp + cfg.leaseSeconds)]), c,
        Answered(true))
    case Answered(_) => Move(s, c, Idle)
  }

  function Step(cfg: LeaseConfig, s: System, action: Action): System {
    match action
    case Acquire(c, id, category) => if PhaseOf(s, c).Idle? then Move(s, c, Waiting(id, category, s.clock)) else s
    case Proceed(c) => Advance(cfg, s, c)
    case Abort(c) => Move(s, c, Idle)
    case Release(id) => s.(leases := s.leases - {id})
    case Tick(seconds) => s.(clock := s.clock + seconds)
  }

  function RunActions(cfg: LeaseConfig, actions: seq<Action>): System {
    if actions == [] then System(map[], map[], 0)
    else Step(cfg, RunActions(cfg, actions[..|actions| - 1]), actions[|actions| - 1])
  }

  // ---- the invariant ----

  predicate WithinLimit(cfg: LeaseConfig, leases: Table, category: string) {
    |InCategory(leases, category)| <= cfg.maxConcurrent(category)
  }

  /** The rows this category would keep are those unexpired at the stamp, and a grant leaves room for one more. */
  predicate PhaseOk(cfg: LeaseConfig, leases: Table, p: Phase) {
    && (p.Purged? || p.Granted? ==> PurgedExactly(leases, p.category, p.stamp, p.gone))
    && (p.Granted? ==> |InCategory(Without(leases, p.gone), p.category)| < cfg.maxConcurrent(p.category))
  }

  predicate PurgedExactly(leases: Table, category: string, stamp: Time, gone: Table) {
    && (forall id :: id in gone ==> gone[id].expiresAt <= stamp)
    && (forall id :: id in leases && leases[id].category == category && leases[id].expiresAt <= stamp ==>
         id in gone && gone[id] == leases[id])
  }

  ghost predicate Exclusive(clients: map<ClientId, Phase>) {
    forall c, d, category :: c in clients && d in clients && c != d && Holds(clients[c], category) ==>
      !Holds(clients[d], category)
  }

  ghost predicate Inv(cfg: LeaseConfig, s: System) {
    && (forall category :: WithinLimit(cfg, s.leases, category))
    && Exclusive(s.clients)
    && (forall c :: c in s.clients ==> PhaseOk(cfg, s.leases, s.clients[c]))
  }

  /** No row of the category is new or changed. */
  predicate OnlyDeletes(leases: Table, leases': Table, category: string) {
    forall id :: id in leases' && leases'[id].category == category ==> id in leases && leases[id] == leases'[id]
  }

  lemma DeletionKeepsLimit(cfg: LeaseConfig, leases: Table, leases': Table, category: string)
    requires OnlyDeletes(leases, leases', category) && WithinLimit(cfg, leases, category)
    ensures WithinLimit(cfg, leases', category)
  {
    SubsetIsSmaller(InCategory(leases', category), InCategory(leases, category));
  }

  lemma DeletionKeepsPhase(cfg: LeaseConfig, leases: Table, leases': Table, p: Phase)
    requires PhaseOk(cfg, leases, p)
    requires p.Purged? || p.Granted? ==> OnlyDeletes(leases, leases', p.category)
    ensures PhaseOk(cfg, leases', p)
  {
    if p.Granted? {
      SubsetIsSmaller(InCategory(Without(leases', p.gone), p.category),
        InCategory(Without(leases, p.gone), p.category));
    }
  }

  lemma DeletionKeepsInv(cfg: LeaseConfig, s: System, leases': Table)
    requires Inv(cfg, s) && forall category :: OnlyDeletes(s.leases, leases', category)
    ensures Inv(cfg, s.(leases := leases'))
  {
    forall category: string
      ensures WithinLimit(cfg, leases', category)
    {
      DeletionKeepsLimit(cfg, s.leases, leases', category);
    }
    forall c | c in s.clients
      ensures PhaseOk(cfg, leases', s.clients[c])
    {
      DeletionKeepsPhase(cfg, s.leases, leases', s.clients[c]);
    }
  }

  lemma MoveKeepsInv(cfg: LeaseConfig, s: System, c: ClientId, p: Phase)
    requires Inv(cfg, s) && PhaseOk(cfg, s.leases, p)
    requires forall category :: Holds(p, category) ==> Holds(PhaseOf(s, c), category) || LockFree(s, c, category)
    ensures Inv(cfg, Move(s, c, p))
  {
    var clients := s.clients[c := p];
    forall a, b, category | a in clients && b in clients && a != b && Holds(clients[a], category)
      ensures !Holds(clients[b], category)
    {
      if a != c && b != c {
        assert Holds(s.clients[a], category) ==> !Holds(s.clients[b], category);
      }
    }
  }

  lemma InsertedRow(leases: Table, id: RequestId, lease: Lease, category: string)
    requires id !in leases
    ensures InCategory(leases[id := lease], category)
         == InCategory(leases, category) + if lease.category == category then {id} else {}
  {
  }

  /** A granted insert fills at most the free place, and touches no other category. */
  lemma GrantKeepsLimits(
    cfg: LeaseConfig, leases: Table, id: RequestId, own: string, lease: Lease, gone: Table, category: string)
    requires WithinLimit(cfg, leases, category) && lease.category == own
    requires |InCategory(Without(leases, gone), own)| < cfg.maxConcurrent(own) && id !in Without(leases, gone)
    ensures WithinLimit(cfg, Without(leases, gone)[id := lease], category)
  {
    var left := Without(leases, gone);
    InsertedRow(left, id, lease, category);
    SubsetIsSmaller(InCategory(left, category), InCategory(leases, category));
  }

  lemma GrantKeepsInv(cfg: LeaseConfig, s: System, c: ClientId)
    requires Inv(cfg, s) && PhaseOf(s, c).Granted?
    ensures Inv(cfg, Advance(cfg, s, c))
  {
    var Granted(id, own, stamp, gone) := PhaseOf(s, c);
    var left := Without(s.leases, gone);
    assert PhaseOk(cfg, s.leases, s.clients[c]);
    if id in left {
      DeletionKeepsInv(cfg, s, left);
      MoveKeepsInv(cfg, s.(leases := left), c, Answered(true));
    } else {
      var lease := Lease(own, stamp + cfg.leaseSeconds);
      var leases' := left[id := lease];
      var s' := Move(s.(leases := leases'), c, Answered(true));
      forall category: string
        ensures WithinLimit(cfg, leases', category)
      {
        GrantKeepsLimits(cfg, s.leases, id, own, lease, gone, category);
      }
      forall d | d in s'.clients
        ensures PhaseOk(cfg, leases', s'.clients[d])
      {
        if d != c {
          assert Holds(s.clients[c], own);
          DeletionKeepsPhase(cfg, s.leases, leases', s.clients[d]);
        }
      }
      ExclusiveWithout(s.clients, c, Answered(true));
    }
  }

  lemma ExclusiveWithout(clients: map<ClientId, Phase>, c: ClientId, p: Phase)
    requires Exclusive(clients) && forall category :: !Holds(p, category)
    ensures Exclusive(clients[c := p])
  {
  }

  lemma AdvanceKeepsInv(cfg: LeaseConfig, s: System, c: ClientId)
    requires Inv(cfg, s)
    ensures Inv(cfg, Advance(cfg, s, c))
  {
    match PhaseOf(s, c)
    case Idle =>
    case Waiting(id, category, stamp) =>
      if LockFree(s, c, category) {
        MoveKeepsInv(cfg, s, c, Locked(id, category, stamp));
      }
    case Locked(id, category, stamp) => MoveKeepsInv(cfg, s, c, Purged(id, category, stamp, Expired(s.leases, stamp)));
    case Purged(id, category, stamp, gone) =>
      if |InCategory(Without(s.leases, gone), category)| >= cfg.maxConcurrent(category) {
        DeletionKeepsInv(cfg, s, Without(s.leases, gone));
        MoveKeepsInv(cfg, s.(leases := Without(s.leases, gone)), c, Answered(false));
      } else {
        assert PhaseOk(cfg, s.leases, s.clients[c]);
        MoveKeepsInv(cfg, s, c, Granted(id, category, stamp, gone));
      }
    case Granted(_, _, _, _) => GrantKeepsInv(cfg, s, c);
    case Answered(_) => MoveKeepsInv(cfg, s, c, Idle);
  }

  lemma StepKeepsInv(cfg: LeaseConfig, s: System, action: Action)
    requires Inv(cfg, s)
    ensures Inv(cfg, Step(cfg, s, action))
  {
    match action
    case Acquire(c, id, category) =>
      if PhaseOf(s, c).Idle? {
        MoveKeepsInv(cfg, s, c, Waiting(id, category, s.clock));
      }
    case Proceed(c) => AdvanceKeepsInv(cfg, s, c);
    case Abort(c) => MoveKeepsInv(cfg, s, c, Idle);
    case Release(id) => DeletionKeepsInv(cfg, s, s.leases - {id});
    case Tick(seconds) =>
  }

  lemma {:induction false} RunKeepsInv(cfg: LeaseConfig, actions: seq<Action>)
    ensures Inv(cfg, RunActions(cfg, actions))
  {
    if actions == [] {
      forall category: string
        ensures WithinLimit(cfg, map[], category)
      {
        assert InCategory(map[], category) == {};
      }
    } else {
      RunKeepsInv(cfg, actions[..|actions| - 1]);
      StepKeepsInv(cfg, RunActions(cfg, actions[..|actions| - 1]), actions[|actions| - 1]);
    }
  }

  // ---- over every run ----

  /** No interleaving lets a category hold more lease rows than its limit. */
  lemma NeverTooManyLeases(cfg: LeaseConfig, actions: seq<Action>, category: string)
    ensures |InCategory(RunActions(cfg, actions).leases, category)| <= cfg.maxConcurrent(category)
  {
    RunKeepsInv(cfg, actions);
    assert WithinLimit(cfg, RunActions(cfg, actions).leases, category);
  }

  /** Leases of the category that are unexpired at a time. */
  function LiveAt(leases: Table, category: string, at: Time): set<RequestId> {
    set id | id in leases && leases[id].category == category && leases[id].expiresAt > at
  }

  /** An acquire that has the lock is refused exactly when the limit is taken by leases unexpired at its stamp. */
  lemma RefusedExactlyWhenFull(cfg: LeaseConfig, actions: seq<Action>, c: ClientId)
    requires PhaseOf(RunActions(cfg, actions), c).Purged?
    ensures var s := RunActions(cfg, actions);
            var p := PhaseOf(s, c);
            PhaseOf(Advance(cfg, s, c), c) == Answered(false) <==>
            |LiveAt(s.leases, p.category, p.stamp)| >= cfg.maxConcurrent(p.category)
  {
    RunKeepsInv(cfg, actions);
    var s := RunActions(cfg, actions);
    var p := PhaseOf(s, c);
    assert PhaseOk(cfg, s.leases, p);
    assert InCategory(Without(s.leases, p.gone), p.category) == LiveAt(s.leases, p.category, p.stamp);
  }

  /** A first transaction on an empty table, up to its insert. */
  function GrantedRun(cfg: LeaseConfig, category: string, holder: RequestId): System {
    var s0 := System(map[], map[], 0);
    var s1 := Step(cfg, s0, Acquire(0, holder, category));
    var s2 := Step(cfg, s1, Proceed(0));
    var s3 := Step(cfg, s2, Proceed(0));
    Step(cfg, s3, Proceed(0))
  }

  /** A second transaction stamps its clock before the first commits its lease. */
  function HeldRun(cfg: LeaseConfig, category: string, holder: RequestId, other: RequestId): System {
    Step(cfg, Step(cfg, GrantedRun(cfg, category, holder), Acquire(1, other, category)), Proceed(0))
  }

  /** It waits out the whole lease before it gets the lock. */
  function StaleRun(cfg: LeaseConfig, category: string, holder: RequestId, other: RequestId): System {
    var waited := Step(cfg, HeldRun(cfg, category, holder, other), Tick(cfg.leaseSeconds));
    Step(cfg, Step(cfg, waited, Proceed(1)), Proceed(1))
  }

  lemma GrantedRunIs(cfg: LeaseConfig, category: string, holder: RequestId)
    requires cfg.maxConcurrent(category) == 1
    ensures GrantedRun(cfg, category, holder) == System(map[], map[0 := Granted(holder, category, 0, map[])], 0)
  {
    assert Expired(map[], 0) == map[];
    assert InCategory(Without(map[], map[]), category) == {};
  }

  lemma HeldRunIs(cfg: LeaseConfig, category: string, holder: RequestId, other: RequestId, leases: Table)
    requires cfg.maxConcurrent(category) == 1 && leases == map[holder := Lease(category, cfg.leaseSeconds)]
    ensures HeldRun(cfg, category, holder, other)
        == System(leases, map[0 := Answered(true), 1 := Waiting(other, category, 0)], 0)
  {
    GrantedRunIs(cfg, category, holder);
    assert Without(map[], map[]) == map[];
  }

  lemma StaleRunIs(cfg: LeaseConfig, category: string, holder: RequestId, other: RequestId, leases: Table)
    requires cfg.maxConcurrent(category) == 1 && cfg.leaseSeconds > 0
    requires leases == map[holder := Lease(category, cfg.leaseSeconds)]
    ensures StaleRun(cfg, category, holder, other)
        == System(leases, map[0 := Answered(true), 1 := Purged(other, category, 0, map[])], cfg.leaseSeconds)
  {
    HeldRunIs(cfg, category, holder, other, leases);
    assert Expired(leases, 0) == map[];
  }

  /** The stamp may lag behind the clock, so a category can refuse although its every lease has run out by then. */
  lemma StaleStampRefuses(cfg: LeaseConfig, category: string, holder: RequestId, other: RequestId)
    requires cfg.maxConcurrent(category) == 1 && cfg.leaseSeconds > 0
    ensures var s := StaleRun(cfg, category, holder, other);
            PhaseOf(Step(cfg, s, Proceed(1)), 1) == Answered(false) && LiveAt(s.leases, category, s.clock) == {}
  {
    var leases := map[holder := Lease(category, cfg.leaseSeconds)];
    StaleRunIs(cfg, category, holder, other, leases);
    assert InCategory(Without(leases, map[]), category) == {holder};
  }
}
