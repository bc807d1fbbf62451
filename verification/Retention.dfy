/**
 * Retention deletion across the document service, the workspace, the outbox, the
 * checkpoints and the lifecycle rows, by any number of cleaners that may fail or crash
 * between any two statements.
 */
module Retention {
  import opened Wrappers
  import opened MatchingSchema
  import opened Lifecycle

  datatype DeletionStatus = Pending | Completed | Failed

  /**
   * remote, files and checkpoints are the applications that still have documents in the
   * document service, a workspace folder and a checkpoint. The outbox is keyed by the
   * application, because its command identifier is derived from it.
   */
  datatype Data = Data(
    rows: map<AppId, LifecycleRow>,
    checkpoints: set<AppId>,
    files: set<AppId>,
    remote: set<AppId>,
    outbox: map<AppId, DeletionStatus>,
    tombstones: set<AppId>)

  predicate IsDue(d: Data, app: AppId, now: Timestamp) {
    app in d.rows && IsExpired(d.rows[app], now)
  }

  // ---- statements ----

  function InsertRequest(d: Data, app: AppId): Data {
    if app in d.outbox then d else d.(outbox := d.outbox[app := Pending])
  }

  function CloseRequest(d: Data, app: AppId): Data {
    d.(outbox := if app in d.outbox then d.outbox[app := DeletionStatus.Completed] else d.outbox,
       tombstones := d.tombstones + {app})
  }

  function FailRequest(d: Data, app: AppId): Data {
    if app in d.outbox then d.(outbox := d.outbox[app := Failed]) else d
  }

  predicate IsCompleted(d: Data, app: AppId) {
    app in d.outbox && d.outbox[app] == DeletionStatus.Completed
  }

  // ---- one application, undisturbed ----

  /** The retention callback: whether it returned, or raised because one of the deletions failed. */
  function Cleanup(d: Data, app: AppId, remoteWorks: bool, filesWork: bool): (Data, bool) {
    var requested := InsertRequest(d, app);
    if IsCompleted(requested, app) then
      if filesWork then (requested.(files := requested.files - {app}), true) else (requested, false)
    else if !remoteWorks then (FailRequest(requested, app), false)
    else
      var removed := requested.(remote := requested.remote - {app});
      if !filesWork then (FailRequest(removed, app), false)
      else (CloseRequest(removed.(files := removed.files - {app}), app), true)
  }

  function Forget(d: Data, app: AppId): Data {
    d.(checkpoints := d.checkpoints - {app}, rows := d.rows - {app})
  }

  /** Which external deletions work for an application. */
  datatype Weather = Weather(remote: bool, files: bool)

  /** A whole cleanup run over a list: it stops at the first application whose callback raises. */
  function CleanAll(d: Data, list: seq<AppId>, weather: AppId -> Weather): (Data, bool)
    decreases |list|
  {
    if list == [] then (d, true)
    else
      var (d', ok) := Cleanup(d, list[0], weather(list[0]).remote, weather(list[0]).files);
      if ok then CleanAll(Forget(d', list[0]), list[1..], weather) else (d', false)
  }

  class RetentionStores {
    var data: Data

    constructor (data: Data)
      ensures this.data == data
    {
      this.data := data;
    }

    method RetentionCleanup(app: AppId, remoteWorks: bool, filesWork: bool) returns (ok: bool)
      modifies this
      ensures (data, ok) == Cleanup(old(data), app, remoteWorks, filesWork)
    {
      if app !in data.outbox {
        data := data.(outbox := data.outbox[app := Pending]);
      }
      if data.outbox[app] == DeletionStatus.Completed {
        if filesWork {
          data := data.(files := data.files - {app});
        }
        return filesWork;
      }
      if remoteWorks {
        data := data.(remote := data.remote - {app});
      }
      if !remoteWorks || !filesWork {
        data := data.(outbox := data.outbox[app := Failed]);
        return false;
      }
      data := data.(files := data.files - {app});
      data := data.(outbox := data.outbox[app := DeletionStatus.Completed], tombstones := data.tombstones + {app});
      return true;
    }

    method CleanupExpired(list: seq<AppId>, weather: AppId -> Weather) returns (ok: bool)
      modifies this
      ensures (data, ok) == CleanAll(old(data), list, weather)
    {
      var i := 0;
      while i < |list|
        invariant 0 <= i <= |list|
        invariant CleanAll(data, list[i..], weather) == CleanAll(old(data), list, weather)
      {
        assert list[i..][0] == list[i] && list[i..][1..] == list[i + 1..];
        var cleaned := RetentionCleanup(list[i], weather(list[i]).remote, weather(list[i]).files);
        if !cleaned {
          return false;
        }
        data := data.(checkpoints := data.checkpoints - {list[i]});
        data := data.(rows := data.rows - {list[i]});
        i := i + 1;
      }
      return true;
    }
  }

  // ---- interleaved cleaners ----

  type CleanerId = nat

  /** since is the time the expired rows were listed at; rest are the applications still to come. */
  datatype Phase =
    | Idle
    | Next(since: Timestamp, rest: seq<AppId>)
    | Requested(since: Timestamp, app: AppId, rest: seq<AppId>)
    | RemoteDeleted(since: Timestamp, app: AppId, rest: seq<AppId>)
    | FilesDeleted(since: Timestamp, app: AppId, rest: seq<AppId>)
    | FoundCompleted(since: Timestamp, app: AppId, rest: seq<AppId>)
    | CleanedUp(since: Timestamp, app: AppId, rest: seq<AppId>)
    | CheckpointDeleted(since: Timestamp, app: AppId, rest: seq<AppId>)

  datatype System = System(data: Data, cleaners: map<CleanerId, Phase>)

  /** Work is any graph operation of an application: it may set its row and create its data. */
  datatype Action =
    | Begin(cleaner: CleanerId, now: Timestamp, list: seq<AppId>)
    | Proceed(cleaner: CleanerId)
    | Fail(cleaner: CleanerId)
    | Crash(cleaner: CleanerId)
    | Work(app: AppId, row: LifecycleRow)

  function PhaseOf(s: System, c: CleanerId): Phase {
    if c in s.cleaners then s.cleaners[c] else Idle
  }

  function Move(s: System, c: CleanerId, p: Phase): System {
    s.(cleaners := s.cleaners[c := p])
  }

  predicate ListsExpired(d: Data, now: Timestamp, list: seq<AppId>) {
    (forall app :: app in list ==> IsDue(d, app, now))
      && (forall app :: app in d.rows && IsDue(d, app, now) ==> app in list)
  }

  function Advance(s: System, c: CleanerId): System {
    var d := s.data;
    match PhaseOf(s, c)
    case Idle => s
    case Next(t, rest) =>
      if rest == [] then Move(s, c, Idle)
      else
        var d' := InsertRequest(d, rest[0]);
        Move(s.(data := d'), c, if IsCompleted(d', rest[0]) then FoundCompleted(t, rest[0], rest[1..])
          else Requested(t, rest[0], rest[1..]))
    case Requested(t, app, rest) => Move(s.(data := d.(remote := d.remote - {app})), c, RemoteDeleted(t, app, rest))
    case RemoteDeleted(t, app, rest) => Move(s.(data := d.(files := d.files - {app})), c, FilesDeleted(t, app, rest))
    case FoundCompleted(t, app, rest) => Move(s.(data := d.(files := d.files - {app})), c, CleanedUp(t, app, rest))
    case FilesDeleted(t, app, rest) => Move(s.(data := CloseRequest(d, app)), c, CleanedUp(t, app, rest))
    case CleanedUp(t, app, rest) =>
      Move(s.(data := d.(checkpoints := d.checkpoints - {app})), c, CheckpointDeleted(t, app, rest))
    case CheckpointDeleted(t, app, rest) => Move(s.(data := d.(rows := d.rows - {app})), c, Next(t, rest))
  }

  function Step(s: System, action: Action): System {
    match action
    case Begin(c, now, list) =>
      if PhaseOf(s, c).Idle? && ListsExpired(s.data, now, list) then Move(s, c, Next(now, list)) else s
    case Proceed(c) => Advance(s, c)
    case Fail(c) =>
      var p := PhaseOf(s, c);
      if p.Requested? || p.RemoteDeleted? then Move(s.(data := FailRequest(s.data, p.app)), c, Idle) else s
    case Crash(c) => Move(s, c, Idle)
    case Work(app, row) =>
      s.(data := s.data.(rows := s.data.rows[app := row], checkpoints := s.data.checkpoints + {app},
                         files := s.data.files + {app}, remote := s.data.remote + {app}))
  }

  const NO_DATA := Data(map[], {}, {}, {}, map[], {})

  function RunActions(actions: seq<Action>): System {
    if actions == [] then System(NO_DATA, map[])
    else Step(RunActions(actions[..|actions| - 1]), actions[|actions| - 1])
  }

  // ---- what other work must respect ----

  predicate Listed(p: Phase, app: AppId) {
    || (p.Next? && app in p.rest)
    || (!p.Idle? && !p.Next? && (app == p.app || app in p.rest))
  }

  /** The application is being deleted, or was. */
  predicate Doomed(s: System, app: AppId) {
    app in s.data.outbox || exists c :: c in s.cleaners && Listed(s.cleaners[c], app)
  }

  /** Nobody works on an application that is being deleted or was. */
  predicate Calm(s: System, action: Action) {
    action.Work? ==> !Doomed(s, action.app)
  }

  predicate CalmRun(actions: seq<Action>) {
    forall i :: 0 <= i < |actions| ==> CalmAt(actions, i)
  }

  predicate CalmAt(actions: seq<Action>, i: nat)
    requires i < |actions|
  {
    Calm(RunActions(actions[..i]), actions[i])
  }

  // ---- the invariant ----

  /** The application's row, if still there, is terminal and past its deletion date. */
  predicate StillDue(d: Data, app: AppId, since: Timestamp) {
    app in d.rows ==> IsExpired(d.rows[app], since)
  }

  predicate ListDue(d: Data, p: Phase) {
    !p.Idle? ==> forall app :: app in p.rest ==> StillDue(d, app, p.since)
  }

  predicate PhaseOk(d: Data, p: Phase) {
    && ListDue(d, p)
    && match p
       case Idle => true
       case Next(_, _) => true
       case Requested(t, app, _) => StillDue(d, app, t) && app in d.outbox
       case RemoteDeleted(t, app, _) => StillDue(d, app, t) && app in d.outbox && app !in d.remote
       case FilesDeleted(t, app, _) => StillDue(d, app, t) && app in d.outbox && app !in d.remote && app !in d.files
       case FoundCompleted(t, app, _) => StillDue(d, app, t) && app in d.outbox && app in d.tombstones
       case CleanedUp(t, app, _) => StillDue(d, app, t) && app in d.outbox && app in d.tombstones
       case CheckpointDeleted(t, app, _) =>
         StillDue(d, app, t) && app in d.outbox && app in d.tombstones && app !in d.checkpoints
  }

  /** A tombstone stands for data that is gone; a completed request has one. */
  predicate TombstoneOk(d: Data, app: AppId) {
    && (app in d.tombstones ==> app in d.outbox && app !in d.remote && app !in d.files)
    && (IsCompleted(d, app) ==> app in d.tombstones)
  }

  ghost predicate Inv(s: System) {
    && (forall c :: c in s.cleaners ==> PhaseOk(s.data, s.cleaners[c]))
    && (forall app: AppId :: TombstoneOk(s.data, app))
  }

  /** d' has deleted more of the one application than d, and nothing else has changed. */
  ghost predicate Shrinks(d: Data, d': Data, app: AppId) {
    && d'.rows.Keys <= d.rows.Keys && (forall a :: a in d'.rows ==> d'.rows[a] == d.rows[a])
    && (forall a :: a != app && a in d.rows ==> a in d'.rows)
    && d'.checkpoints <= d.checkpoints && d.checkpoints <= d'.checkpoints + {app}
    && d'.files <= d.files && d.files <= d'.files + {app}
    && d'.remote <= d.remote && d.remote <= d'.remote + {app}
    && d.outbox.Keys <= d'.outbox.Keys && (forall a :: a != app ==> (a in d.outbox <==> a in d'.outbox))
    && (forall a :: a != app && a in d.outbox ==> d'.outbox[a] == d.outbox[a])
    && d.tombstones <= d'.tombstones && d'.tombstones <= d.tombstones + {app}
  }

  /** Deleting more keeps every phase right. */
  lemma ShrinkingKeepsPhase(d: Data, d': Data, app: AppId, p: Phase)
    requires Shrinks(d, d', app) && PhaseOk(d, p)
    ensures PhaseOk(d', p)
  {
    if !p.Idle? {
      forall a | a in p.rest
        ensures StillDue(d', a, p.since)
      {
        assert StillDue(d, a, p.since);
      }
    }
  }

  lemma ShrinkingKeepsTombstones(d: Data, d': Data, app: AppId)
    requires Shrinks(d, d', app) && (forall a: AppId :: TombstoneOk(d, a)) && TombstoneOk(d', app)
    ensures forall a: AppId :: TombstoneOk(d', a)
  {
    forall a: AppId
      ensures TombstoneOk(d', a)
    {
      assert TombstoneOk(d, a);
    }
  }

  lemma ChangeKeepsInv(s: System, d': Data, app: AppId, c: CleanerId, p: Phase)
    requires Inv(s) && Shrinks(s.data, d', app) && TombstoneOk(d', app) && PhaseOk(d', p)
    ensures Inv(Move(s.(data := d'), c, p))
  {
    var s' := Move(s.(data := d'), c, p);
    ShrinkingKeepsTombstones(s.data, d', app);
    forall e | e in s'.cleaners
      ensures PhaseOk(d', s'.cleaners[e])
    {
      if e != c {
        ShrinkingKeepsPhase(s.data, d', app, s.cleaners[e]);
      }
    }
  }

  /** What an advancing cleaner works on, and what it leaves. */
  lemma AdvanceShrinks(s: System, c: CleanerId)
    requires Inv(s) && !PhaseOf(s, c).Idle? && !(PhaseOf(s, c).Next? && PhaseOf(s, c).rest == [])
    ensures var p := PhaseOf(s, c);
            var app := if p.Next? then p.rest[0] else p.app;
            var s' := Advance(s, c);
            && Shrinks(s.data, s'.data, app) && TombstoneOk(s'.data, app)
            && PhaseOk(s'.data, PhaseOf(s', c)) && s' == Move(s.(data := s'.data), c, PhaseOf(s', c))
  {
    var p := PhaseOf(s, c);
    assert PhaseOk(s.data, p);
    var app := if p.Next? then p.rest[0] else p.app;
    assert TombstoneOk(s.data, app);
    if p.Next? {
      assert app in p.rest;
      assert forall a :: a in p.rest[1..] ==> a in p.rest;
    }
  }

  lemma StepKeepsInv(s: System, action: Action)
    requires Inv(s) && Calm(s, action)
    ensures Inv(Step(s, action))
  {
    match action
    case Begin(c, now, list) =>
      if PhaseOf(s, c).Idle? && ListsExpired(s.data, now, list) {
        ChangeKeepsInv(s, s.data, "", c, Next(now, list));
      }
    case Proceed(c) =>
      var p := PhaseOf(s, c);
      if p.Next? && p.rest == [] {
        ChangeKeepsInv(s, s.data, "", c, Idle);
      } else if !p.Idle? {
        AdvanceShrinks(s, c);
        var s' := Advance(s, c);
        ChangeKeepsInv(s, s'.data, if p.Next? then p.rest[0] else p.app, c, PhaseOf(s', c));
      }
    case Fail(c) =>
      var p := PhaseOf(s, c);
      if p.Requested? || p.RemoteDeleted? {
        FailKeepsInv(s, c, p.app);
      }
    case Crash(c) => ChangeKeepsInv(s, s.data, "", c, Idle);
    case Work(app, row) => WorkKeepsInv(s, app, row);
  }

  lemma FailKeepsInv(s: System, c: CleanerId, app: AppId)
    requires Inv(s)
    ensures Inv(Move(s.(data := FailRequest(s.data, app)), c, Idle))
  {
    assert TombstoneOk(s.data, app);
    ChangeKeepsInv(s, FailRequest(s.data, app), app, c, Idle);
  }

  lemma WorkKeepsInv(s: System, app: AppId, row: LifecycleRow)
    requires Inv(s) && !Doomed(s, app)
    ensures Inv(Step(s, Work(app, row)))
  {
    var d' := Step(s, Work(app, row)).data;
    forall c | c in s.cleaners
      ensures PhaseOk(d', s.cleaners[c])
    {
      var p := s.cleaners[c];
      assert PhaseOk(s.data, p) && !Listed(p, app);
      if !p.Idle? {
        forall a | a in p.rest
          ensures StillDue(d', a, p.since)
        {
          assert StillDue(s.data, a, p.since);
        }
      }
    }
    forall a: AppId
      ensures TombstoneOk(d', a)
    {
      assert TombstoneOk(s.data, a);
    }
  }

  lemma {:induction false} RunKeepsInv(actions: seq<Action>)
    requires CalmRun(actions)
    ensures Inv(RunActions(actions))
  {
    if actions != [] {
      var n := |actions| - 1;
      forall i | 0 <= i < n
        ensures CalmAt(actions[..n], i)
      {
        assert CalmAt(actions, i) && actions[..n][..i] == actions[..i];
      }
      RunKeepsInv(actions[..n]);
      assert CalmAt(actions, n);
      StepKeepsInv(RunActions(actions[..n]), actions[n]);
    }
  }

  // ---- over every run ----

  /**
   * A lifecycle row is deleted only for a thread that was terminal and due, and only
   * after its remote documents, workspace and checkpoint are gone and its tombstone is
   * written.
   */
  lemma RowGoesLast(actions: seq<Action>, action: Action, app: AppId)
    requires CalmRun(actions + [action])
    requires app in RunActions(actions).data.rows && app !in RunActions(actions + [action]).data.rows
    ensures var d := RunActions(actions).data;
            && app !in d.remote && app !in d.files && app !in d.checkpoints && app in d.tombstones && app in d.outbox
            && exists since :: IsExpired(d.rows[app], since)
  {
    var longer, n := actions + [action], |actions|;
    assert longer[..n] == actions;
    forall i | 0 <= i < n
      ensures CalmAt(actions, i)
    {
      assert CalmAt(longer, i) && longer[..i] == actions[..i];
    }
    RunKeepsInv(actions);
    var s := RunActions(actions);
    assert TombstoneOk(s.data, app);
    assert PhaseOk(s.data, PhaseOf(s, action.cleaner));
  }

  /** A tombstone appears in exactly the step that completes the request. */
  lemma TombstoneComesWithCompletion(actions: seq<Action>, action: Action, app: AppId)
    requires CalmRun(actions)
    requires app !in RunActions(actions).data.tombstones
    ensures var d, d' := RunActions(actions).data, Step(RunActions(actions), action).data;
            !IsCompleted(d, app) && (app in d'.tombstones <==> IsCompleted(d', app))
  {
    RunKeepsInv(actions);
    var s := RunActions(actions);
    assert TombstoneOk(s.data, app);
    if action.Proceed? {
      assert PhaseOk(s.data, PhaseOf(s, action.cleaner));
    }
  }

  /** A later run finishes what an earlier one left at any point, provided the deletions work. */
  lemma LaterRunFinishes(actions: seq<Action>, app: AppId)
    requires CalmRun(actions)
    ensures var (d', ok) := Cleanup(RunActions(actions).data, app, true, true);
            && ok
            && app !in Forget(d', app).rows && app !in Forget(d', app).checkpoints
            && app !in d'.remote && app !in d'.files && app in d'.tombstones && IsCompleted(d', app)
  {
    RunKeepsInv(actions);
    assert TombstoneOk(RunActions(actions).data, app);
  }

  /**
   * What one undisturbed cleanup leaves of the remote documents: they are gone exactly
   * when there were none, or the request was not completed before and the deletion works.
   */
  lemma RemoteIsDeletedExactly(d: Data, app: AppId, remoteWorks: bool, filesWork: bool)
    ensures app !in Cleanup(d, app, remoteWorks, filesWork).0.remote <==>
              app !in d.remote || (!IsCompleted(d, app) && remoteWorks)
  {
  }
}
